/** Bit timing on the bxCAN controller: `can_check_bittiming_ok` (`src/can_common.c`) and the way a
    timing takes through the fields of the channel into the BTR register (`src/can/bxcan.c`).

    Section 10, Bit Timing Requirements, of the Bosch CAN 2.0 specification, Part B, names the parts
    of a bit. Sums and differences wrap around, and stores into shorter fields cut off.
  */
module BitTiming {

  /** `struct gs_device_bittiming` */
  datatype Timing = Timing(propSeg: bv32, phaseSeg1: bv32, phaseSeg2: bv32, sjw: bv32, brp: bv32)

  /** `struct can_bittiming_const` */
  datatype Limits = Limits(tseg1Min: bv32, tseg1Max: bv32, tseg2Min: bv32, tseg2Max: bv32,
                           sjwMax: bv32, brpMin: bv32, brpMax: bv32)

  /** The limits in `CAN_btconst`. */
  const BXCAN := Limits(1, 16, 1, 8, 4, 1, 1024)

  function Tseg1(t: Timing): bv32 {
    t.propSeg + t.phaseSeg1
  }

  /** `can_check_bittiming_ok` */
  predicate CheckBittimingOk(btc: Limits, t: Timing) {
    !(Tseg1(t) < btc.tseg1Min || Tseg1(t) > btc.tseg1Max
      || t.phaseSeg2 < btc.tseg2Min || t.phaseSeg2 > btc.tseg2Max
      || t.sjw > btc.sjwMax || t.brp < btc.brpMin || t.brp > btc.brpMax)
  }

  // ---------- the register ----------

  /** The four fields of BTR as `can_enable` shifts them into place. */
  function Fields(sjw: bv32, seg1: bv32, seg2: bv32, brp: bv32): bv32 {
    ((((sjw - 1) << 24) | ((seg1 - 1) << 16)) | ((seg2 - 1) << 20)) | (brp - 1)
  }

  function SilentBit(btr: bv32, silent: bool): bv32 {
    if silent then btr | 0x8000_0000 else btr
  }

  function LoopbackBit(btr: bv32, loopback: bool): bv32 {
    if loopback then btr | 0x4000_0000 else btr
  }

  function Btr(fields: bv32, silent: bool, loopback: bool): bv32 {
    LoopbackBit(SilentBit(fields, silent), loopback)
  }

  // GS_CAN_MODE_LISTEN_ONLY and GS_CAN_MODE_LOOP_BACK

  predicate ListenOnly(mode: bv32) { mode & 1 != 0 }

  predicate LoopBack(mode: bv32) { mode & 2 != 0 }

  /** What a controller makes of its BTR register. */
  datatype Setting = Setting(sjw: bv32, tseg1: bv32, tseg2: bv32, brp: bv32, silent: bool, loopback: bool)

  function Decode(btr: bv32): Setting {
    Setting(((btr >> 24) & 3) + 1, ((btr >> 16) & 15) + 1, ((btr >> 20) & 7) + 1, (btr & 0x3FF) + 1,
            btr & 0x8000_0000 != 0, btr & 0x4000_0000 != 0)
  }

  /** The setting a host asks for with a timing and a mode. */
  function Requested(t: Timing, mode: bv32): Setting {
    Setting(t.sjw, Tseg1(t), t.phaseSeg2, t.brp, ListenOnly(mode), LoopBack(mode))
  }

  // ---------- the channel ----------

  function Low16(x: bv32): bv16 { (x & 0xFFFF) as bv16 }

  function Low8(x: bv32): bv8 { (x & 0xFF) as bv8 }

  function Wide16(x: bv16): bv32 { x as bv32 }

  function Wide8(x: bv8): bv32 { x as bv32 }

  /** The timing fields of `can_data_t`. */
  class TimingFields {
    var brp: bv16
    var phaseSeg1: bv8
    var phaseSeg2: bv8
    var sjw: bv8

    constructor () {
      brp, phaseSeg1, phaseSeg2, sjw := 6, 13, 2, 1;
    }

    /** `can_set_bittiming` */
    method SetBittiming(t: Timing)
      modifies this
      ensures brp == Low16(t.brp) && phaseSeg1 == Low8(Tseg1(t)) && phaseSeg2 == Low8(t.phaseSeg2)
      ensures sjw == Low8(t.sjw)
    {
      var tseg1 := ((t.propSeg + t.phaseSeg1) & 0xFF) as bv8;
      brp := (t.brp & 0xFFFF) as bv16;
      phaseSeg1 := tseg1;
      phaseSeg2 := (t.phaseSeg2 & 0xFF) as bv8;
      sjw := (t.sjw & 0xFF) as bv8;
    }

    /** The part of `can_enable` that puts the register together. */
    method BtrValue(mode: bv32) returns (btr: bv32)
      ensures btr == Btr(Fields(Wide8(sjw), Wide8(phaseSeg1), Wide8(phaseSeg2), Wide16(brp)),
                         ListenOnly(mode), LoopBack(mode))
    {
      hide Fields, Btr, ListenOnly, LoopBack;
      btr := Fields(Wide8(sjw), Wide8(phaseSeg1), Wide8(phaseSeg2), Wide16(brp));
      btr := AddModes(btr, ListenOnly(mode), LoopBack(mode));
    }

    /** A bit timing request followed by `can_enable`: the register that is written encodes the
        request, for every accepted timing, exactly when the jump width is not zero. */
    method Configure(t: Timing, mode: bv32) returns (btr: bv32)
      requires CheckBittimingOk(BXCAN, t)
      modifies this
      ensures Decode(btr) == Requested(t, mode) <==> t.sjw != 0
    {
      hide Fields, Btr, Decode, ListenOnly, LoopBack, CheckBittimingOk, Requested, Tseg1;
      hide Low16, Low8, Wide16, Wide8;
      SetBittiming(t);
      Narrowing(t);
      btr := BtrValue(mode);
      TimingPreservedIff(t, mode);
    }
  }

  method AddModes(fields: bv32, silent: bool, loopback: bool) returns (btr: bv32)
    ensures btr == Btr(fields, silent, loopback)
  {
    btr := fields;
    if silent {
      btr := btr | 0x8000_0000;
    }
    assert btr == SilentBit(fields, silent);
    if loopback {
      btr := btr | 0x4000_0000;
    }
  }

  // ---------- what is preserved ----------

  /** The stores into shorter fields lose nothing of a timing within the limits. */
  lemma Narrowing(t: Timing)
    requires CheckBittimingOk(BXCAN, t)
    ensures Wide16(Low16(t.brp)) == t.brp && Wide8(Low8(Tseg1(t))) == Tseg1(t)
    ensures Wide8(Low8(t.phaseSeg2)) == t.phaseSeg2 && Wide8(Low8(t.sjw)) == t.sjw
  {}

  /** The fields do not overlap. */
  lemma FieldsDecode(sjw: bv32, seg1: bv32, seg2: bv32, brp: bv32)
    requires 1 <= sjw <= 4 && 1 <= seg1 <= 16 && 1 <= seg2 <= 8 && 1 <= brp <= 1024
    ensures Decode(Fields(sjw, seg1, seg2, brp)) == Setting(sjw, seg1, seg2, brp, false, false)
  {}

  lemma ModeBitsApart(x: bv32, y: bv32)
    requires y == x | 0x8000_0000 || y == x | 0x4000_0000
    ensures (y >> 24) & 3 == (x >> 24) & 3 && (y >> 16) & 15 == (x >> 16) & 15
    ensures (y >> 20) & 7 == (x >> 20) & 7 && y & 0x3FF == x & 0x3FF
  {}

  lemma SilentDecodes(x: bv32)
    ensures Decode(x | 0x8000_0000) == Decode(x).(silent := true)
  {
    ModeBitsApart(x, x | 0x8000_0000);
  }

  lemma LoopbackDecodes(x: bv32)
    ensures Decode(x | 0x4000_0000) == Decode(x).(loopback := true)
  {
    ModeBitsApart(x, x | 0x4000_0000);
  }

  function Silenced(s: Setting, silent: bool): Setting { if silent then s.(silent := true) else s }

  function Looped(s: Setting, loopback: bool): Setting { if loopback then s.(loopback := true) else s }

  lemma SilentBitDecodes(x: bv32, silent: bool)
    ensures Decode(SilentBit(x, silent)) == Silenced(Decode(x), silent)
  {
    if silent { SilentDecodes(x); }
  }

  lemma LoopbackBitDecodes(x: bv32, loopback: bool)
    ensures Decode(LoopbackBit(x, loopback)) == Looped(Decode(x), loopback)
  {
    if loopback { LoopbackDecodes(x); }
  }

  lemma ModesDecode(fields: bv32, silent: bool, loopback: bool)
    ensures Decode(Btr(fields, silent, loopback)) == Looped(Silenced(Decode(fields), silent), loopback)
  {
    SilentBitDecodes(fields, silent);
    LoopbackBitDecodes(SilentBit(fields, silent), loopback);
  }

  lemma ModesOf(s: Setting, silent: bool, loopback: bool)
    ensures Looped(Silenced(s, silent), loopback)
         == s.(silent := s.silent || silent, loopback := s.loopback || loopback)
  {}

  lemma BtrDecodes(sjw: bv32, seg1: bv32, seg2: bv32, brp: bv32, silent: bool, loopback: bool)
    requires 1 <= sjw <= 4 && 1 <= seg1 <= 16 && 1 <= seg2 <= 8 && 1 <= brp <= 1024
    ensures Decode(Btr(Fields(sjw, seg1, seg2, brp), silent, loopback))
      == Setting(sjw, seg1, seg2, brp, silent, loopback)
  {
    FieldsDecode(sjw, seg1, seg2, brp);
    ModesOf(Decode(Fields(sjw, seg1, seg2, brp)), silent, loopback);
    ModesDecode(Fields(sjw, seg1, seg2, brp), silent, loopback);
  }

  lemma ZeroField(seg1: bv32, seg2: bv32, brp: bv32)
    ensures var s := Decode(Fields(0, seg1, seg2, brp)); s.silent && s.loopback && s.sjw == 4
  {}

  /** The field of a zero jump width runs over into the mode bits. */
  lemma ZeroJumpWidth(seg1: bv32, seg2: bv32, brp: bv32, silent: bool, loopback: bool)
    ensures var s := Decode(Btr(Fields(0, seg1, seg2, brp), silent, loopback)); s.silent && s.loopback && s.sjw == 4
  {
    ZeroField(seg1, seg2, brp);
    ModesOf(Decode(Fields(0, seg1, seg2, brp)), silent, loopback);
    ModesDecode(Fields(0, seg1, seg2, brp), silent, loopback);
  }

  function BtrOf(t: Timing, mode: bv32): bv32 {
    Btr(Fields(t.sjw, Tseg1(t), t.phaseSeg2, t.brp), ListenOnly(mode), LoopBack(mode))
  }

  /** `can_check_bittiming_ok` accepts a zero jump width, which puts the controller into silent
      loopback mode whatever mode was asked for. Every other accepted timing gets through whole. */
  lemma TimingPreservedIff(t: Timing, mode: bv32)
    requires CheckBittimingOk(BXCAN, t)
    ensures Decode(BtrOf(t, mode)) == Requested(t, mode) <==> t.sjw != 0
    ensures t.sjw == 0 ==> Decode(BtrOf(t, mode)).silent && Decode(BtrOf(t, mode)).loopback
  {
    if t.sjw != 0 {
      BtrDecodes(t.sjw, Tseg1(t), t.phaseSeg2, t.brp, ListenOnly(mode), LoopBack(mode));
    } else {
      ZeroJumpWidth(Tseg1(t), t.phaseSeg2, t.brp, ListenOnly(mode), LoopBack(mode));
    }
  }

  lemma Decoded(btr: bv32)
    ensures var s := Decode(btr);
            1 <= s.sjw <= 4 && 1 <= s.tseg1 <= 16 && 1 <= s.tseg2 <= 8 && 1 <= s.brp <= 1024
  {}

  /** `can_check_bittiming_ok` is no stricter than the register: apart from the zero jump width it accepts
      exactly the timings that some value of the register encodes. */
  lemma AcceptedIff(t: Timing, mode: bv32)
    requires t.sjw != 0
    ensures CheckBittimingOk(BXCAN, t) <==> exists btr :: Decode(btr) == Requested(t, mode)
  {
    if CheckBittimingOk(BXCAN, t) {
      TimingPreservedIff(t, mode);
    }
    if btr :| Decode(btr) == Requested(t, mode) {
      Decoded(btr);
    }
  }
}
