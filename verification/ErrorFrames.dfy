/** Error frames: what `can_parse_error_status` of both CAN drivers writes into a frame buffer, and
    what the host reads out of it. */
module ErrorFrames {
  import opened GsUsb

  // ---------- what an error frame says ----------

  /** The last error code: 1 to 6 are protocol errors, 0 is none and 7 means nothing new. */
  datatype Lec = Nothing | Stuff | Form | Ack | Bit1 | Bit0 | Crc

  function LecOf(code: bv32): Lec {
    if code == 1 then Stuff else if code == 2 then Form else if code == 3 then Ack
    else if code == 4 then Bit1 else if code == 5 then Bit0 else if code == 6 then Crc else Nothing
  }

  /** The content of an error frame: which edges and which protocol error it reports. */
  datatype Report = Report(busOff: bool, active: bool, passive: bool, warning: bool, lec: Lec, tec: bv8, rec: bv8)

  predicate Worth(r: Report) {
    r.busOff || r.active || r.passive || r.warning || r.lec != Nothing
  }

  function Bit32(b: bool, mask: bv32): bv32 { if b then mask else 0 }

  function Bit8(b: bool, mask: bv8): bv8 { if b then mask else 0 }

  function IdBits(busOff: bool, control: bool, prot: bool, ack: bool): bv32 {
    ERR_FLAG | Bit32(busOff, ERR_BUSOFF) | Bit32(control, ERR_CRTL) | Bit32(prot, ERR_PROT) | Bit32(ack, ERR_ACK)
  }

  function ErrorId(r: Report): bv32 {
    IdBits(r.busOff, r.active || r.passive || r.warning, r.lec != Nothing && r.lec != Ack, r.lec == Ack)
  }

  function ControlByte(active: bool, passive: bool, warning: bool): bv8 {
    Bit8(active, CRTL_ACTIVE) | Bit8(passive, CRTL_PASSIVE) | Bit8(warning, CRTL_WARNING)
  }

  function ProtByte(lec: Lec): bv8 {
    match lec
    case Stuff => PROT_STUFF
    case Form => PROT_FORM
    case Bit1 => PROT_BIT1
    case Bit0 => PROT_BIT0
    case _ => 0
  }

  function ErrorData(r: Report): (d: seq<bv8>)
    ensures |d| == 8
  {
    [ 0, ControlByte(r.active, r.passive, r.warning), ProtByte(r.lec), Bit8(r.lec == Crc, PROT_LOC_CRC_SEQ), 0, 0,
      r.tec, r.rec ]
  }

  /** An error frame in a buffer that held `f`: channel, flags, reserved byte and timestamp stay, and
      so does the payload after its first eight bytes. */
  function Written(f: HostFrame, id: bv32, bytes: seq<bv8>): HostFrame
    requires |bytes| == 8
  {
    f.(echoId := NOT_ECHO, canId := id, dlc := ERR_DLC, data := bytes + if |f.data| > 8 then f.data[8..] else [])
  }

  const NO_REPORT := Report(false, false, false, false, Nothing, 0, 0)

  function ErrorFrame(f: HostFrame, r: Report): HostFrame {
    Written(f, ErrorId(r), ErrorData(r))
  }

  lemma ErrorFlagged(r: Report)
    ensures ErrorId(r) & ERR_FLAG != 0
  {}

  /** What a host makes of an error frame depends on three edges of the report only. */
  lemma HostReads(f: HostFrame, r: Report, b: bool)
    ensures HostBelief(b, ErrorFrame(f, r)) == if r.busOff || r.passive then false else r.active || b
  {
    var g, d := ErrorFrame(f, r), ErrorData(r);
    assert g.data[1] == d[1];
  }

  // ---------- the bits of an error frame ----------

  // The classes and the bytes are those of linux/can/error.h.

  /** The number of the last error code an error frame names, or 0: 1 is a stuff error, 2 a form error, 3 a
      missing acknowledgement, 4 a recessive and 5 a dominant bit error, 6 a CRC error. */
  function CodeIn(g: HostFrame): bv32
    requires |g.data| >= 8
  {
    if g.canId & 0x20 != 0 then 3
    else if g.canId & 0x08 == 0 then 0
    else if g.data[3] & 0x08 != 0 then 6
    else if g.data[2] & 0x04 != 0 then 1
    else if g.data[2] & 0x02 != 0 then 2
    else if g.data[2] & 0x10 != 0 then 4
    else if g.data[2] & 0x08 != 0 then 5
    else 0
  }

  /** The number of a protocol error: 0 and 7 stand for none. */
  function Named(code: bv32): bv32 {
    if 1 <= code <= 6 then code else 0
  }

  /** What a frame says, bit by bit, of the edges, the last error code and the two counters. The rest of
      the buffer is as in `f`. */
  predicate Says(g: HostFrame, f: HostFrame, busOff: bool, active: bool, passive: bool, warning: bool, code: bv32,
                 tec: bv8, rec: bv8)
  {
    && g.echoId == 0xFFFF_FFFF && g.dlc == 8 && |g.data| >= 8
    && g.channel == f.channel && g.flags == f.flags && g.reserved == f.reserved && g.timestamp == f.timestamp
    && g.canId & 0x2000_0000 != 0
    && (g.canId & 0x40 != 0 <==> busOff)
    && (g.canId & 0x04 != 0 <==> active || passive || warning)
    && (g.data[1] & 0x40 != 0 <==> active)
    && g.data[1] & 0x30 == (if passive then 0x30 else 0)
    && g.data[1] & 0x0C == (if warning then 0x0C else 0)
    && CodeIn(g) == code
    && g.data[6] == tec && g.data[7] == rec
  }

  lemma IdSays(busOff: bool, control: bool, prot: bool, ack: bool)
    ensures var id := IdBits(busOff, control, prot, ack);
            && id & 0x2000_0000 != 0
            && (id & 0x40 != 0 <==> busOff) && (id & 0x04 != 0 <==> control)
            && (id & 0x08 != 0 <==> prot) && (id & 0x20 != 0 <==> ack)
  {}

  lemma ControlSays(active: bool, passive: bool, warning: bool)
    ensures var b := ControlByte(active, passive, warning);
            && (b & 0x40 != 0 <==> active)
            && b & 0x30 == (if passive then 0x30 else 0)
            && b & 0x0C == (if warning then 0x0C else 0)
  {}

  lemma CodeSays(g: HostFrame, code: bv32)
    requires |g.data| >= 8 && code <= 7
    requires g.data[2] == ProtByte(LecOf(code)) && g.data[3] == Bit8(LecOf(code) == Crc, PROT_LOC_CRC_SEQ)
    requires g.canId & 0x08 != 0 <==> LecOf(code) != Nothing && LecOf(code) != Ack
    requires g.canId & 0x20 != 0 <==> LecOf(code) == Ack
    ensures CodeIn(g) == Named(code)
    ensures LecOf(code) == Nothing <==> Named(code) == 0
  {}

  /** The bits of the frame are those of its report. */
  lemma ReportSays(f: HostFrame, r: Report, code: bv32)
    requires code <= 7 && r.lec == LecOf(code)
    ensures Says(ErrorFrame(f, r), f, r.busOff, r.active, r.passive, r.warning, Named(code), r.tec, r.rec)
    ensures Worth(r) <==> r.busOff || r.active || r.passive || r.warning || Named(code) != 0
  {
    var g, d := ErrorFrame(f, r), ErrorData(r);
    IdSays(r.busOff, r.active || r.passive || r.warning, r.lec != Nothing && r.lec != Ack, r.lec == Ack);
    ControlSays(r.active, r.passive, r.warning);
    hide IdBits, ControlByte, ProtByte, LecOf, Bit8;
    assert g.canId == ErrorId(r) && |g.data| >= 8;
    assert g.data[1] == d[1] && g.data[2] == d[2] && g.data[3] == d[3] && g.data[6] == d[6] && g.data[7] == d[7];
    hide Written;
    CodeSays(g, code);
    hide CodeIn;
  }

  // ---------- three states ----------

  /** The fault confinement states of section 8 of the Bosch CAN 2.0 specification, Part B. */
  datatype FaultState = ErrorActive | ErrorPassive | BusOffState

  /** The state a host takes a controller to be in after one more report. */
  function StateAfter(state: FaultState, r: Report): FaultState {
    if r.busOff then BusOffState else if r.passive then ErrorPassive else if r.active then ErrorActive else state
  }

  // ---------- writing the frame in place ----------

  /** The field of `can_data_t` that remembers the last status word. */
  class ErrorMemory {
    var regEsrOld: bv32

    constructor ()
      ensures regEsrOld == 0
    {
      regEsrOld := 0;
    }
  }

  /** A `struct gs_host_frame` in its buffer. */
  class FrameBuffer {
    var echoId: bv32
    var canId: bv32
    var dlc: bv8
    var channel: nat
    var flags: bv8
    var reserved: bv8
    const data: array<bv8>
    var timestamp: bv32

    constructor (f: HostFrame)
      ensures Value() == f && fresh(data)
    {
      echoId, canId, dlc, channel := f.echoId, f.canId, f.dlc, f.channel;
      flags, reserved, timestamp := f.flags, f.reserved, f.timestamp;
      data := new bv8[|f.data|](i requires 0 <= i < |f.data| => f.data[i]);
      new;
      assert data[..] == f.data;
    }

    function Value(): HostFrame
      reads this, data
    {
      HostFrame(echoId, canId, dlc, channel, flags, reserved, data[..], timestamp)
    }
  }

  method ClearBytes(d: array<bv8>)
    requires d.Length >= 8
    modifies d
    ensures d[..] == [0, 0, 0, 0, 0, 0, 0, 0] + old(d[8..])
  {
    ghost var rest := d[8..];
    d[0], d[1], d[2], d[3], d[4], d[5], d[6], d[7] := 0, 0, 0, 0, 0, 0, 0, 0;
    assert d[..8] == [0, 0, 0, 0, 0, 0, 0, 0];
    assert d[..] == d[..8] + rest;
  }

  lemma NothingReported()
    ensures ErrorId(NO_REPORT) == ERR_FLAG && ErrorData(NO_REPORT) == [0, 0, 0, 0, 0, 0, 0, 0]
  {}

  method ClearError(frame: FrameBuffer)
    requires frame.data.Length >= 8
    modifies frame, frame.data
    ensures frame.Value() == ErrorFrame(old(frame.Value()), NO_REPORT)
  {
    NothingReported();
    hide ErrorId, ErrorData;
    frame.echoId := NOT_ECHO;
    frame.canId := ERR_FLAG;
    frame.dlc := ERR_DLC;
    ClearBytes(frame.data);
  }

  function MarkedId(id: bv32, bits: bv32): bv32 { id | bits }

  function MarkedData(bytes: seq<bv8>, at: nat, bits: bv8): (d: seq<bv8>)
    requires at < |bytes|
    ensures |d| == |bytes|
  {
    bytes[at := bytes[at] | bits]
  }

  /** `frame->can_id |= bits` */
  method MarkId(frame: FrameBuffer, bits: bv32, ghost f: HostFrame, ghost id: bv32, ghost bytes: seq<bv8>)
    requires |bytes| == 8 && frame.Value() == Written(f, id, bytes)
    modifies frame`canId
    ensures frame.Value() == Written(f, MarkedId(id, bits), bytes)
  {
    frame.canId := frame.canId | bits;
  }

  /** `frame->classic_can->data[at] |= bits` */
  method MarkData(frame: FrameBuffer, at: nat, bits: bv8, ghost f: HostFrame, ghost id: bv32, ghost bytes: seq<bv8>)
    requires frame.data.Length >= 8 && |bytes| == 8 && at < 8 && frame.Value() == Written(f, id, bytes)
    modifies frame.data
    ensures frame.Value() == Written(f, id, MarkedData(bytes, at, bits))
  {
    assert frame.data[..8] == frame.Value().data[..8] == bytes;
    ghost var rest := frame.data[8..];
    var b := frame.data[at] | bits;
    frame.data[at] := b;
    assert frame.data[..8] == bytes[at := b];
    assert frame.data[..] == frame.data[..8] + rest;
  }

  /** Put the two error counters into a report. */
  method PutCounters(frame: FrameBuffer, tec: bv8, rec: bv8, ghost f: HostFrame, ghost r: Report)
    requires frame.data.Length >= 8 && frame.Value() == ErrorFrame(f, r)
    modifies frame.data
    ensures frame.Value() == ErrorFrame(f, r.(tec := tec, rec := rec))
  {
    PutBytes(frame, tec, rec, f, ErrorId(r), ErrorData(r));
    CountersData(r, tec, rec);
  }

  method PutBytes(frame: FrameBuffer, tec: bv8, rec: bv8, ghost f: HostFrame, ghost id: bv32, ghost bytes: seq<bv8>)
    requires frame.data.Length >= 8 && |bytes| == 8 && frame.Value() == Written(f, id, bytes)
    modifies frame.data
    ensures frame.Value() == Written(f, id, bytes[6 := tec][7 := rec])
  {
    assert frame.data[..8] == frame.Value().data[..8] == bytes;
    ghost var rest := frame.data[8..];
    frame.data[6] := tec;
    frame.data[7] := rec;
    assert frame.data[..8] == bytes[6 := tec][7 := rec];
    assert frame.data[..] == frame.data[..8] + rest;
  }

  lemma CountersData(r: Report, tec: bv8, rec: bv8)
    ensures ErrorData(r.(tec := tec, rec := rec)) == ErrorData(r)[6 := tec][7 := rec]
    ensures ErrorId(r.(tec := tec, rec := rec)) == ErrorId(r)
  {
    hide IdBits, ControlByte, ProtByte;
  }

  /** Put one more thing into a report: `q` is `r` with it. */
  method Mark(frame: FrameBuffer, idBits: bv32, at: nat, bits: bv8, ghost f: HostFrame, ghost r: Report,
      ghost q: Report)
    requires frame.data.Length >= 8 && at < 8 && frame.Value() == ErrorFrame(f, r)
    requires ErrorId(q) == MarkedId(ErrorId(r), idBits) && ErrorData(q) == MarkedData(ErrorData(r), at, bits)
    modifies frame`canId, frame.data
    ensures frame.Value() == ErrorFrame(f, q)
  {
    hide ErrorId, ErrorData, Written, MarkedId, MarkedData;
    MarkId(frame, idBits, f, ErrorId(r), ErrorData(r));
    MarkData(frame, at, bits, f, ErrorId(q), ErrorData(r));
  }

  lemma IdBitsMarked(busOff: bool, control: bool, prot: bool, ack: bool)
    ensures IdBits(true, control, prot, ack) == MarkedId(IdBits(busOff, control, prot, ack), ERR_BUSOFF)
    ensures IdBits(busOff, true, prot, ack) == MarkedId(IdBits(busOff, control, prot, ack), ERR_CRTL)
    ensures IdBits(busOff, control, true, ack) == MarkedId(IdBits(busOff, control, prot, ack), ERR_PROT)
    ensures IdBits(busOff, control, prot, true) == MarkedId(IdBits(busOff, control, prot, ack), ERR_ACK)
  {}

  lemma ControlId(r: Report, q: Report)
    requires q == r.(active := true) || q == r.(passive := true) || q == r.(warning := true)
    ensures ErrorId(q) == MarkedId(ErrorId(r), ERR_CRTL)
  {
    hide IdBits, MarkedId;
    IdBitsMarked(r.busOff, r.active || r.passive || r.warning, r.lec != Nothing && r.lec != Ack, r.lec == Ack);
  }

  lemma BusOffBit(r: Report)
    ensures ErrorId(r.(busOff := true)) == MarkedId(ErrorId(r), ERR_BUSOFF)
    ensures ErrorData(r.(busOff := true)) == ErrorData(r)
  {
    hide IdBits, MarkedId, ControlByte, ProtByte;
    IdBitsMarked(r.busOff, r.active || r.passive || r.warning, r.lec != Nothing && r.lec != Ack, r.lec == Ack);
  }

  lemma ActiveBit(r: Report)
    ensures ErrorId(r.(active := true)) == MarkedId(ErrorId(r), ERR_CRTL)
    ensures ErrorData(r.(active := true)) == MarkedData(ErrorData(r), 1, CRTL_ACTIVE)
  {
    hide ErrorId, ProtByte, MarkedId;
    ControlId(r, r.(active := true));
    assert ErrorData(r.(active := true))[1] == ErrorData(r)[1] | CRTL_ACTIVE;
  }

  lemma PassiveBit(r: Report)
    ensures ErrorId(r.(passive := true)) == MarkedId(ErrorId(r), ERR_CRTL)
    ensures ErrorData(r.(passive := true)) == MarkedData(ErrorData(r), 1, CRTL_PASSIVE)
  {
    hide ErrorId, ProtByte, MarkedId;
    ControlId(r, r.(passive := true));
    assert ErrorData(r.(passive := true))[1] == ErrorData(r)[1] | CRTL_PASSIVE;
  }

  lemma WarningBit(r: Report)
    ensures ErrorId(r.(warning := true)) == MarkedId(ErrorId(r), ERR_CRTL)
    ensures ErrorData(r.(warning := true)) == MarkedData(ErrorData(r), 1, CRTL_WARNING)
  {
    hide ErrorId, ProtByte, MarkedId;
    ControlId(r, r.(warning := true));
    assert ErrorData(r.(warning := true))[1] == ErrorData(r)[1] | CRTL_WARNING;
  }

  /** The edge to error active. */
  method ReportActive(frame: FrameBuffer, edge: bool, ghost f: HostFrame, ghost r: Report)
    requires frame.data.Length >= 8 && frame.Value() == ErrorFrame(f, r) && !r.active
    modifies frame`canId, frame.data
    ensures frame.Value() == ErrorFrame(f, r.(active := edge))
  {
    if edge {
      ActiveBit(r);
      Mark(frame, ERR_CRTL, 1, CRTL_ACTIVE, f, r, r.(active := true));
    }
  }

  /** The edges to error passive and to the warning level. */
  method ReportLevel(frame: FrameBuffer, wasPassive: bool, isPassive: bool, wasWarning: bool, isWarning: bool,
                     ghost f: HostFrame, ghost r: Report) returns (shouldSend: bool)
    requires frame.data.Length >= 8 && frame.Value() == ErrorFrame(f, r) && !r.passive && !r.warning
    modifies frame`canId, frame.data
    ensures var passive, warning := isPassive && !wasPassive, !isPassive && isWarning && !wasWarning;
            frame.Value() == ErrorFrame(f, r.(passive := passive, warning := warning))
              && shouldSend == (passive || warning)
  {
    shouldSend := false;
    if isPassive {
      if !wasPassive {
        PassiveBit(r);
        Mark(frame, ERR_CRTL, 1, CRTL_PASSIVE, f, r, r.(passive := true));
        shouldSend := true;
      }
    } else if isWarning {
      if !wasWarning {
        WarningBit(r);
        Mark(frame, ERR_CRTL, 1, CRTL_WARNING, f, r, r.(warning := true));
        shouldSend := true;
      }
    }
  }

  /** The byte and the bits of it that name a protocol error other than a missing acknowledgement. */
  predicate NamesLec(lec: Lec, at: nat, bits: bv8) {
    match lec
    case Stuff => at == 2 && bits == PROT_STUFF
    case Form => at == 2 && bits == PROT_FORM
    case Bit1 => at == 2 && bits == PROT_BIT1
    case Bit0 => at == 2 && bits == PROT_BIT0
    case Crc => at == 3 && bits == PROT_LOC_CRC_SEQ
    case Nothing => false
    case Ack => false
  }

  lemma ProtId(r: Report, lec: Lec)
    requires r.lec == Nothing && lec != Nothing
    ensures ErrorId(r.(lec := lec)) == MarkedId(ErrorId(r), if lec == Ack then ERR_ACK else ERR_PROT)
  {
    hide IdBits, MarkedId;
    IdBitsMarked(r.busOff, r.active || r.passive || r.warning, r.lec != Nothing && r.lec != Ack, r.lec == Ack);
  }

  lemma ProtByteOf(lec: Lec, bits: bv8)
    ensures NamesLec(lec, 2, bits) ==> ProtByte(lec) == bits
    ensures ProtByte(Nothing) == ProtByte(Crc) == 0
  {}

  lemma OrZero(bits: bv8)
    ensures 0 | bits == bits
  {}

  lemma ProtData(r: Report, lec: Lec, at: nat, bits: bv8)
    requires at < 8 && r.lec == Nothing && NamesLec(lec, at, bits)
    ensures ErrorData(r.(lec := lec)) == MarkedData(ErrorData(r), at, bits)
  {
    hide ControlByte;
    var d, e := ErrorData(r), ErrorData(r.(lec := lec));
    OrZero(bits);
    hide ProtByte;
    ProtByteOf(lec, bits);
    if at == 2 {
      assert e == d[2 := bits];
    } else {
      assert e == d[3 := bits];
    }
  }

  method ReportProt(frame: FrameBuffer, lec: Lec, at: nat, bits: bv8, ghost f: HostFrame, ghost r: Report)
    requires frame.data.Length >= 8 && r.lec == Nothing && frame.Value() == ErrorFrame(f, r)
    requires at < 8 && lec != Nothing && lec != Ack && NamesLec(lec, at, bits)
    modifies frame`canId, frame.data
    ensures frame.Value() == ErrorFrame(f, r.(lec := lec))
  {
    hide ErrorId, ErrorData, Written, MarkedId, MarkedData, NamesLec;
    ProtId(r, lec);
    ProtData(r, lec, at, bits);
    Mark(frame, ERR_PROT, at, bits, f, r, r.(lec := lec));
  }

  lemma AckData(r: Report)
    requires r.lec == Nothing
    ensures ErrorData(r.(lec := Ack)) == ErrorData(r)
  {}

  /** The `switch` over the last error code. */
  method ReportLec(frame: FrameBuffer, lec: Lec, ghost f: HostFrame, ghost r: Report) returns (protocolError: bool)
    requires frame.data.Length >= 8 && r.lec == Nothing && frame.Value() == ErrorFrame(f, r)
    modifies frame`canId, frame.data
    ensures frame.Value() == ErrorFrame(f, r.(lec := lec))
    ensures protocolError <==> lec != Nothing
  {
    hide ErrorId, ErrorData, Written, MarkedId;
    protocolError := true;
    match lec
    case Nothing => protocolError := false;
    case Ack =>
      ProtId(r, Ack);
      AckData(r);
      MarkId(frame, ERR_ACK, f, ErrorId(r), ErrorData(r));
    case Stuff => ReportProt(frame, lec, 2, PROT_STUFF, f, r);
    case Form => ReportProt(frame, lec, 2, PROT_FORM, f, r);
    case Bit1 => ReportProt(frame, lec, 2, PROT_BIT1, f, r);
    case Bit0 => ReportProt(frame, lec, 2, PROT_BIT0, f, r);
    case Crc => ReportProt(frame, lec, 3, PROT_LOC_CRC_SEQ, f, r);
  }
}
