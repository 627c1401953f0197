/** The bxCAN driver (`src/can/bxcan.c`), second part: host frames in and out of the mailbox
    registers.
  */
module BxcanCodec {
  import opened GsUsb
  import opened Wrappers
  import opened ErrorFrames
  import Bxcan

  /** The four registers of a transmit mailbox or of the receive FIFO's output mailbox: identifier,
      length, and the low and the high half of the data. */
  datatype Mail = Mail(ir: bv32, dtr: bv32, dlr: bv32, dhr: bv32)

  // ---------- bytes and words ----------

  function Word(b0: bv8, b1: bv8, b2: bv8, b3: bv8): bv32 {
    ((b3 as bv32) << 24) | ((b2 as bv32) << 16) | ((b1 as bv32) << 8) | (b0 as bv32)
  }

  function Byte0(w: bv32): bv8 { (w & 0xFF) as bv8 }

  function Byte1(w: bv32): bv8 { ((w >> 8) & 0xFF) as bv8 }

  function Byte2(w: bv32): bv8 { ((w >> 16) & 0xFF) as bv8 }

  function Byte3(w: bv32): bv8 { ((w >> 24) & 0xFF) as bv8 }

  lemma BytesOfWord(b0: bv8, b1: bv8, b2: bv8, b3: bv8)
    ensures var w := Word(b0, b1, b2, b3); Byte0(w) == b0 && Byte1(w) == b1 && Byte2(w) == b2 && Byte3(w) == b3
  {}

  lemma WordOfBytes(w: bv32)
    ensures Word(Byte0(w), Byte1(w), Byte2(w), Byte3(w)) == w
  {}

  // ---------- identifiers ----------

  // CAN_ID_EXT or CAN_RI0R_IDE, and CAN_RTR_REMOTE or CAN_RI0R_RTR

  predicate Ide(ir: bv32) { ir & 4 != 0 }

  predicate Rtr(ir: bv32) { ir & 2 != 0 }

  /** The identifier in its place in the register, and the other way around. */
  function IdBits(b: bv32, extended: bool): bv32 {
    if extended then 4 | (b << 3) else b << 21
  }

  function BitsId(ir: bv32): bv32 {
    if Ide(ir) then (ir >> 3) & 0x1FFF_FFFF else (ir >> 21) & 0x7FF
  }

  function RtrBit(ir: bv32, remote: bool): bv32 {
    if remote then ir | 2 else ir
  }

  function Register(b: bv32, extended: bool, remote: bool): bv32 {
    RtrBit(IdBits(b, extended), remote)
  }

  function IdRegister(id: bv32): bv32 {
    Register(BusId(id), Extended(id), Remote(id))
  }

  function Requested(ir: bv32): bv32 { ir | 1 }

  /** The identifier register `can_send` requests the transmission with. */
  function TxIr(id: bv32): bv32 {
    Requested(IdRegister(id))
  }

  /** The identifier `can_receive` reads. */
  function RxId(ir: bv32): bv32 {
    Formatted(BitsId(ir), Ide(ir), Rtr(ir))
  }

  function WithDlc(dtr: bv32, dlc: bv8): bv32 {
    (dtr & 0xFFFF_FFF0) | ((dlc & 0x0F) as bv32)
  }

  function DlcOf(dtr: bv32): bv8 {
    (dtr & 0x0F) as bv8
  }

  // ---------- can_send and can_receive as functions ----------

  function TxMail(m: Mail, f: HostFrame): Mail
    requires |f.data| >= 8
  {
    var d := f.data;
    Mail(TxIr(f.canId), WithDlc(m.dtr, f.dlc),
         Word(d[0], d[1], d[2], d[3]), Word(d[4], d[5], d[6], d[7]))
  }

  function RxBytes(m: Mail): seq<bv8> {
    [Byte0(m.dlr), Byte1(m.dlr), Byte2(m.dlr), Byte3(m.dlr), Byte0(m.dhr), Byte1(m.dhr), Byte2(m.dhr), Byte3(m.dhr)]
  }

  function RxFrame(f: HostFrame, m: Mail, nr: nat, now: bv32): HostFrame
    requires |f.data| >= 8
  {
    f.(canId := RxId(m.ir), dlc := DlcOf(m.dtr), channel := nr, flags := 0, timestamp := now,
       data := RxBytes(m) + f.data[8..])
  }

  /** Bit `26 + k` of TSR: transmit mailbox `k` is empty. */
  predicate MailboxEmpty(tsr: bv32, k: nat)
    requires k < 3
  {
    tsr & (if k == 0 then 0x0400_0000 else if k == 1 then 0x0800_0000 else 0x1000_0000) != 0
  }

  // ---------- the registers ----------

  class Mailbox {
    var ir: bv32
    var dtr: bv32
    var dlr: bv32
    var dhr: bv32

    constructor (m: Mail)
      ensures Value() == m
    {
      ir, dtr, dlr, dhr := m.ir, m.dtr, m.dlr, m.dhr;
    }

    function Value(): Mail
      reads this
    {
      Mail(ir, dtr, dlr, dhr)
    }
  }

  class Peripheral {
    var tsr: bv32
    var rf0r: bv32
    const tx: seq<Mailbox>
    const fifo: Mailbox

    constructor (tx: seq<Mailbox>, fifo: Mailbox)
      requires |tx| == 3
      ensures this.tx == tx && this.fifo == fifo && tsr == 0x1C00_0000 && rf0r == 0
    {
      this.tx, this.fifo, tsr, rf0r := tx, fifo, 0x1C00_0000, 0;
    }

    ghost predicate Valid() {
      && |tx| == 3 && fifo !in tx
      && tx[0] != tx[1] && tx[0] != tx[2] && tx[1] != tx[2]
    }

    predicate RxPending()
      reads this
    {
      rf0r & 3 != 0
    }
  }

  /** `can_find_free_mailbox`: the first empty mailbox. */
  method FindFreeMailbox(can: Peripheral) returns (mailbox: Option<nat>)
    ensures mailbox.None? ==> forall k: nat :: k < 3 ==> !MailboxEmpty(can.tsr, k)
    ensures mailbox.Some? ==> mailbox.value < 3 && MailboxEmpty(can.tsr, mailbox.value)
    ensures mailbox.Some? ==> forall k: nat :: k < mailbox.value ==> !MailboxEmpty(can.tsr, k)
  {
    var tsr := can.tsr;
    if tsr & 0x0400_0000 != 0 {
      mailbox := Some(0);
    } else if tsr & 0x0800_0000 != 0 {
      mailbox := Some(1);
    } else if tsr & 0x1000_0000 != 0 {
      mailbox := Some(2);
    } else {
      mailbox := None;
    }
  }

  method PlaceId(mb: Mailbox, b: bv32, extended: bool)
    modifies mb`ir
    ensures mb.ir == IdBits(b, extended)
  {
    mb.ir := mb.ir & 1;
    if extended {
      mb.ir := 4 | (b << 3);
    } else {
      mb.ir := b << 21;
    }
  }

  method PlaceRtr(mb: Mailbox, remote: bool)
    modifies mb`ir
    ensures mb.ir == RtrBit(old(mb.ir), remote)
  {
    if remote {
      mb.ir := mb.ir | 2;
    }
  }

  /** The stores of `can_send` into the identifier register before the request for transmission. */
  method WriteId(mb: Mailbox, b: bv32, extended: bool, remote: bool)
    modifies mb`ir
    ensures mb.ir == Register(b, extended, remote)
  {
    PlaceId(mb, b, extended);
    PlaceRtr(mb, remote);
  }

  method WriteDlc(mb: Mailbox, dlc: bv8)
    modifies mb`dtr
    ensures mb.dtr == WithDlc(old(mb.dtr), dlc)
  {
    mb.dtr := mb.dtr & 0xFFFF_FFF0;
    mb.dtr := mb.dtr | ((dlc & 0x0F) as bv32);
  }

  method WriteData(mb: Mailbox, d: array<bv8>)
    requires d.Length >= 8
    modifies mb`dlr, mb`dhr
    ensures mb.dlr == Word(d[0], d[1], d[2], d[3]) && mb.dhr == Word(d[4], d[5], d[6], d[7])
  {
    mb.dlr := Word(d[0], d[1], d[2], d[3]);
    mb.dhr := Word(d[4], d[5], d[6], d[7]);
  }

  method RequestTransmission(mb: Mailbox)
    modifies mb`ir
    ensures mb.ir == Requested(old(mb.ir))
  {
    mb.ir := mb.ir | 1;
  }

  /** The stores of `can_send` into its mailbox. */
  method FillMailbox(mb: Mailbox, frame: FrameBuffer)
    requires frame.data.Length >= 8
    modifies mb
    ensures mb.Value() == TxMail(old(mb.Value()), frame.Value())
  {
    WriteId(mb, BusId(frame.canId), Extended(frame.canId), Remote(frame.canId));
    WriteDlc(mb, frame.dlc);
    WriteData(mb, frame.data);
    RequestTransmission(mb);
  }

  /** `can_send`: with an empty mailbox the first one gets the frame, and the frame loses its flags;
      with none nothing changes. */
  method CanSend(can: Peripheral, frame: FrameBuffer) returns (sent: bool)
    requires can.Valid() && frame.data.Length >= 8
    modifies can.tx, frame`flags
    ensures sent <==> exists k: nat :: k < 3 && MailboxEmpty(can.tsr, k)
    ensures sent ==> frame.Value() == old(frame.Value()).(flags := 0) == Bxcan.DRIVER.sent(old(frame.Value()))
    ensures !sent ==> frame.Value() == old(frame.Value())
    ensures forall k: nat :: k < 3 ==>
      can.tx[k].Value() == if MailboxEmpty(can.tsr, k) && (forall j: nat :: j < k ==> !MailboxEmpty(can.tsr, j))
                           then TxMail(old(can.tx[k].Value()), old(frame.Value())) else old(can.tx[k].Value())
  {
    hide TxMail, MailboxEmpty;
    var mailbox := FindFreeMailbox(can);
    if mailbox.None? {
      return false;
    }
    FillMailbox(can.tx[mailbox.value], frame);
    frame.flags := 0;
    sent := true;
  }

  method ReadId(m: Mailbox, frame: FrameBuffer)
    modifies frame`canId
    ensures frame.canId == RxId(m.ir)
  {
    if Ide(m.ir) {
      frame.canId := MarkExtended((m.ir >> 3) & 0x1FFF_FFFF);
    } else {
      frame.canId := (m.ir >> 21) & 0x7FF;
    }
    assert frame.canId == if Ide(m.ir) then MarkExtended(BitsId(m.ir)) else BitsId(m.ir);
    if Rtr(m.ir) {
      frame.canId := MarkRemote(frame.canId);
    }
  }

  method ReadData(m: Mailbox, d: array<bv8>)
    requires d.Length >= 8
    modifies d
    ensures d[..] == RxBytes(m.Value()) + old(d[8..])
  {
    hide Byte0, Byte1, Byte2, Byte3;
    d[0], d[1], d[2], d[3] := Byte0(m.dlr), Byte1(m.dlr), Byte2(m.dlr), Byte3(m.dlr);
    d[4], d[5], d[6], d[7] := Byte0(m.dhr), Byte1(m.dhr), Byte2(m.dhr), Byte3(m.dhr);
    assert d[8..] == old(d[8..]);
    assert d[..8] == RxBytes(m.Value());
    assert d[..] == d[..8] + d[8..];
  }

  /** `can_receive`: a pending message goes into the frame and its place in the FIFO is released. */
  method CanReceive(can: Peripheral, frame: FrameBuffer, nr: nat, now: bv32) returns (received: bool)
    requires frame.data.Length >= 8
    modifies can`rf0r, frame, frame.data
    ensures received == old(can.RxPending())
    ensures received ==> frame.Value() == RxFrame(old(frame.Value()), can.fifo.Value(), nr, now)
    ensures received ==> can.rf0r == old(can.rf0r) | 0x20
    ensures !received ==> frame.Value() == old(frame.Value()) && can.rf0r == old(can.rf0r)
  {
    hide RxId, RxBytes, DlcOf;
    if !can.RxPending() {
      return false;
    }
    frame.timestamp := now;
    ReadId(can.fifo, frame);
    frame.dlc := DlcOf(can.fifo.dtr);
    frame.channel := nr;
    frame.flags := 0;
    ReadData(can.fifo, frame.data);
    can.rf0r := can.rf0r | 0x20;
    received := true;
  }

  // ---------- round trips ----------

  lemma RegisterReads(b: bv32, extended: bool, remote: bool)
    requires IdentifierFits(b, extended)
    ensures var ir := Requested(Register(b, extended, remote));
            BitsId(ir) == b && Ide(ir) == extended && Rtr(ir) == remote
  {}

  lemma BusIdFits(id: bv32)
    ensures IdentifierFits(BusId(id), Extended(id))
  {}

  lemma IdRoundTrip(id: bv32)
    ensures RxId(TxIr(id)) == NormalisedId(id)
  {
    hide Requested, Register, Ide, Rtr, BitsId, Formatted, WithFormat, BusId, Extended, Remote;
    BusIdFits(id);
    RegisterReads(BusId(id), Extended(id), Remote(id));
    BothFlagsCopied(id, BusId(id));
  }

  lemma DlcRoundTrip(dtr: bv32, dlc: bv8)
    ensures DlcOf(WithDlc(dtr, dlc)) == dlc & 0x0F
  {}

  lemma DataRoundTrip(m: Mail, f: HostFrame)
    requires |f.data| >= 8
    ensures RxBytes(TxMail(m, f)) == f.data[..8]
  {
    var d := f.data;
    BytesOfWord(d[0], d[1], d[2], d[3]);
    BytesOfWord(d[4], d[5], d[6], d[7]);
  }

  /** What `can_send` writes, read back by `can_receive` into any buffer: the normalised identifier,
      the low four bits of the DLC and all eight data bytes. */
  lemma SendThenReceive(m: Mail, f: HostFrame, g: HostFrame, nr: nat, now: bv32)
    requires |f.data| >= 8 && |g.data| >= 8
    ensures RxFrame(g, TxMail(m, f), nr, now)
         == g.(canId := NormalisedId(f.canId), dlc := f.dlc & 0x0F, channel := nr, flags := 0, timestamp := now,
               data := f.data[..8] + g.data[8..])
  {
    IdRoundTrip(f.canId);
    DlcRoundTrip(m.dtr, f.dlc);
    DataRoundTrip(m, f);
  }

  /** The identifier bits of a standard frame that nobody reads. */
  predicate Canonical(ir: bv32) {
    Ide(ir) || ir & 0x001F_FFF8 == 0
  }

  /** Receiving a message and sending the frame gives the identifier register back, with the
      transmission request, exactly when it has no stray bits. */
  lemma IdBackIff(ir: bv32)
    ensures TxIr(RxId(ir)) == ir | 1 <==> Canonical(ir)
  {}

  lemma DlcBack(dtr: bv32, old_: bv32)
    ensures DlcOf(WithDlc(old_, DlcOf(dtr))) == DlcOf(dtr)
  {}

  /** The whole way back: data and length always, the identifier register exactly without stray bits. */
  lemma ReceiveThenSendIff(n: Mail, f: HostFrame, m: Mail, nr: nat, now: bv32)
    requires |f.data| >= 8
    ensures var t := TxMail(n, RxFrame(f, m, nr, now));
            && t.dlr == m.dlr && t.dhr == m.dhr && DlcOf(t.dtr) == DlcOf(m.dtr)
            && (t.ir == m.ir | 1 <==> Canonical(m.ir))
  {
    WordOfBytes(m.dlr);
    WordOfBytes(m.dhr);
    DlcBack(m.dtr, n.dtr);
    IdBackIff(m.ir);
    var d := RxFrame(f, m, nr, now).data;
    assert d[..8] == RxBytes(m);
    assert forall i :: 0 <= i < 8 ==> d[i] == RxBytes(m)[i];
  }

  /** Whatever is in the registers, no received frame can be taken for an error frame. */
  lemma ReceivedIsNoError(f: HostFrame, m: Mail, nr: nat, now: bv32)
    requires |f.data| >= 8
    ensures RxFrame(f, m, nr, now).canId & ERR_FLAG == 0 && RxFrame(f, m, nr, now).channel == nr
  {}
}
