/** The M_CAN driver (`src/can/m_can.c`): error reporting, what a host knows from the reports,
    and the translation between host frames and FDCAN message headers.
  */
module MCan {
  import opened GsUsb
  import opened ErrorFrames
  import Bridge

  // FDCAN_PSR_BO, FDCAN_PSR_EP, FDCAN_PSR_EW

  predicate BusOff(err: bv32) { err & 0x80 != 0 }

  predicate Passive(err: bv32) { err & 0x20 != 0 }

  predicate Warning(err: bv32) { err & 0x40 != 0 }

  function LecCode(err: bv32): bv32 { err & 7 }

  function Tec(ecr: bv32): bv8 { (ecr & 0xFF) as bv8 }

  function Rec(ecr: bv32): bv8 { ((ecr & 0x7F00) >> 8) as bv8 }

  /** `status_is_active` */
  predicate StatusIsActive(err: bv32) {
    err & (0x80 | 0x20) == 0
  }

  // ---------- can_parse_error_status ----------

  /** The edges between two status words. All of them are reported in the bus-off state too. */
  function ReportOf(last: bv32, err: bv32, ecr: bv32): Report {
    Report(BusOff(err) && !BusOff(last),
           !StatusIsActive(last) && StatusIsActive(err),
           Passive(err) && !Passive(last),
           !Passive(err) && Warning(err) && !Warning(last),
           LecOf(LecCode(err)), Tec(ecr), Rec(ecr))
  }

  /** The edges to error active and to bus-off. */
  method ReportBus(frame: FrameBuffer, lastErr: bv32, err: bv32, ghost f: HostFrame)
    returns (shouldSend: bool, ghost r: Report)
    requires frame.data.Length >= 8 && frame.Value() == ErrorFrame(f, NO_REPORT)
    modifies frame`canId, frame.data
    ensures r == NO_REPORT.(active := !StatusIsActive(lastErr) && StatusIsActive(err),
                            busOff := BusOff(err) && !BusOff(lastErr))
    ensures frame.Value() == ErrorFrame(f, r) && shouldSend == Worth(r)
  {
    shouldSend := !StatusIsActive(lastErr) && StatusIsActive(err);
    ReportActive(frame, shouldSend, f, NO_REPORT);
    r := NO_REPORT.(active := shouldSend);
    if BusOff(err) {
      if !BusOff(lastErr) {
        BusOffBit(r);
        MarkId(frame, ERR_BUSOFF, f, ErrorId(r), ErrorData(r));
        r := r.(busOff := true);
        shouldSend := true;
      }
    }
  }

  /** `can_parse_error_status`: the frame it leaves is the error frame of the edges between the
      remembered and the new status word, worth sending exactly when there is something in it. */
  method ParseErrorStatus(channel: ErrorMemory, frame: FrameBuffer, err: bv32, ecr: bv32) returns (shouldSend: bool)
    requires frame.data.Length >= 8
    modifies channel, frame, frame.data
    ensures channel.regEsrOld == err
    ensures shouldSend == Worth(ReportOf(old(channel.regEsrOld), err, ecr))
    ensures frame.Value() == ErrorFrame(old(frame.Value()), ReportOf(old(channel.regEsrOld), err, ecr))
  {
    hide BusOff, Passive, Warning, StatusIsActive, LecCode, Tec, Rec, LecOf, ErrorFrame;
    ghost var f := frame.Value();
    var lastErr := channel.regEsrOld;
    channel.regEsrOld := err;
    ClearError(frame);
    ghost var r;
    shouldSend, r := ReportBus(frame, lastErr, err, f);
    PutCounters(frame, Tec(ecr), Rec(ecr), f, r);
    r := r.(tec := Tec(ecr), rec := Rec(ecr));
    var level := ReportLevel(frame, Passive(lastErr), Passive(err), Warning(lastErr), Warning(err), f, r);
    r := r.(passive := Passive(err) && !Passive(lastErr),
            warning := !Passive(err) && Warning(err) && !Warning(lastErr));
    var protocolError := ReportLec(frame, LecOf(LecCode(err)), f, r);
    shouldSend := shouldSend || level || protocolError;
  }

  // ---------- what the host learns ----------

  function Parse(last: bv32, err: bv32, ecr: bv32, f: HostFrame): (bool, HostFrame) {
    (Worth(ReportOf(last, err, ecr)), ErrorFrame(f, ReportOf(last, err, ecr)))
  }

  /** The driver as the buffer protocol uses it. `can_send` leaves the frame as it is. */
  const DRIVER := Bridge.Driver(
    (f: HostFrame) => f,
    (last: bv32, err: bv32, ecr: bv32, f: HostFrame) => Parse(last, err, ecr, f),
    (err: bv32) => StatusIsActive(err))

  lemma ActiveIs(err: bv32)
    ensures StatusIsActive(err) <==> !BusOff(err) && !Passive(err)
  {
  }

  /** Whatever two status words are compared, the host that agreed with the first agrees with the
      second. */
  lemma ParseFits(last: bv32, err: bv32, ecr: bv32, f: HostFrame)
    ensures var (send, g) := Parse(last, err, ecr, f);
            (if send then HostBelief(StatusIsActive(last), g) else StatusIsActive(last)) == StatusIsActive(err)
  {
    var r := ReportOf(last, err, ecr);
    HostReads(f, r, StatusIsActive(last));
    ActiveIs(last);
    ActiveIs(err);
  }

  /** This driver fits the buffer protocol. */
  lemma DriverFits()
    ensures Bridge.DriverOk(DRIVER)
  {
    forall last, err, ecr, f
      ensures Bridge.ParseOk(DRIVER, last, err, ecr, f)
    {
      ParseFits(last, err, ecr, f);
      ErrorFlagged(ReportOf(last, err, ecr));
    }
  }

  /** The frame, bit by bit: PSR bit 7 is bus-off, bit 6 the warning level, bit 5 error passive, bits 0 to 2
      the last error code; ECR bits 0 to 7 are the transmit and bits 8 to 14 the receive error counter. */
  lemma FrameSays(last: bv32, err: bv32, ecr: bv32, f: HostFrame)
    ensures var (send, g) := Parse(last, err, ecr, f);
            var busOff, active := last & 0x80 == 0 && err & 0x80 != 0, last & 0xA0 != 0 && err & 0xA0 == 0;
            var passive := last & 0x20 == 0 && err & 0x20 != 0;
            var warning, code := err & 0x20 == 0 && last & 0x40 == 0 && err & 0x40 != 0, Named(err & 7);
            && Says(g, f, busOff, active, passive, warning, code,
                    (ecr & 0xFF) as bv8, ((ecr >> 8) & 0x7F) as bv8)
            && (send <==> busOff || active || passive || warning || code != 0)
  {
    var r := ReportOf(last, err, ecr);
    hide ErrorFrame, Says, Worth;
    ReportSays(f, r, LecCode(err));
  }

  function StateOf(err: bv32): FaultState {
    if BusOff(err) then BusOffState else if Passive(err) then ErrorPassive else ErrorActive
  }

  /** The changes out of bus-off the reports do not show: the passive flag rises while the
      controller stays in bus-off, or bus-off is left with the passive flag set all along. */
  predicate Unreported(last: bv32, err: bv32) {
    BusOff(last) && Passive(err) && (Passive(last) <==> !BusOff(err))
  }

  /** A host that knows the state of `last` knows the state of `err` exactly when the change is
      reported. */
  lemma StateKnownIff(last: bv32, err: bv32, ecr: bv32)
    ensures StateAfter(StateOf(last), ReportOf(last, err, ecr)) == StateOf(err) <==> !Unreported(last, err)
  {}

  /** One reading of the status and of the error counters. */
  datatype Reading = Reading(err: bv32, ecr: bv32)

  function StateFrom(last: bv32, state: FaultState, readings: seq<Reading>): FaultState
    decreases readings
  {
    if readings == [] then state
    else
      var x := readings[0];
      StateFrom(x.err, StateAfter(state, ReportOf(last, x.err, x.ecr)), readings[1..])
  }

  /** Whether a host that did (`known`) or did not know the state of `last` knows the state of `err`. A
      reported edge tells it, but for the passive edge in bus-off, which misleads it; when bus-off is
      left with the passive flag set all along, a host that was right is wrong and one that was misled is
      right again. */
  predicate KnowsNext(last: bv32, known: bool, err: bv32) {
    if (!BusOff(last) && BusOff(err)) || (!StatusIsActive(last) && StatusIsActive(err)) then true
    else if !Passive(last) && Passive(err) then !BusOff(err)
    else if Unreported(last, err) then !known
    else known
  }

  predicate Knows(last: bv32, known: bool, readings: seq<Reading>)
    decreases readings
  {
    if readings == [] then known
    else Knows(readings[0].err, KnowsNext(last, known, readings[0].err), readings[1..])
  }

  function Last(last: bv32, readings: seq<Reading>): bv32 {
    if readings == [] then last else readings[|readings| - 1].err
  }

  /** What a host that went wrong believes: it takes bus-off for error passive or the reverse. */
  predicate Wrong(last: bv32, state: FaultState) {
    || (StateOf(last) == ErrorPassive && state == BusOffState)
    || (StateOf(last) == BusOffState && state == ErrorPassive)
  }

  lemma TrackStep(last: bv32, state: FaultState, err: bv32, ecr: bv32)
    requires state == StateOf(last) || Wrong(last, state)
    ensures var next := StateAfter(state, ReportOf(last, err, ecr));
            if KnowsNext(last, state == StateOf(last), err) then next == StateOf(err) else Wrong(err, next)
  {
    ActiveIs(last);
    ActiveIs(err);
    hide BusOff, Passive, StatusIsActive, Warning, LecCode, Tec, Rec;
  }

  /** Over any readings: exactly when a host that knew the state at first knows it at the end. While the
      controller is error active it always does. */
  lemma {:induction false} KnowsIff(last: bv32, state: FaultState, readings: seq<Reading>)
    requires state == StateOf(last) || Wrong(last, state)
    ensures var end := Last(last, readings); var believed := StateFrom(last, state, readings);
            && (believed == StateOf(end) <==> Knows(last, state == StateOf(last), readings))
            && (believed != StateOf(end) ==> Wrong(end, believed))
    decreases readings
  {
    if readings != [] {
      var x := readings[0];
      TrackStep(last, state, x.err, x.ecr);
      hide StateOf, ReportOf, StateAfter, KnowsNext, Wrong;
      KnowsIff(x.err, StateAfter(state, ReportOf(last, x.err, x.ecr)), readings[1..]);
    }
  }

  // ---------- message headers ----------

  /** The fields of `FDCAN_TxHeaderTypeDef` and `FDCAN_RxHeaderTypeDef` the driver uses. */
  datatype Header = Header(identifier: bv32, extended: bool, remote: bool, dataLength: bv32,
                           fd: bool, bitRateSwitch: bool, esiPassive: bool)

  function RxDlc(dataLength: bv32): bv8 {
    ((dataLength & 0x000F_0000) >> 16) as bv8
  }

  function RxFlags(fd: bool, bitRateSwitch: bool, esiPassive: bool): bv8 {
    if !fd then 0
    else
      var flags := if bitRateSwitch then FLAG_FD | FLAG_BRS else FLAG_FD;
      if esiPassive then flags | FLAG_ESI else flags
  }

  /** The header `can_send` builds. */
  function TxHeader(f: HostFrame): Header {
    var fd := f.flags & FLAG_FD != 0;
    Header(BusId(f.canId), Extended(f.canId), Remote(f.canId), (f.dlc as bv32) << 16,
           fd, fd && f.flags & FLAG_BRS != 0, fd && f.flags & FLAG_ESI != 0)
  }

  /** What `can_receive` makes of a header, in a buffer that held `f`. */
  function RxFrame(f: HostFrame, h: Header, nr: nat, now: bv32): HostFrame {
    f.(canId := Formatted(h.identifier, h.extended, h.remote), dlc := RxDlc(h.dataLength), channel := nr,
       flags := RxFlags(h.fd, h.bitRateSwitch, h.esiPassive), timestamp := now)
  }

  /** `can_receive`, the message having been read. */
  method CanReceive(frame: FrameBuffer, h: Header, nr: nat, now: bv32)
    modifies frame
    ensures frame.Value() == RxFrame(old(frame.Value()), h, nr, now)
  {
    hide MarkExtended, MarkRemote, RxDlc;
    frame.channel := nr;
    frame.flags := 0;
    frame.canId := h.identifier;
    if h.extended {
      frame.canId := MarkExtended(frame.canId);
    }
    if h.remote {
      frame.canId := MarkRemote(frame.canId);
    }
    assert frame.canId == Formatted(h.identifier, h.extended, h.remote);
    frame.dlc := RxDlc(h.dataLength);
    if h.fd {
      frame.timestamp := now;
      frame.flags := FLAG_FD;
      if h.bitRateSwitch {
        frame.flags := frame.flags | FLAG_BRS;
      }
      if h.esiPassive {
        frame.flags := frame.flags | FLAG_ESI;
      }
    } else {
      frame.timestamp := now;
    }
    assert frame.flags == RxFlags(h.fd, h.bitRateSwitch, h.esiPassive);
  }

  /** The headers a controller can deliver: 29 or 11 identifier bits, and the FD flags only on an FD frame. */
  predicate OnTheWire(h: Header) {
    && IdentifierFits(h.identifier, h.extended)
    && h.dataLength & 0xFFF0_FFFF == 0
    && (!h.fd ==> !h.bitRateSwitch && !h.esiPassive)
  }

  lemma IdRoundTrip(id: bv32)
    ensures Formatted(BusId(id), Extended(id), Remote(id)) == NormalisedId(id)
  {
    BothFlagsCopied(id, BusId(id));
  }

  lemma DlcRoundTrip(dlc: bv8)
    ensures RxDlc((dlc as bv32) << 16) == dlc & 0x0F
  {}

  lemma FlagsRoundTrip(flags: bv8)
    ensures var fd := flags & FLAG_FD != 0;
            RxFlags(fd, fd && flags & FLAG_BRS != 0, fd && flags & FLAG_ESI != 0)
            == if fd then flags & (FLAG_FD | FLAG_BRS | FLAG_ESI) else 0
  {}

  /** Sending a frame and receiving it, into any buffer, gives the normalised identifier, the four
      DLC bits and the FD flags of an FD frame. */
  lemma SendThenReceive(f: HostFrame, g: HostFrame, nr: nat, now: bv32)
    ensures RxFrame(g, TxHeader(f), nr, now)
         == g.(canId := NormalisedId(f.canId), dlc := f.dlc & 0x0F, channel := nr, timestamp := now,
               flags := if f.flags & FLAG_FD != 0 then f.flags & (FLAG_FD | FLAG_BRS | FLAG_ESI) else 0)
  {
    IdRoundTrip(f.canId);
    DlcRoundTrip(f.dlc);
    FlagsRoundTrip(f.flags);
  }

  lemma IdBack(identifier: bv32, extended: bool, remote: bool)
    requires IdentifierFits(identifier, extended)
    ensures var id := Formatted(identifier, extended, remote);
            BusId(id) == identifier && Extended(id) == extended && Remote(id) == remote && id & ERR_FLAG == 0
  {}

  lemma FlagsBack(fd: bool, bitRateSwitch: bool, esiPassive: bool)
    requires !fd ==> !bitRateSwitch && !esiPassive
    ensures var flags := RxFlags(fd, bitRateSwitch, esiPassive);
            && (flags & FLAG_FD != 0 <==> fd)
            && (flags & FLAG_BRS != 0 <==> bitRateSwitch)
            && (flags & FLAG_ESI != 0 <==> esiPassive)
  {}

  lemma DlcBack(dataLength: bv32)
    requires dataLength & 0xFFF0_FFFF == 0
    ensures (RxDlc(dataLength) as bv32) << 16 == dataLength
  {}

  /** Receiving a message and sending the frame gives the message header back. */
  lemma ReceiveThenSend(f: HostFrame, h: Header, nr: nat, now: bv32)
    requires OnTheWire(h)
    ensures TxHeader(RxFrame(f, h, nr, now)) == h
  {
    IdBack(h.identifier, h.extended, h.remote);
    FlagsBack(h.fd, h.bitRateSwitch, h.esiPassive);
    DlcBack(h.dataLength);
  }

  /** No received frame can be taken for an error frame, and it belongs to its channel: what the
      buffer protocol asks of `can_receive`. */
  lemma ReceivedIsNoError(f: HostFrame, h: Header, nr: nat, now: bv32)
    requires OnTheWire(h)
    ensures RxFrame(f, h, nr, now).canId & ERR_FLAG == 0 && RxFrame(f, h, nr, now).channel == nr
  {
    IdBack(h.identifier, h.extended, h.remote);
  }
}
