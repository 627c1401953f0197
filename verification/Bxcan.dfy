/** The bxCAN driver (`src/can/bxcan.c`): error reporting, and what a host knows from the reports.
  */
module Bxcan {
  import opened GsUsb
  import opened ErrorFrames
  import Bridge

  // CAN_ESR_BOFF, CAN_ESR_EPVF, CAN_ESR_EWGF

  predicate BusOff(err: bv32) { err & 4 != 0 }

  predicate Passive(err: bv32) { err & 2 != 0 }

  predicate Warning(err: bv32) { err & 1 != 0 }

  function LecCode(err: bv32): bv32 { (err >> 4) & 7 }

  function Tec(err: bv32): bv8 { ((err >> 16) & 0xFF) as bv8 }

  function Rec(err: bv32): bv8 { ((err >> 24) & 0xFF) as bv8 }

  /** `status_is_active` */
  predicate StatusIsActive(err: bv32) {
    err & (4 | 2) == 0
  }

  // ---------- can_parse_error_status ----------

  /** The edges between two status words. In the bus-off state only bus-off itself is reported. */
  function ReportOf(last: bv32, err: bv32): Report {
    if BusOff(err) then Report(!BusOff(last), false, false, false, Nothing, 0, 0)
    else Report(false,
                !StatusIsActive(last) && StatusIsActive(err),
                Passive(err) && !Passive(last),
                !Passive(err) && Warning(err) && !Warning(last),
                LecOf(LecCode(err)), Tec(err), Rec(err))
  }

  /** The part of `can_parse_error_status` between bus-off and the last error code. */
  method ReportEdges(frame: FrameBuffer, lastErr: bv32, err: bv32, ghost f: HostFrame) returns (shouldSend: bool)
    requires frame.data.Length >= 8 && !BusOff(err) && frame.Value() == ErrorFrame(f, NO_REPORT)
    modifies frame`canId, frame.data
    ensures frame.Value() == ErrorFrame(f, ReportOf(lastErr, err).(lec := Nothing))
    ensures shouldSend == Worth(ReportOf(lastErr, err).(lec := Nothing))
  {
    hide BusOff, Passive, Warning, StatusIsActive, LecCode, Tec, Rec, ErrorId, ErrorData;
    var active := !StatusIsActive(lastErr) && StatusIsActive(err);
    ReportActive(frame, active, f, NO_REPORT);
    ghost var r := NO_REPORT.(active := active);
    PutCounters(frame, Tec(err), Rec(err), f, r);
    var level := ReportLevel(frame, Passive(lastErr), Passive(err), Warning(lastErr), Warning(err), f,
      r.(tec := Tec(err), rec := Rec(err)));
    shouldSend := active || level;
  }

  /** The part for the bus-off state. */
  method ReportBusOff(frame: FrameBuffer, lastErr: bv32, err: bv32, ghost f: HostFrame) returns (shouldSend: bool)
    requires frame.data.Length >= 8 && BusOff(err) && frame.Value() == ErrorFrame(f, NO_REPORT)
    modifies frame`canId
    ensures frame.Value() == ErrorFrame(f, ReportOf(lastErr, err)) && shouldSend == Worth(ReportOf(lastErr, err))
  {
    hide Passive, Warning, StatusIsActive, LecCode, Tec, Rec;
    shouldSend := !BusOff(lastErr);
    if shouldSend {
      BusOffBit(NO_REPORT);
      MarkId(frame, ERR_BUSOFF, f, ErrorId(NO_REPORT), ErrorData(NO_REPORT));
    }
  }

  /** `can_parse_error_status`: the frame it leaves is the error frame of the edges between the
      remembered and the new status word, worth sending exactly when there is something in it. */
  method ParseErrorStatus(channel: ErrorMemory, frame: FrameBuffer, err: bv32) returns (shouldSend: bool)
    requires frame.data.Length >= 8
    modifies channel, frame, frame.data
    ensures channel.regEsrOld == err
    ensures shouldSend == Worth(ReportOf(old(channel.regEsrOld), err))
    ensures frame.Value() == ErrorFrame(old(frame.Value()), ReportOf(old(channel.regEsrOld), err))
  {
    ghost var f := frame.Value();
    var lastErr := channel.regEsrOld;
    channel.regEsrOld := err;
    ClearError(frame);
    if BusOff(err) {
      shouldSend := ReportBusOff(frame, lastErr, err, f);
      return;
    }
    hide BusOff, Passive, Warning, StatusIsActive, LecCode, Tec, Rec, ErrorId, ErrorData;
    shouldSend := ReportEdges(frame, lastErr, err, f);
    var protocolError := ReportLec(frame, LecOf(LecCode(err)), f, ReportOf(lastErr, err).(lec := Nothing));
    shouldSend := shouldSend || protocolError;
  }

  // ---------- what the host learns ----------

  function Parse(last: bv32, err: bv32, f: HostFrame): (bool, HostFrame) {
    (Worth(ReportOf(last, err)), ErrorFrame(f, ReportOf(last, err)))
  }

  /** The driver as the buffer protocol uses it. `can_send` clears the flags; the counters are part of
      the status word. */
  const DRIVER := Bridge.Driver(
    (f: HostFrame) => f.(flags := 0),
    (last: bv32, err: bv32, ecr: bv32, f: HostFrame) => Parse(last, err, f),
    (err: bv32) => StatusIsActive(err))

  /** Whatever two status words are compared, the host that agreed with the first agrees with the
      second: this driver fits the buffer protocol. */
  lemma DriverFits()
    ensures Bridge.DriverOk(DRIVER)
  {
    forall last, err, ecr, f
      ensures Bridge.ParseOk(DRIVER, last, err, ecr, f)
    {
      HostReads(f, ReportOf(last, err), StatusIsActive(last));
      ErrorFlagged(ReportOf(last, err));
    }
  }

  /** The frame, bit by bit: ESR bit 2 is bus-off, bit 1 error passive, bit 0 the warning level, bits 4 to 6
      the last error code, the third byte the transmit and the fourth the receive error counter. In bus-off
      only the edge into it is reported. */
  lemma FrameSays(last: bv32, err: bv32, f: HostFrame)
    ensures var (send, g) := Parse(last, err, f);
            if err & 4 != 0 then
              Says(g, f, last & 4 == 0, false, false, false, 0, 0, 0) && (send <==> last & 4 == 0)
            else
              var active, passive := last & 6 != 0 && err & 6 == 0, last & 2 == 0 && err & 2 != 0;
              var warning, code := err & 2 == 0 && last & 1 == 0 && err & 1 != 0, Named((err >> 4) & 7);
              && Says(g, f, false, active, passive, warning, code,
                      ((err >> 16) & 0xFF) as bv8, ((err >> 24) & 0xFF) as bv8)
              && (send <==> active || passive || warning || code != 0)
  {
    var r := ReportOf(last, err);
    hide ErrorFrame, Says, Worth;
    ReportSays(f, r, if BusOff(err) then 0 else LecCode(err));
  }

  // ---------- how much the host knows about the state ----------

  function StateOf(err: bv32): FaultState {
    if BusOff(err) then BusOffState else if Passive(err) then ErrorPassive else ErrorActive
  }

  /** Whether a change of status is one the reports do not show: bus-off left for error passive with
      the passive flag set all along. */
  predicate Unreported(last: bv32, err: bv32) {
    BusOff(last) && Passive(last) && !BusOff(err) && Passive(err)
  }

  /** A host that knows the state of `last` knows the state of `err` exactly when the change is
      reported. */
  lemma StateKnownIff(last: bv32, err: bv32)
    ensures StateAfter(StateOf(last), ReportOf(last, err)) == StateOf(err) <==> !Unreported(last, err)
  {}

  function StateFrom(last: bv32, state: FaultState, readings: seq<bv32>): FaultState
    decreases readings
  {
    if readings == [] then state
    else StateFrom(readings[0], StateAfter(state, ReportOf(last, readings[0])), readings[1..])
  }

  /** Whether a host that did (`known`) or did not know the state of `last` knows the state after some
      readings: any reported edge tells it, and a change that is not reported makes it wrong. */
  predicate Knows(last: bv32, known: bool, readings: seq<bv32>)
    decreases readings
  {
    if readings == [] then known
    else
      var err, r := readings[0], ReportOf(last, readings[0]);
      Knows(err, r.busOff || r.passive || r.active || (known && !Unreported(last, err)), readings[1..])
  }

  function Last(last: bv32, readings: seq<bv32>): bv32 {
    if readings == [] then last else readings[|readings| - 1]
  }

  /** What a host that went wrong believes: bus-off, of a controller that is error passive. */
  predicate Wrong(last: bv32, state: FaultState) {
    StateOf(last) == ErrorPassive && state == BusOffState
  }

  lemma TrackStep(last: bv32, state: FaultState, err: bv32)
    requires state == StateOf(last) || Wrong(last, state)
    ensures var r := ReportOf(last, err); var next := StateAfter(state, r);
            if r.busOff || r.passive || r.active || (state == StateOf(last) && !Unreported(last, err))
            then next == StateOf(err) else Wrong(err, next)
  {}

  /** Over any readings: a host that knew the state at first knows it at the end exactly when every
      unreported change was followed by a reported edge. While the controller is error active it does. */
  lemma {:induction false} KnowsIff(last: bv32, state: FaultState, readings: seq<bv32>)
    requires state == StateOf(last) || Wrong(last, state)
    ensures var end := Last(last, readings); var believed := StateFrom(last, state, readings);
            && (believed == StateOf(end) <==> Knows(last, state == StateOf(last), readings))
            && (believed != StateOf(end) ==> Wrong(end, believed))
    decreases readings
  {
    if readings != [] {
      var err := readings[0];
      TrackStep(last, state, err);
      hide StateOf, ReportOf, StateAfter, Unreported, Wrong;
      KnowsIff(err, StateAfter(state, ReportOf(last, err)), readings[1..]);
    }
  }

  /** The driver relies on the controller clearing the passive flag in the bus-off state. If it does,
      the host knows all three states after any sequence of readings. */
  lemma {:induction false} StatesFollowed(last: bv32, readings: seq<bv32>)
    requires !(BusOff(last) && Passive(last))
    requires forall err :: err in readings ==> !(BusOff(err) && Passive(err))
    ensures StateFrom(last, StateOf(last), readings)
         == StateOf(if readings == [] then last else readings[|readings| - 1])
    decreases readings
  {
    if readings != [] {
      assert readings[0] in readings;
      StateKnownIff(last, readings[0]);
      StatesFollowed(readings[0], readings[1..]);
    }
  }

  /** Without that, a host can be left believing in bus-off. */
  lemma StateMissed()
    ensures StateAfter(StateOf(6), ReportOf(6, 2)) == BusOffState && StateOf(2) == ErrorPassive
  {}
}
