/** What becomes of the messages on the CAN bus: each one that is read goes to the host once, in order,
    as it was on the bus, in a frame of its channel that is no echo and no error frame.
  */
module BridgeReceive {
  import opened GsUsb
  import opened Wrappers
  import opened Bridge
  import opened BridgeStreams
  import opened BridgeChannels
  import opened BridgeRuns
  import opened BridgeTheorems

  // ---------- the stream of received messages ----------

  predicate IsReceived(f: HostFrame) {
    f.echoId == NOT_ECHO && f.canId & ERR_FLAG == 0
  }

  /** The messages a host hears of on a channel. */
  function Heard(ch: nat, fs: seq<HostFrame>): seq<BusMessage> {
    if fs == [] then [] else HeardIn(ch, fs[0]) + Heard(ch, fs[1..])
  }

  function HeardIn(ch: nat, f: HostFrame): seq<BusMessage> {
    if f.channel == ch && IsReceived(f) then [OnBus(f)] else []
  }

  /** The messages read on a channel. */
  function ReadOn(ch: nat, rs: seq<Reception>): seq<BusMessage> {
    if rs == [] then [] else ReadIn(ch, rs[0]) + ReadOn(ch, rs[1..])
  }

  function ReadIn(ch: nat, r: Reception): seq<BusMessage> {
    if r.ch == ch then [r.message] else []
  }

  /** A message that has been read but is not queued yet. */
  function InReceipt(s: Core): seq<HostFrame> {
    if s.pc.at.RxQueue? then HeldFrame(s) else []
  }

  lemma {:induction false} HeardJoin(ch: nat, fs: seq<HostFrame>, gs: seq<HostFrame>)
    ensures Heard(ch, fs + gs) == Heard(ch, fs) + Heard(ch, gs)
  {
    if fs == [] {
      assert fs + gs == gs;
    } else {
      hide HeardIn;
      HeardJoin(ch, fs[1..], gs);
      assert (fs + gs)[1..] == fs[1..] + gs && (fs + gs)[0] == fs[0];
      Associative(HeardIn(ch, fs[0]), Heard(ch, fs[1..]), Heard(ch, gs));
    }
  }

  lemma {:induction false} ReadJoin(ch: nat, rs: seq<Reception>, qs: seq<Reception>)
    ensures ReadOn(ch, rs + qs) == ReadOn(ch, rs) + ReadOn(ch, qs)
  {
    if rs == [] {
      assert rs + qs == qs;
    } else {
      hide ReadIn;
      ReadJoin(ch, rs[1..], qs);
      assert (rs + qs)[1..] == rs[1..] + qs && (rs + qs)[0] == rs[0];
      Associative(ReadIn(ch, rs[0]), ReadOn(ch, rs[1..]), ReadOn(ch, qs));
    }
  }

  lemma HeardOne(ch: nat, f: HostFrame)
    ensures Heard(ch, [f]) == HeardIn(ch, f)
  {
    assert HeardIn(ch, f) + [] == HeardIn(ch, f);
  }

  // ---------- one step ----------

  /** In one step: what was in receipt and what is read are what is queued and what is in receipt. */
  ghost predicate ReceiptBalanced(s: Core, t: Core, e: Event, ch: nat) {
    Heard(ch, InReceipt(s)) + ReadOn(ch, ReadBy(s, e)) == Heard(ch, GeneratedBy(s, e)) + Heard(ch, InReceipt(t))
  }

  /** Nothing is in receipt before or after, nothing is read, and what is queued is no message. */
  lemma NothingReceived(s: Core, t: Core, e: Event, ch: nat)
    requires InReceipt(s) == [] && InReceipt(t) == [] && ReadBy(s, e) == []
    requires Heard(ch, GeneratedBy(s, e)) == []
    ensures ReceiptBalanced(s, t, e, ch)
  {}

  /** The frame of an echo or of an error is no message. */
  lemma NoMessage(s: Core, a: Answer, ch: nat)
    requires HeldTagged(s, true) && !s.pc.at.RxQueue?
    ensures Heard(ch, GeneratedBy(s, Loop(a))) == []
  {
    if Queueing(s.pc.at) && s.pc.held.Some? {
      HeldFrameIs(s);
      HeardOne(ch, FrameAt(s.store, s.pc.held.value));
    }
  }

  lemma ReadRxReceives(cfg: Config, s: Core, a: Answer, ch: nat)
    requires s.pc.at.RxRead? && s.pc.held.Some? && s.pc.held.value < |s.store| && Enabled(cfg, s, Loop(a))
    ensures ReceiptBalanced(s, ReadRx(s, a), Loop(a), ch)
  {
    var t := ReadRx(s, a);
    if a.rx.Some? {
      var f := t.store[s.pc.held.value];
      assert InReceipt(t) == [f] && ReadBy(s, Loop(a)) == [Reception(s.pc.ch, OnBus(a.rx.value))];
      HeardOne(ch, f);
    }
  }

  lemma QueueReceives(s: Core, a: Answer, next: Pc, ch: nat)
    requires s.pc.at.RxQueue? && s.pc.held.Some? && !next.at.RxQueue?
    ensures ReceiptBalanced(s, QueueHeld(s, next), Loop(a), ch)
  {}

  // Only reading ends with a message in hand, and what is in hand is queued next.

  predicate EmptyHanded(t: Core) {
    !t.pc.at.RxQueue?
  }

  lemma EmptyHandedIs(t: Core)
    requires EmptyHanded(t)
    ensures InReceipt(t) == []
  {}

  lemma SendEmptyHanded(cfg: Config, s: Core, a: Answer)
    requires WellFormed(cfg, s) && InSend(s.pc.at)
    ensures EmptyHanded(SendSection(cfg, s, a))
  {
    HeldInRange(cfg.buffers, s);
    hide Conserved;
    match s.pc.at
    case SendTake => assert SendSection(cfg, s, a) == TakeToSend(cfg, s);
    case SendTry => assert SendSection(cfg, s, a) == TrySend(cfg, s, a);
    case SendBack => assert SendSection(cfg, s, a) == PutBack(cfg, s);
    case SendEcho => assert SendSection(cfg, s, a) == QueueHeld(s, AfterSend(cfg, s.pc.ch));
  }

  lemma UsbEmptyHanded(cfg: Config, s: Core)
    requires WellFormed(cfg, s) && InUsb(s.pc.at)
    ensures EmptyHanded(UsbSection(cfg, s))
  {
    hide Conserved;
  }

  lemma PiecesEmptyHanded(s: Core, p: Point, next: Pc, a: Answer, cfg: Config)
    requires !p.RxQueue? && !next.at.RxQueue?
    ensures EmptyHanded(CheckRx(s, a)) && EmptyHanded(CheckErr(cfg, s, a)) && EmptyHanded(PoolTake(s, p, next))
    ensures s.pc.held.Some? ==> EmptyHanded(PoolReturn(s, next)) && EmptyHanded(QueueHeld(s, next))
  {}

  lemma ReceiveEmptyHanded(cfg: Config, s: Core, a: Answer)
    requires WellFormed(cfg, s) && InReceive(s.pc.at) && !s.pc.at.RxRead?
    ensures EmptyHanded(ReceiveSection(cfg, s, a))
  {
    PiecesEmptyHanded(s, RxRead, At(ErrCheck, s.pc.ch), a, cfg);
    hide Conserved, EmptyHanded, CheckRx, PoolTake, PoolReturn, QueueHeld;
  }

  lemma ParseEmptyHanded(cfg: Config, s: Core, a: Answer)
    requires s.pc.held.Some? && s.pc.held.value < |s.store| && s.pc.ch < |s.errOld|
    ensures EmptyHanded(ParseErr(cfg, s, a))
  {}

  lemma ErrorEmptyHanded(cfg: Config, s: Core, a: Answer)
    requires WellFormed(cfg, s) && InError(s.pc.at)
    ensures EmptyHanded(ErrorSection(cfg, s, a))
  {
    HeldInRange(cfg.buffers, s);
    PiecesEmptyHanded(s, ErrParse, AfterError(cfg, s.pc.ch), a, cfg);
    if s.pc.held.Some? { ParseEmptyHanded(cfg, s, a); }
    hide Conserved, EmptyHanded, CheckErr, PoolTake, PoolReturn, QueueHeld, ParseErr;
  }

  lemma ReceiveReceives(cfg: Config, s: Core, a: Answer, ch: nat)
    requires WellFormed(cfg, s) && Enabled(cfg, s, Loop(a)) && InReceive(s.pc.at)
    ensures ReceiptBalanced(s, ReceiveSection(cfg, s, a), Loop(a), ch)
  {
    HeldInRange(cfg.buffers, s);
    hide Conserved, ReceiptBalanced, ReadRx, QueueHeld, HeldFrame;
    if s.pc.at.RxRead? {
      ReadRxReceives(cfg, s, a, ch);
    } else if s.pc.at.RxQueue? {
      QueueReceives(s, a, At(ErrCheck, s.pc.ch), ch);
    } else {
      ReceiveEmptyHanded(cfg, s, a);
      hide ReceiveSection;
      EmptyHandedIs(ReceiveSection(cfg, s, a));
      NothingReceived(s, ReceiveSection(cfg, s, a), Loop(a), ch);
    }
  }

  /** Away from `CAN_ReceiveFrame` nothing is read. */
  lemma AwayReceives(s: Core, t: Core, a: Answer, ch: nat)
    requires HeldTagged(s, true) && !InReceive(s.pc.at) && EmptyHanded(t)
    ensures ReceiptBalanced(s, t, Loop(a), ch)
  {
    EmptyHandedIs(s);
    EmptyHandedIs(t);
    NoMessage(s, a, ch);
    NothingReceived(s, t, Loop(a), ch);
  }

  lemma LoopReceives(cfg: Config, s: Core, a: Answer, ch: nat)
    requires WellFormed(cfg, s) && Enabled(cfg, s, Loop(a)) && Tagged(s, true)
    ensures ReceiptBalanced(s, LoopStep(cfg, s, a), Loop(a), ch)
  {
    hide WellFormed, HeldTagged, ReceiptBalanced, SendSection, UsbSection, ReceiveSection, ErrorSection;
    hide EmptyHanded;
    if InReceive(s.pc.at) {
      ReceiveReceives(cfg, s, a, ch);
    } else if InSend(s.pc.at) {
      SendEmptyHanded(cfg, s, a);
      AwayReceives(s, SendSection(cfg, s, a), a, ch);
    } else if InUsb(s.pc.at) {
      UsbEmptyHanded(cfg, s);
      AwayReceives(s, UsbSection(cfg, s), a, ch);
    } else {
      ErrorEmptyHanded(cfg, s, a);
      AwayReceives(s, ErrorSection(cfg, s, a), a, ch);
    }
  }

  /** The callbacks leave what is in hand alone and queue nothing. */
  lemma CallbackReceives(s: Core, t: Core, e: Event, ch: nat)
    requires !e.Loop? && t.pc == s.pc && HeldFrame(t) == HeldFrame(s)
    ensures ReceiptBalanced(s, t, e, ch)
  {}

  lemma DataOutReceives(cfg: Config, s: Core, f: HostFrame, rxlen: nat)
    requires WellFormed(cfg, s) && Tagged(s, true) && s.fromHostBuf.Some? && s.fromHostBuf.value < |s.store|
    ensures var t := ReceiveOut(cfg, s, f, rxlen); t.pc == s.pc && HeldFrame(t) == HeldFrame(s)
  {
    WriteOutTagged(cfg.buffers, s, f, true);
    hide WellFormed, Conserved;
  }

  /** The received messages are a stream of their own: what a step reads joins it at the back, what it
      queues for the host leaves it at the front. */
  lemma ReceptionLaw(cfg: Config, s: Core, e: Event, ch: nat)
    requires WellFormed(cfg, s) && Enabled(cfg, s, e) && Tagged(s, true)
    ensures ReceiptBalanced(s, Step(cfg, s, e), e, ch)
  {
    HeldInRange(cfg.buffers, s);
    hide Tagged, Conserved, ReceiptBalanced, LoopStep, ReceiveOut;
    match e
    case Loop(a) => LoopReceives(cfg, s, a, ch);
    case DataIn => CallbackReceives(s, CompleteIn(s), e, ch);
    case DataOut(f, rxlen) =>
      DataOutReceives(cfg, s, f, rxlen);
      CallbackReceives(s, ReceiveOut(cfg, s, f, rxlen), e, ch);
    case Suspend => CallbackReceives(s, s.(suspended := true), e, ch);
    case Resume => CallbackReceives(s, s.(suspended := false), e, ch);
    case Configure => CallbackReceives(s, s.(configured := true), e, ch);
  }

  // ---------- every run ----------

  ghost predicate ReceiptHolds(r: Run, ch: nat) {
    Polite(r) ==> ReadOn(ch, r.past.read) == Heard(ch, r.past.generated) + Heard(ch, InReceipt(r.core))
  }

  lemma ReceiptStep(cfg: Config, r: Run, e: Event, ch: nat)
    requires WellFormed(cfg, r.core) && Holds(cfg, r) && ReceiptHolds(r, ch)
    ensures ReceiptHolds(Advance(cfg, r, e), ch)
  {
    if Enabled(cfg, r.core, e) && Polite(Advance(cfg, r, e)) {
      var s, t, h := r.core, Step(cfg, r.core, e), r.past;
      assert Polite(r);
      hide Tagged, WellFormed, Conserved;
      ReceptionLaw(cfg, s, e, ch);
      ReadJoin(ch, h.read, ReadBy(s, e));
      HeardJoin(ch, h.generated, GeneratedBy(s, e));
      Associative(Heard(ch, h.generated), Heard(ch, InReceipt(s)), ReadOn(ch, ReadBy(s, e)));
      Associative(Heard(ch, h.generated), Heard(ch, GeneratedBy(s, e)), Heard(ch, InReceipt(t)));
    }
  }

  lemma {:induction false} ReceiptRun(cfg: Config, r: Run, es: seq<Event>, ch: nat)
    requires DriverOk(cfg.driver) && WellFormed(cfg, r.core) && Holds(cfg, r) && ReceiptHolds(r, ch)
    ensures ReceiptHolds(RunFrom(cfg, r, es), ch)
    decreases es
  {
    if es != [] {
      AdvanceKeepsWellFormed(cfg, r, es[0]);
      AdvanceHolds(cfg, r, es[0]);
      ReceiptStep(cfg, r, es[0], ch);
      hide Holds, WellFormed, Advance, ReceiptHolds;
      ReceiptRun(cfg, Advance(cfg, r, es[0]), es[1..], ch);
    }
  }

  /** In every run with a host that keeps to the protocol, the messages read on a channel are exactly
      the messages of its non-echo, non-error frames that left for the host, are in `to_host_buf`, in
      `list_to_host` or about to be queued: each once, in order, unchanged. */
  lemma ReceivedOnceInOrder(cfg: Config, store: seq<HostFrame>, es: seq<Event>, ch: nat)
    requires DriverOk(cfg.driver) && |store| == cfg.buffers && Polite(RunOf(cfg, store, es))
    ensures var r := RunOf(cfg, store, es);
            ReadOn(ch, r.past.read)
            == Heard(ch, Frames(r.past.left))
             + Heard(ch, Content(r.core.store, r.core.toHostBuf))
             + Heard(ch, Contents(r.core.store, r.core.toHost))
             + Heard(ch, InReceipt(r.core))
  {
    var r := RunOf(cfg, store, es);
    var s := r.core;
    StartHolds(cfg, store);
    ReceiptRun(cfg, Start(cfg, store), es, ch);
    OutgoingIsFifo(cfg, store, es);
    var left, buf, queue := Frames(r.past.left), Content(s.store, s.toHostBuf), Contents(s.store, s.toHost);
    HeardJoin(ch, left + buf, queue);
    HeardJoin(ch, left, buf);
  }
}
