/** What becomes of one message: from the check for a received message, through any callbacks between
    the sections of `CAN_ReceiveFrame`, to the frame queued for the host; and from the head of a channel
    queue through `CAN_SendFrame` to its echo.
  */
module BridgeMessages {
  import opened GsUsb
  import opened Wrappers
  import opened Bridge
  import opened BridgeStreams
  import opened BridgeRuns
  import opened BridgeReports
  import Bxcan
  import MCan

  // ---------- the sections of CAN_ReceiveFrame ----------

  /** The checking section. */
  lemma CheckSection(cfg: Config, r: Run, e: Event)
    requires WellFormed(cfg, r.core) && r.core.pc.at.RxCheck? && Section(e)
    ensures var next := if e.a.rxPending then RxTake else ErrCheck;
            Advance(cfg, r, e) == Run(r.core.(pc := At(next, r.core.pc.ch)), r.past)
  {
    PastStays(cfg, r, e);
    hide Conserved, TransfersOk;
  }

  /** Taking a buffer. */
  lemma RxTakeSection(cfg: Config, r: Run, e: Event)
    requires WellFormed(cfg, r.core) && r.core.pc.at.RxTake? && Section(e)
    ensures var s, q := r.core, Advance(cfg, r, e);
            && q.past == r.past
            && if s.pool == [] then q.core == s.(pc := At(ErrCheck, s.pc.ch))
               else q.core.pc == s.pc.(at := RxRead, held := Some(s.pool[0])) && q.core.errOld == s.errOld
  {
    PastStays(cfg, r, e);
    hide Conserved, TransfersOk;
  }

  /** Reading the message. */
  lemma ReadSection(cfg: Config, r: Run, e: Event)
    requires WellFormed(cfg, r.core) && r.core.pc.at.RxRead? && Section(e)
    ensures r.core.pc.held.Some?
    ensures var s, q := r.core, Advance(cfg, r, e); var ch := s.pc.ch;
            && q.past.generated == r.past.generated && q.past.bus == r.past.bus
            && q.core.pc == s.pc.(at := if e.a.rx.Some? then RxQueue else RxBack)
            && (e.a.rx.None? ==> q.past.read == r.past.read)
            && (e.a.rx.Some? ==>
                  var m := e.a.rx.value;
                  && q.past.read == r.past.read + [Reception(ch, OnBus(m))]
                  && FrameAt(q.core.store, s.pc.held.value)
                     == HostFrame(NOT_ECHO, m.canId, m.dlc, ch, m.flags, 0, m.data, m.timestamp))
  {
    HeldInRange(cfg.buffers, r.core);
    hide Conserved, TransfersOk;
    assert InReceive(r.core.pc.at) && ReceiveSection(cfg, r.core, e.a) == ReadRx(r.core, e.a);
  }

  /** Queueing the frame, or giving the buffer back. */
  lemma RxPutSection(cfg: Config, r: Run, e: Event)
    requires WellFormed(cfg, r.core) && (r.core.pc.at.RxQueue? || r.core.pc.at.RxBack?) && Section(e)
    ensures r.core.pc.held.Some?
    ensures var s, q := r.core, Advance(cfg, r, e); var x := s.pc.held.value;
            && q.past.read == r.past.read && q.core.pc == At(ErrCheck, s.pc.ch)
            && if s.pc.at.RxQueue?
               then q.past.generated == r.past.generated + [FrameAt(s.store, x)] && q.core.toHost == s.toHost + [x]
               else q.past.generated == r.past.generated && q.core.pool == s.pool + [x]
  {
    hide Conserved, TransfersOk;
    assert InReceive(r.core.pc.at);
  }

  // ---------- one received message ----------

  /** The four sections of `CAN_ReceiveFrame`, with callbacks between them. */
  datatype Receipt = Receipt(check: Event, es: seq<Event>, take: Event, fs: seq<Event>, read: Event, gs: seq<Event>,
                             put: Event)

  predicate ReceiptOk(p: Receipt) {
    && Section(p.check) && Section(p.take) && Section(p.read) && Section(p.put)
    && Callbacks(p.es) && Callbacks(p.fs) && Callbacks(p.gs)
  }

  function Checked(cfg: Config, r: Run, p: Receipt): (q: Run)
    requires WellFormed(cfg, r.core)
    ensures WellFormed(cfg, q.core)
  {
    RunFrom(cfg, r, [p.check] + p.es)
  }

  function Received(cfg: Config, r: Run, p: Receipt): (q: Run)
    requires WellFormed(cfg, r.core)
    ensures WellFormed(cfg, q.core)
  {
    RunFrom(cfg, Checked(cfg, r, p), ([p.take] + p.fs) + (([p.read] + p.gs) + [p.put]))
  }

  /** With a message pending and a buffer in the pool when one is looked for, the message is read, and
      exactly one frame is queued for the host: a non-echo frame of this channel with its identifier, DLC,
      data, flags and timestamp. If the controller has none after all, the buffer goes back. */
  lemma MessageReceived(cfg: Config, r: Run, p: Receipt)
    requires WellFormed(cfg, r.core) && r.core.pc.at.RxCheck? && ReceiptOk(p) && p.check.a.rxPending
    requires Checked(cfg, r, p).core.pool != []
    ensures var q, ch := Received(cfg, r, p), r.core.pc.ch;
            && q.core.pc == At(ErrCheck, ch)
            && match p.read.a.rx
               case Some(m) =>
                 && q.past.read == r.past.read
                   + [Reception(ch, BusMessage(m.canId, m.dlc, m.data, m.flags, m.timestamp))]
                 && q.past.generated
                    == r.past.generated + [HostFrame(NOT_ECHO, m.canId, m.dlc, ch, m.flags, 0, m.data, m.timestamp)]
               case None => q.past.read == r.past.read && q.past.generated == r.past.generated
  {
    CheckSection(cfg, r, p.check);
    ThenCallbacks(cfg, r, p.check, p.es);
    var r1 := Checked(cfg, r, p);
    hide WellFormed, Advance;
    RxTakeSection(cfg, r1, p.take);
    ThenCallbacks(cfg, r1, p.take, p.fs);
    var r2 := RunFrom(cfg, r1, [p.take] + p.fs);
    ReadSection(cfg, r2, p.read);
    ThenCallbacks(cfg, r2, p.read, p.gs);
    var r3 := RunFrom(cfg, r2, [p.read] + p.gs);
    RxPutSection(cfg, r3, p.put);
    ThenCallbacks(cfg, r3, p.put, []);
    assert [p.put] + [] == [p.put];
    RunJoin(cfg, r1, [p.take] + p.fs, ([p.read] + p.gs) + [p.put]);
    RunJoin(cfg, r2, [p.read] + p.gs, [p.put]);
  }

  /** Without a message pending nothing is taken, and without a buffer nothing is read: the message stays
      in the controller. */
  lemma NothingReceived(cfg: Config, r: Run, p: Receipt)
    requires WellFormed(cfg, r.core) && r.core.pc.at.RxCheck? && ReceiptOk(p)
    ensures !p.check.a.rxPending ==> Advance(cfg, r, p.check) == Run(r.core.(pc := At(ErrCheck, r.core.pc.ch)), r.past)
    ensures var q := Checked(cfg, r, p);
            p.check.a.rxPending && q.core.pool == [] ==>
              && Advance(cfg, q, p.take) == Run(q.core.(pc := At(ErrCheck, r.core.pc.ch)), q.past)
              && q.past.read == r.past.read && q.past.generated == r.past.generated
  {
    CheckSection(cfg, r, p.check);
    ThenCallbacks(cfg, r, p.check, p.es);
    hide WellFormed, Advance;
    var q := Checked(cfg, r, p);
    if p.check.a.rxPending {
      RxTakeSection(cfg, q, p.take);
    }
  }

  // ---------- the sections of CAN_SendFrame ----------

  lemma SendTakeSection(cfg: Config, r: Run, e: Event)
    requires WellFormed(cfg, r.core) && r.core.pc.at.SendTake? && Section(e) && r.core.fromHost[r.core.pc.ch] != []
    ensures var s, q := r.core, Advance(cfg, r, e); var x := s.fromHost[s.pc.ch][0];
            && q.past == r.past && q.core.pc == s.pc.(at := SendTry, held := Some(x)) && q.core.store == s.store
  {
    PastStays(cfg, r, e);
    hide Conserved, TransfersOk;
    assert SendSection(cfg, r.core, e.a) == TakeToSend(cfg, r.core);
  }

  /** The frame after `can_send` took `f`. */
  function Echo(cfg: Config, f: HostFrame, now: bv32): HostFrame {
    HostFrame(f.echoId, f.canId, f.dlc, f.channel, cfg.driver.sent(f).flags, 0, f.data, now)
  }

  /** With either driver only the time, the reserved byte and, with bxCAN, the flags differ from the frame
      that was sent. */
  lemma EchoIs(cfg: Config, f: HostFrame, now: bv32)
    ensures cfg.driver == Bxcan.DRIVER ==> Echo(cfg, f, now) == f.(flags := 0, reserved := 0, timestamp := now)
    ensures cfg.driver == MCan.DRIVER ==> Echo(cfg, f, now) == f.(reserved := 0, timestamp := now)
  {}

  lemma SendTrySection(cfg: Config, r: Run, e: Event)
    requires DriverOk(cfg.driver) && WellFormed(cfg, r.core) && r.core.pc.at.SendTry? && Section(e)
    ensures r.core.pc.held.Some?
    ensures var s, q := r.core, Advance(cfg, r, e); var f := FrameAt(s.store, s.pc.held.value);
            && q.past.generated == r.past.generated
            && q.core.pc == s.pc.(at := if e.a.mailboxFree then SendEcho else SendBack)
            && q.past.bus == r.past.bus + (if e.a.mailboxFree then [f] else [])
            && FrameAt(q.core.store, s.pc.held.value) == if e.a.mailboxFree then Echo(cfg, f, e.a.now) else f
  {
    var s := r.core;
    HeldInRange(cfg.buffers, s);
    var f := FrameAt(s.store, s.pc.held.value);
    assert MessageOf(cfg.driver.sent(f)) == MessageOf(f);
    hide Conserved, TransfersOk, DriverOk;
    assert SendSection(cfg, s, e.a) == TrySend(cfg, s, e.a);
  }

  lemma SendPutSection(cfg: Config, r: Run, e: Event)
    requires WellFormed(cfg, r.core) && (r.core.pc.at.SendEcho? || r.core.pc.at.SendBack?) && Section(e)
    ensures r.core.pc.held.Some?
    ensures var s, q := r.core, Advance(cfg, r, e); var x := s.pc.held.value;
            && q.past.bus == r.past.bus && q.core.pc == AfterSend(cfg, s.pc.ch) && q.core.store == s.store
            && if s.pc.at.SendEcho?
               then q.past.generated == r.past.generated + [FrameAt(s.store, x)] && q.core.toHost == s.toHost + [x]
               else
                 && q.past.generated == r.past.generated
                 && q.core.fromHost == s.fromHost[s.pc.ch := [x] + s.fromHost[s.pc.ch]]
  {
    var s := r.core;
    hide Conserved, TransfersOk;
    assert InSend(s.pc.at);
    assert s.pc.at.SendBack? ==> SendSection(cfg, s, e.a) == PutBack(cfg, s);
    assert s.pc.at.SendEcho? ==> SendSection(cfg, s, e.a) == QueueHeld(s, AfterSend(cfg, s.pc.ch));
  }

  // ---------- one frame to send ----------

  /** The three sections of `CAN_SendFrame`, with callbacks between them. */
  datatype Sending = Sending(take: Event, es: seq<Event>, try: Event, fs: seq<Event>, put: Event)

  predicate SendingOk(p: Sending) {
    Section(p.take) && Callbacks(p.es) && Section(p.try) && Callbacks(p.fs) && Section(p.put)
  }

  function Handled(cfg: Config, r: Run, p: Sending): (q: Run)
    requires WellFormed(cfg, r.core)
    ensures WellFormed(cfg, q.core)
  {
    RunFrom(cfg, r, ([p.take] + p.es) + (([p.try] + p.fs) + [p.put]))
  }

  /** The first frame of the channel queue. If the controller takes it, it goes to the bus as the host sent
      it, and exactly its echo is queued for the host, with the time and a zero reserved byte; if not, it is
      the first of its queue again, unchanged, whatever the host has sent meanwhile. */
  lemma FrameSent(cfg: Config, r: Run, p: Sending)
    requires DriverOk(cfg.driver) && WellFormed(cfg, r.core) && r.core.pc.at.SendTake? && SendingOk(p)
    requires r.core.fromHost[r.core.pc.ch] != []
    ensures var s, q := r.core, Handled(cfg, r, p); var ch := s.pc.ch; var x := s.fromHost[ch][0];
            var f := FrameAt(s.store, x);
            && q.core.pc == AfterSend(cfg, ch)
            && if p.try.a.mailboxFree
               then q.past.bus == r.past.bus + [f] && q.past.generated == r.past.generated + [Echo(cfg, f, p.try.a.now)]
               else
                 && q.past.bus == r.past.bus && q.past.generated == r.past.generated
                 && q.core.fromHost[ch] != [] && q.core.fromHost[ch][0] == x && FrameAt(q.core.store, x) == f
  {
    SendTakeSection(cfg, r, p.take);
    ThenCallbacks(cfg, r, p.take, p.es);
    var r1 := RunFrom(cfg, r, [p.take] + p.es);
    assert Advance(cfg, r, p.take).core.store == r.core.store;
    hide Advance;
    SendTrySection(cfg, r1, p.try);
    ThenCallbacks(cfg, r1, p.try, p.fs);
    var r2 := RunFrom(cfg, r1, [p.try] + p.fs);
    SendPutSection(cfg, r2, p.put);
    ThenCallbacks(cfg, r2, p.put, []);
    assert [p.put] + [] == [p.put];
    RunJoin(cfg, r, [p.take] + p.es, ([p.try] + p.fs) + [p.put]);
    RunJoin(cfg, r1, [p.try] + p.fs, [p.put]);
  }

  // ---------- one frame from the host ----------

  /** A host frame joins its channel, and the accepted frames, exactly when the channel exists and the whole
      frame arrived: header and data, as long as the device itself would send it back. The next OUT transfer
      then needs the next buffer of the pool. Otherwise no queue changes and the same buffer stays armed. */
  lemma HostFrameTakenIff(cfg: Config, r: Run, f: HostFrame, rxlen: nat)
    requires WellFormed(cfg, r.core) && r.core.outArmed && r.core.configured
    ensures r.core.fromHostBuf.Some? && r.core.fromHostBuf.value < cfg.buffers
    ensures var s, q := r.core, Advance(cfg, r, DataOut(f, rxlen)); var x, t := s.fromHostBuf.value, q.core;
            && t == s.(store := t.store, fromHost := t.fromHost, pool := t.pool, fromHostBuf := t.fromHostBuf,
                       outArmed := t.outArmed)
            && q.past == r.past.(accepted := q.past.accepted)
            && t.store == s.store[x := f]
            && if f.channel < cfg.channels && rxlen >= PacketLength(cfg.canfd, false, f)
               then
                 && q.past.accepted == r.past.accepted + [f]
                 && t.fromHost == s.fromHost[f.channel := s.fromHost[f.channel] + [x]]
                 && (if s.pool == [] then t.fromHostBuf == None && !t.outArmed && t.pool == []
                     else t.fromHostBuf == Some(s.pool[0]) && t.outArmed && t.pool == s.pool[1..])
               else
                 && q.past.accepted == r.past.accepted
                 && t.fromHost == s.fromHost && t.pool == s.pool && t.fromHostBuf == Some(x) && t.outArmed
  {
    HeldInRange(cfg.buffers, r.core);
    hide Conserved;
  }

  // ---------- one frame to the host ----------

  /** While `SendToHost` decides about a buffer, no callback touches it. */
  predicate Kept(r: Run, q: Run) {
    && Undisturbed(r, q) && q.past.left == r.past.left
    && q.core.toHostBuf == r.core.toHostBuf
    && Content(q.core.store, q.core.toHostBuf) == Content(r.core.store, r.core.toHostBuf)
  }

  lemma CallbackLeavesIn(cfg: Config, r: Run, e: Event)
    requires WellFormed(cfg, r.core) && !e.Loop? && InSending(r.core.pc.at)
    ensures Kept(r, Advance(cfg, r, e))
  {
    CallbackKeeps(cfg, r, e);
    if e.DataOut? && Enabled(cfg, r.core, e) {
      HeldInRange(cfg.buffers, r.core);
      Exclusive(cfg.buffers, r.core, r.core.fromHostBuf.value);
    }
    hide Conserved, References, Undisturbed;
  }

  lemma {:induction false} CallbacksLeaveIn(cfg: Config, r: Run, es: seq<Event>)
    requires WellFormed(cfg, r.core) && Callbacks(es) && InSending(r.core.pc.at)
    ensures Kept(r, RunFrom(cfg, r, es))
    decreases es
  {
    if es != [] {
      assert es[0] in es && forall e :: e in es[1..] ==> e in es;
      CallbackLeavesIn(cfg, r, es[0]);
      AdvanceKeepsWellFormed(cfg, r, es[0]);
      hide Advance, WellFormed;
      CallbacksLeaveIn(cfg, Advance(cfg, r, es[0]), es[1..]);
    }
  }

  /** Taking a frame, handing it to the transfer and, if that fails, dropping it; with callbacks between. */
  datatype Transfer = Transfer(take: Event, es: seq<Event>, transmit: Event, fs: seq<Event>, drop: Event)

  predicate TransferOk(p: Transfer) {
    Section(p.take) && Callbacks(p.es) && Section(p.transmit) && Callbacks(p.fs) && Section(p.drop)
  }

  function Taken(cfg: Config, r: Run, p: Transfer): (q: Run)
    requires WellFormed(cfg, r.core)
    ensures WellFormed(cfg, q.core)
  {
    RunFrom(cfg, r, [p.take] + p.es)
  }

  lemma InTakeSection(cfg: Config, r: Run, e: Event)
    requires WellFormed(cfg, r.core) && r.core.pc.at.InTake? && Section(e)
    requires r.core.toHostBuf.None? && r.core.toHost != []
    ensures var s, q := r.core, Advance(cfg, r, e);
            && q.past == r.past && q.core.pc == At(InTransmit, 0) && q.core.toHostBuf == Some(s.toHost[0])
            && q.core.store == s.store
  {
    PastStays(cfg, r, e);
    hide Conserved, TransfersOk;
  }

  lemma InTransmitSection(cfg: Config, r: Run, e: Event)
    requires WellFormed(cfg, r.core) && r.core.pc.at.InTransmit? && Section(e)
    ensures Advance(cfg, r, e).past == r.past
    ensures Advance(cfg, r, e).core == if r.core.suspended then r.core.(pc := At(InDrop, 0))
                                       else r.core.(inFlight := true, pc := AfterUsb(cfg))
  {
    PastStays(cfg, r, e);
    hide Conserved, TransfersOk;
  }

  lemma InDropSection(cfg: Config, r: Run, e: Event)
    requires WellFormed(cfg, r.core) && r.core.pc.at.InDrop? && Section(e)
    ensures r.core.toHostBuf.Some?
    ensures var s, q := r.core, Advance(cfg, r, e); var x := s.toHostBuf.value;
            && q.past.left == r.past.left + [Outcome(FrameAt(s.store, x), false)]
            && q.past.generated == r.past.generated
            && q.core == s.(pool := [x] + s.pool, toHostBuf := None, pc := AfterUsb(cfg))
  {
    hide Conserved;
  }

  lemma OneStep(cfg: Config, r: Run, e: Event)
    requires WellFormed(cfg, r.core)
    ensures RunFrom(cfg, r, [e]) == Advance(cfg, r, e)
  {
    AdvanceKeepsWellFormed(cfg, r, e);
    hide Advance, WellFormed;
    assert [e][1..] == [];
  }

  /** The first frame of `list_to_host`, when no transfer is under way: awake it is handed to an IN transfer
      as it is, and delivered when that completes; on a suspended bus it is dropped, once, and its buffer is
      the first of the pool. */
  lemma FrameHandedOver(cfg: Config, r: Run, p: Transfer)
    requires WellFormed(cfg, r.core) && r.core.pc.at.InTake? && TransferOk(p)
    requires r.core.toHostBuf.None? && r.core.toHost != []
    ensures var s, q := r.core, Taken(cfg, r, p); var x := s.toHost[0];
            var f, q1 := FrameAt(s.store, x), RunFrom(cfg, q, [p.transmit]);
            && q.past.left == r.past.left
            && if !q.core.suspended then
                 && q1.core.toHostBuf == Some(x) && FrameAt(q1.core.store, x) == f && q1.core.inFlight
                 && q1.past.left == r.past.left && q1.core.pc == AfterUsb(cfg)
                 && var q2 := RunFrom(cfg, q1, [DataIn]);
                 && q2.past.left == r.past.left + [Outcome(f, true)] && q2.core.toHostBuf == None
                 && q2.core.pool == q1.core.pool + [x]
               else
                 var q2 := RunFrom(cfg, q, ([p.transmit] + p.fs) + [p.drop]);
                 && q2.past.left == r.past.left + [Outcome(f, false)] && q2.core.toHostBuf == None
                 && q2.core.pool != [] && q2.core.pool[0] == x && q2.core.pc == AfterUsb(cfg)
                 && q2.past.generated == r.past.generated
  {
    InTakeSection(cfg, r, p.take);
    ThenKept(cfg, r, p.take, p.es);
    var q := Taken(cfg, r, p);
    AdvanceKeepsWellFormed(cfg, q, p.transmit);
    InTransmitSection(cfg, q, p.transmit);
    OneStep(cfg, q, p.transmit);
    if !q.core.suspended {
      var q1 := Advance(cfg, q, p.transmit);
      OneStep(cfg, q1, DataIn);
      assert Advance(cfg, q1, DataIn).past.left == q1.past.left + LeftBy(q1.core, DataIn);
    } else {
      hide Advance, WellFormed;
      ThenKept(cfg, q, p.transmit, p.fs);
      var r2 := RunFrom(cfg, q, [p.transmit] + p.fs);
      InDropSection(cfg, r2, p.drop);
      ThenCallbacks(cfg, r2, p.drop, []);
      assert [p.drop] + [] == [p.drop];
      RunJoin(cfg, q, [p.transmit] + p.fs, [p.drop]);
    }
  }

  lemma ThenKept(cfg: Config, r: Run, e: Event, es: seq<Event>)
    requires WellFormed(cfg, r.core) && Callbacks(es) && InSending(Advance(cfg, r, e).core.pc.at)
    ensures WellFormed(cfg, Advance(cfg, r, e).core)
    ensures Kept(Advance(cfg, r, e), RunFrom(cfg, r, [e] + es))
  {
    AdvanceKeepsWellFormed(cfg, r, e);
    CallbacksLeaveIn(cfg, Advance(cfg, r, e), es);
    assert ([e] + es)[1..] == es;
    hide Kept, Advance, WellFormed;
  }
}
