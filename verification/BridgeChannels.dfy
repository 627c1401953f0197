/** Per channel, what one step does to the frames on their way from the host to the CAN bus and
    from the host to their echo.
  */
module BridgeChannels {
  import opened GsUsb
  import opened Wrappers
  import opened Bridge
  import opened BridgeStreams

  // ---------- what the held and the queued frames are ----------

  /** A frame the host sent on channel `ch`; `polite` says that the host keeps to the protocol and
      never uses the number of non-echo frames. */
  predicate FromHost(f: HostFrame, ch: nat, polite: bool) {
    f.channel == ch && (polite ==> f.echoId != NOT_ECHO)
  }

  /** Frames wait in the queue of their own channel. */
  ghost predicate QueueTagged(s: Core, ch: nat, polite: bool)
    requires ch < |s.fromHost|
  {
    forall f :: f in Contents(s.store, s.fromHost[ch]) ==> FromHost(f, ch, polite)
  }

  ghost predicate HeldTagged(s: Core, polite: bool) {
    forall f :: f in HeldFrame(s) ==>
      && (InSend(s.pc.at) ==> FromHost(f, s.pc.ch, polite))
      && (s.pc.at.RxQueue? ==> f.channel == s.pc.ch && f.echoId == NOT_ECHO && f.canId & ERR_FLAG == 0)
      && (s.pc.at.ErrQueue? ==> f.channel == s.pc.ch && f.echoId == NOT_ECHO && f.canId & ERR_FLAG != 0)
  }

  ghost predicate Tagged(s: Core, polite: bool) {
    && (forall ch :: 0 <= ch < |s.fromHost| ==> QueueTagged(s, ch, polite))
    && HeldTagged(s, polite)
  }

  lemma HeldFrameIs(s: Core)
    requires s.pc.held.Some?
    ensures HeldFrame(s) == [FrameAt(s.store, s.pc.held.value)] && FrameAt(s.store, s.pc.held.value) in HeldFrame(s)
  {}

  // ---------- tags are kept ----------

  lemma WriteKeepsQueue(n: nat, s: Core, x: nat, f: HostFrame, ch: nat)
    requires Conserved(n, s) && (s.pc.held == Some(x) || s.fromHostBuf == Some(x)) && x < |s.store| && ch < |s.fromHost|
    ensures Contents(s.store[x := f], s.fromHost[ch]) == Contents(s.store, s.fromHost[ch])
  {
    Exclusive(n, s, x);
    ContentsWrite(s.store, x, f, s.fromHost[ch]);
  }

  lemma TakeToSendTagged(cfg: Config, s: Core, polite: bool)
    requires Tagged(s, polite) && s.pc.ch < |s.fromHost| == cfg.channels && s.pc.at.SendTake? && s.pc.held == None
    ensures Tagged(TakeToSend(cfg, s), polite)
  {
    var ch, q, t := s.pc.ch, s.fromHost[s.pc.ch], TakeToSend(cfg, s);
    assert QueueTagged(s, ch, polite);
    forall c | 0 <= c < |t.fromHost|
      ensures QueueTagged(t, c, polite)
    {
      assert QueueTagged(s, c, polite);
    }
    if q != [] {
      assert Contents(s.store, q)[0] == FrameAt(s.store, q[0]);
      assert HeldFrame(t) == [FrameAt(s.store, q[0])];
    }
  }

  lemma WriteHeldTagged(n: nat, s: Core, f: HostFrame, p: Point, polite: bool)
    requires Conserved(n, s) && Tagged(s, polite) && s.pc.held.Some? && s.pc.held.value < |s.store|
    requires InSend(p) ==> FromHost(f, s.pc.ch, polite)
    requires p.RxQueue? ==> f.channel == s.pc.ch && f.echoId == NOT_ECHO && f.canId & ERR_FLAG == 0
    requires p.ErrQueue? ==> f.channel == s.pc.ch && f.echoId == NOT_ECHO && f.canId & ERR_FLAG != 0
    ensures Tagged(WriteHeld(s, f, p), polite)
  {
    var t := WriteHeld(s, f, p);
    forall c | 0 <= c < |t.fromHost|
      ensures QueueTagged(t, c, polite)
    {
      assert QueueTagged(s, c, polite);
      WriteKeepsQueue(n, s, s.pc.held.value, f, c);
    }
    assert HeldFrame(t) == [f];
  }

  lemma TrySendTagged(cfg: Config, s: Core, a: Answer, polite: bool)
    requires DriverOk(cfg.driver)
    requires Conserved(cfg.buffers, s) && Tagged(s, polite) && s.pc.at.SendTry? && s.pc.held.Some?
      && s.pc.held.value < |s.store|
    ensures Tagged(TrySend(cfg, s, a), polite)
  {
    HeldFrameIs(s);
    var f := s.store[s.pc.held.value];
    assert MessageOf(cfg.driver.sent(f)) == MessageOf(f);
    if a.mailboxFree {
      WriteHeldTagged(cfg.buffers, s, cfg.driver.sent(f).(reserved := 0, timestamp := a.now), SendEcho, polite);
    } else {
      SameQueuesTagged(s, TrySend(cfg, s, a), polite);
    }
  }

  /** Steps that leave the buffers of the channel queues alone. */
  lemma SameQueuesTagged(s: Core, t: Core, polite: bool)
    requires Tagged(s, polite) && t.fromHost == s.fromHost && t.store == s.store && HeldTagged(t, polite)
    ensures Tagged(t, polite)
  {
    forall c | 0 <= c < |t.fromHost|
      ensures QueueTagged(t, c, polite)
    {
      assert QueueTagged(s, c, polite);
    }
  }

  /** The main loop has no frame in hand, or one that is not written yet or not wanted. */
  predicate HandEmpty(t: Core) {
    t.pc.held == None || t.pc.at.RxRead? || t.pc.at.RxBack? || t.pc.at.ErrParse? || t.pc.at.ErrBack?
  }

  lemma EmptyTagged(s: Core, t: Core, polite: bool)
    requires Tagged(s, polite) && t.fromHost == s.fromHost && t.store == s.store && HandEmpty(t)
    ensures Tagged(t, polite)
  {
    SameQueuesTagged(s, t, polite);
  }

  lemma PutBackTagged(cfg: Config, s: Core, polite: bool)
    requires Tagged(s, polite) && s.pc.at.SendBack? && s.pc.held.Some? && s.pc.ch < |s.fromHost|
    ensures Tagged(PutBack(cfg, s), polite)
  {
    var ch, t := s.pc.ch, PutBack(cfg, s);
    HeldFrameIs(s);
    ContentsPut(s.store, s.fromHost[ch], s.pc.held.value);
    forall c | 0 <= c < |t.fromHost|
      ensures QueueTagged(t, c, polite)
    {
      assert QueueTagged(s, c, polite);
    }
  }

  lemma ReadRxTagged(cfg: Config, s: Core, a: Answer, polite: bool)
    requires Conserved(cfg.buffers, s) && Tagged(s, polite) && s.pc.at.RxRead? && s.pc.held.Some?
      && s.pc.held.value < |s.store|
    requires Enabled(cfg, s, Loop(a))
    ensures Tagged(ReadRx(s, a), polite)
  {
    if a.rx.Some? {
      WriteHeldTagged(cfg.buffers, s, RxFrame(s, a.rx.value), RxQueue, polite);
    } else {
      SameQueuesTagged(s, ReadRx(s, a), polite);
    }
  }

  lemma ParseErrTagged(cfg: Config, s: Core, a: Answer, polite: bool)
    requires DriverOk(cfg.driver)
    requires Conserved(cfg.buffers, s) && Tagged(s, polite) && s.pc.held.Some? && s.pc.held.value < |s.store|
      && s.pc.ch < |s.errOld|
    ensures Tagged(ParseErr(cfg, s, a), polite)
  {
    var t := ParseErr(cfg, s, a);
    var f := s.store[s.pc.held.value].(timestamp := a.now, channel := s.pc.ch);
    assert ParseOk(cfg.driver, s.errOld[s.pc.ch], s.pc.err, a.ecr, f);
    WriteHeldTagged(cfg.buffers, s, t.store[s.pc.held.value], t.pc.at, polite);
    SameQueuesTagged(WriteHeld(s, t.store[s.pc.held.value], t.pc.at), t, polite);
  }

  lemma QueueOutTagged(s: Core, ch: nat, polite: bool)
    requires Tagged(s, polite) && s.fromHostBuf.Some? && ch < |s.fromHost|
    requires FromHost(FrameAt(s.store, s.fromHostBuf.value), ch, polite)
    ensures Tagged(QueueOut(s, ch), polite)
  {
    hide FrameAt, FromHost, Contents;
    var t := QueueOut(s, ch);
    ContentsPut(s.store, s.fromHost[ch], s.fromHostBuf.value);
    forall c | 0 <= c < |t.fromHost|
      ensures QueueTagged(t, c, polite)
    {
      assert QueueTagged(s, c, polite);
    }
  }

  lemma WriteOutTagged(n: nat, s: Core, f: HostFrame, polite: bool)
    requires Conserved(n, s) && Tagged(s, polite) && s.fromHostBuf.Some? && s.fromHostBuf.value < |s.store|
    ensures Tagged(s.(store := s.store[s.fromHostBuf.value := f]), polite)
    ensures HeldFrame(s.(store := s.store[s.fromHostBuf.value := f])) == HeldFrame(s)
  {
    var t := s.(store := s.store[s.fromHostBuf.value := f]);
    Exclusive(n, s, s.fromHostBuf.value);
    forall c | 0 <= c < |t.fromHost|
      ensures QueueTagged(t, c, polite)
    {
      assert QueueTagged(s, c, polite);
      WriteKeepsQueue(n, s, s.fromHostBuf.value, f, c);
    }
    assert HeldFrame(t) == HeldFrame(s);
  }

  lemma SendKeepsTags(cfg: Config, s: Core, a: Answer, polite: bool)
    requires DriverOk(cfg.driver) && WellFormed(cfg, s) && Tagged(s, polite) && InSend(s.pc.at)
    ensures Tagged(SendSection(cfg, s, a), polite)
  {
    HeldInRange(cfg.buffers, s);
    match s.pc.at
    case SendTake => TakeToSendTagged(cfg, s, polite);
    case SendTry => TrySendTagged(cfg, s, a, polite);
    case SendBack => PutBackTagged(cfg, s, polite);
    case SendEcho => SameQueuesTagged(s, SendSection(cfg, s, a), polite);
  }

  lemma UsbKeepsTags(cfg: Config, s: Core, polite: bool)
    requires WellFormed(cfg, s) && Tagged(s, polite) && InUsb(s.pc.at)
    ensures Tagged(UsbSection(cfg, s), polite)
  {
    hide PcOk, FrameAt;
    SameQueuesTagged(s, UsbSection(cfg, s), polite);
  }

  lemma ReceiveKeepsTags(cfg: Config, s: Core, a: Answer, polite: bool)
    requires WellFormed(cfg, s) && Tagged(s, polite) && InReceive(s.pc.at) && Enabled(cfg, s, Loop(a))
    ensures Tagged(ReceiveSection(cfg, s, a), polite)
  {
    HeldInRange(cfg.buffers, s);
    hide Tagged, Conserved, ReadRx;
    match s.pc.at
    case RxCheck => EmptyTagged(s, CheckRx(s, a), polite);
    case RxTake => EmptyTagged(s, PoolTake(s, RxRead, At(ErrCheck, s.pc.ch)), polite);
    case RxRead => ReadRxTagged(cfg, s, a, polite);
    case RxBack => EmptyTagged(s, PoolReturn(s, At(ErrCheck, s.pc.ch)), polite);
    case RxQueue => EmptyTagged(s, QueueHeld(s, At(ErrCheck, s.pc.ch)), polite);
  }

  lemma ErrorKeepsTags(cfg: Config, s: Core, a: Answer, polite: bool)
    requires DriverOk(cfg.driver) && WellFormed(cfg, s) && Tagged(s, polite) && InError(s.pc.at)
    ensures Tagged(ErrorSection(cfg, s, a), polite)
  {
    HeldInRange(cfg.buffers, s);
    hide Tagged, Conserved, ParseErr;
    var next := AfterError(cfg, s.pc.ch);
    match s.pc.at
    case ErrCheck => EmptyTagged(s, CheckErr(cfg, s, a), polite);
    case ErrTake => EmptyTagged(s, PoolTake(s, ErrParse, next), polite);
    case ErrParse => ParseErrTagged(cfg, s, a, polite);
    case ErrBack => EmptyTagged(s, PoolReturn(s, next), polite);
    case ErrQueue => EmptyTagged(s, QueueHeld(s, next), polite);
  }

  lemma DataOutKeepsTags(cfg: Config, s: Core, f: HostFrame, rxlen: nat, polite: bool)
    requires Conserved(cfg.buffers, s) && Tagged(s, polite) && s.fromHostBuf.Some? && s.fromHostBuf.value < |s.store|
      && |s.fromHost| == cfg.channels
    requires polite && Accepts(cfg, f, rxlen) ==> f.echoId != NOT_ECHO
    ensures Tagged(ReceiveOut(cfg, s, f, rxlen), polite)
  {
    WriteOutTagged(cfg.buffers, s, f, polite);
    if Accepts(cfg, f, rxlen) {
      QueueOutTagged(s.(store := s.store[s.fromHostBuf.value := f]), f.channel, polite);
    }
  }

  lemma LoopKeepsTags(cfg: Config, s: Core, a: Answer, polite: bool)
    requires DriverOk(cfg.driver) && WellFormed(cfg, s) && Tagged(s, polite) && Enabled(cfg, s, Loop(a))
    ensures Tagged(LoopStep(cfg, s, a), polite)
  {
    hide Tagged;
    if InSend(s.pc.at) { SendKeepsTags(cfg, s, a, polite); }
    else if InUsb(s.pc.at) { UsbKeepsTags(cfg, s, polite); }
    else if InReceive(s.pc.at) { ReceiveKeepsTags(cfg, s, a, polite); }
    else { ErrorKeepsTags(cfg, s, a, polite); }
  }

  /** A step that leaves the frames, the channel queues and the main loop alone. */
  predicate LeavesAlone(s: Core, t: Core) {
    t.store == s.store && t.fromHost == s.fromHost && t.pc == s.pc
  }

  lemma AloneTagged(s: Core, t: Core, polite: bool)
    requires Tagged(s, polite) && LeavesAlone(s, t)
    ensures Tagged(t, polite)
  {
    SameQueuesTagged(s, t, polite);
  }

  lemma StepKeepsTags(cfg: Config, s: Core, e: Event, polite: bool)
    requires DriverOk(cfg.driver) && WellFormed(cfg, s) && Tagged(s, polite) && Enabled(cfg, s, e)
    requires polite && e.DataOut? && Accepts(cfg, e.frame, e.rxlen) ==> e.frame.echoId != NOT_ECHO
    ensures Tagged(Step(cfg, s, e), polite)
  {
    hide Tagged, LoopStep, ReceiveOut, Conserved;
    HeldInRange(cfg.buffers, s);
    match e
    case Loop(a) => LoopKeepsTags(cfg, s, a, polite);
    case DataIn => AloneTagged(s, CompleteIn(s), polite);
    case DataOut(f, rxlen) => DataOutKeepsTags(cfg, s, f, rxlen, polite);
    case Suspend => AloneTagged(s, s.(suspended := true), polite);
    case Resume => AloneTagged(s, s.(suspended := false), polite);
    case Configure => AloneTagged(s, s.(configured := true), polite);
  }

  // ---------- the stream of one channel ----------

  /** What enters the CAN bus (`sent`) or the stream to the host in one step. */
  function Passed(s: Core, e: Event, sent: bool): seq<HostFrame> {
    if sent then SentBy(s, e) else GeneratedBy(s, e)
  }

  /** What enters the stream of channel `ch` from the host equals what leaves it plus the change of
      what waits in it, in order. */
  ghost predicate Balanced(cfg: Config, s: Core, t: Core, e: Event, ch: nat, sent: bool)
    requires ch < |s.fromHost| && ch < |t.fromHost|
  {
    Pick(ch, sent, Passed(s, e, sent)) + Pick(ch, sent, Waiting(t, ch, sent))
    == Pick(ch, sent, Waiting(s, ch, sent)) + Pick(ch, sent, AcceptedBy(cfg, e))
  }

  lemma PickSingle(ch: nat, all: bool, f: HostFrame)
    ensures Pick(ch, all, [f]) == if f.channel == ch && (all || f.echoId != NOT_ECHO) then [MessageOf(f)] else []
  {}

  /** What waits, as the part in hand followed by the queued part. */
  function PickInHand(s: Core, ch: nat, sent: bool): seq<Message> {
    Pick(ch, sent, InHand(s, sent))
  }

  function PickQueue(s: Core, ch: nat, sent: bool): seq<Message>
    requires ch < |s.fromHost|
  {
    Pick(ch, sent, Contents(s.store, s.fromHost[ch]))
  }

  lemma BalancedParts(cfg: Config, s: Core, t: Core, e: Event, ch: nat, sent: bool)
    requires ch < |s.fromHost| && ch < |t.fromHost|
    requires Pick(ch, sent, Passed(s, e, sent)) + (PickInHand(t, ch, sent) + PickQueue(t, ch, sent))
          == (PickInHand(s, ch, sent) + PickQueue(s, ch, sent)) + Pick(ch, sent, AcceptedBy(cfg, e))
    ensures Balanced(cfg, s, t, e, ch, sent)
  {
    PickJoin(ch, sent, InHand(s, sent), Contents(s.store, s.fromHost[ch]));
    PickJoin(ch, sent, InHand(t, sent), Contents(t.store, t.fromHost[ch]));
  }

  /** Nothing passes, nothing is accepted, and what waits stays the same. */
  lemma BalancedQuiet(cfg: Config, s: Core, t: Core, e: Event, ch: nat, sent: bool)
    requires ch < |s.fromHost| && ch < |t.fromHost| && AcceptedBy(cfg, e) == []
    requires Pick(ch, sent, Passed(s, e, sent)) == []
    requires PickInHand(t, ch, sent) + PickQueue(t, ch, sent) == PickInHand(s, ch, sent) + PickQueue(s, ch, sent)
    ensures Balanced(cfg, s, t, e, ch, sent)
  {
    var w := PickInHand(s, ch, sent) + PickQueue(s, ch, sent);
    assert [] + w == w + [];
    BalancedParts(cfg, s, t, e, ch, sent);
  }

  lemma TakeToSendHere(cfg: Config, s: Core, sent: bool)
    requires s.pc.ch < |s.fromHost| && s.pc.at.SendTake? && s.pc.held == None
    ensures Waiting(TakeToSend(cfg, s), s.pc.ch, sent) == Waiting(s, s.pc.ch, sent)
  {
    var q, t := s.fromHost[s.pc.ch], TakeToSend(cfg, s);
    if q != [] {
      assert t.fromHost[s.pc.ch] == q[1..] && HeldFrame(t) == [FrameAt(s.store, q[0])];
    }
  }

  lemma TakeToSendAway(cfg: Config, s: Core, ch: nat, sent: bool)
    requires s.pc.ch < |s.fromHost| && ch < |s.fromHost| && ch != s.pc.ch && s.pc.at.SendTake? && s.pc.held == None
      && QueueTagged(s, s.pc.ch, false)
    ensures PickInHand(TakeToSend(cfg, s), ch, sent) == [] == PickInHand(s, ch, sent)
    ensures PickQueue(TakeToSend(cfg, s), ch, sent) == PickQueue(s, ch, sent)
  {
    var q, t := s.fromHost[s.pc.ch], TakeToSend(cfg, s);
    assert t.fromHost[ch] == s.fromHost[ch];
    if q != [] {
      var f := FrameAt(s.store, q[0]);
      assert Contents(s.store, q)[0] == f;
      assert FromHost(f, s.pc.ch, false);
      assert HeldFrame(t) == [f];
      PickSingle(ch, sent, f);
    }
  }

  lemma TakeToSendBalanced(cfg: Config, s: Core, a: Answer, ch: nat, sent: bool)
    requires s.pc.ch < |s.fromHost| && ch < |s.fromHost| && s.pc.at.SendTake? && s.pc.held == None
      && QueueTagged(s, s.pc.ch, false)
    ensures Balanced(cfg, s, TakeToSend(cfg, s), Loop(a), ch, sent)
  {
    if ch == s.pc.ch {
      TakeToSendHere(cfg, s, sent);
    } else {
      TakeToSendAway(cfg, s, ch, sent);
      BalancedQuiet(cfg, s, TakeToSend(cfg, s), Loop(a), ch, sent);
    }
  }

  lemma TrySendMessage(cfg: Config, s: Core, a: Answer, ch: nat, sent: bool)
    requires DriverOk(cfg.driver) && Conserved(cfg.buffers, s) && ch < |s.fromHost|
    requires s.pc.at.SendTry? && s.pc.held.Some? && s.pc.held.value < |s.store| && a.mailboxFree
    ensures PickQueue(TrySend(cfg, s, a), ch, sent) == PickQueue(s, ch, sent)
    ensures Pick(ch, sent, HeldFrame(TrySend(cfg, s, a))) == Pick(ch, sent, HeldFrame(s))
  {
    var t, x := TrySend(cfg, s, a), s.pc.held.value;
    assert MessageOf(cfg.driver.sent(s.store[x])) == MessageOf(s.store[x]);
    WriteKeepsQueue(cfg.buffers, s, x, t.store[x], ch);
    PickSingle(ch, sent, s.store[x]);
    PickSingle(ch, sent, t.store[x]);
  }

  lemma TrySendBalanced(cfg: Config, s: Core, a: Answer, ch: nat, sent: bool)
    requires DriverOk(cfg.driver) && Conserved(cfg.buffers, s) && ch < |s.fromHost|
    requires s.pc.at.SendTry? && s.pc.held.Some? && s.pc.held.value < |s.store|
    ensures Balanced(cfg, s, TrySend(cfg, s, a), Loop(a), ch, sent)
  {
    if a.mailboxFree {
      TrySendMessage(cfg, s, a, ch, sent);
      AppendLast(PickInHand(s, ch, sent), PickQueue(s, ch, sent), []);
      BalancedParts(cfg, s, TrySend(cfg, s, a), Loop(a), ch, sent);
    }
  }

  lemma PutBackBalanced(cfg: Config, s: Core, a: Answer, ch: nat, sent: bool)
    requires s.pc.ch < |s.fromHost| && ch < |s.fromHost| && s.pc.at.SendBack? && s.pc.held.Some? && Tagged(s, false)
    ensures Balanced(cfg, s, PutBack(cfg, s), Loop(a), ch, sent)
  {
    var t, x := PutBack(cfg, s), s.pc.held.value;
    var f := FrameAt(s.store, x);
    HeldFrameIs(s);
    PickSingle(ch, sent, f);
    ContentsPut(s.store, s.fromHost[s.pc.ch], x);
    PickJoin(ch, sent, [f], Contents(s.store, s.fromHost[s.pc.ch]));
    if ch == s.pc.ch {
      assert [] + PickQueue(t, ch, sent) == PickQueue(t, ch, sent);
    } else {
      assert t.fromHost[ch] == s.fromHost[ch];
    }
    BalancedQuiet(cfg, s, t, Loop(a), ch, sent);
  }

  lemma QueueEchoBalanced(cfg: Config, s: Core, a: Answer, next: Pc, ch: nat, sent: bool)
    requires ch < |s.fromHost| && s.pc.at.SendEcho? && s.pc.held.Some? && next.held == None
    ensures Balanced(cfg, s, QueueHeld(s, next), Loop(a), ch, sent)
  {
    var t, w := QueueHeld(s, next), PickQueue(s, ch, sent);
    if sent {
      BalancedQuiet(cfg, s, t, Loop(a), ch, sent);
    } else {
      assert PickInHand(s, ch, sent) + ([] + w) == (PickInHand(s, ch, sent) + w) + [];
      BalancedParts(cfg, s, t, Loop(a), ch, sent);
    }
  }

  lemma QueueOutPicks(s: Core, f: HostFrame, ch: nat, sent: bool)
    requires ch < |s.fromHost| && f.channel < |s.fromHost| && s.fromHostBuf.Some?
      && FrameAt(s.store, s.fromHostBuf.value) == f
    ensures PickQueue(QueueOut(s, f.channel), ch, sent) == PickQueue(s, ch, sent) + Pick(ch, sent, [f])
  {
    var t := QueueOut(s, f.channel);
    PickSingle(ch, sent, f);
    if ch == f.channel {
      ContentsPut(s.store, s.fromHost[ch], s.fromHostBuf.value);
      PickJoin(ch, sent, Contents(s.store, s.fromHost[ch]), [f]);
      assert t.fromHost[ch] == s.fromHost[ch] + [s.fromHostBuf.value];
    } else {
      assert t.fromHost[ch] == s.fromHost[ch];
    }
  }

  lemma QueueOutBalanced(cfg: Config, s: Core, f: HostFrame, rxlen: nat, ch: nat, sent: bool)
    requires |s.fromHost| == cfg.channels && ch < cfg.channels && s.fromHostBuf.Some? && Accepts(cfg, f, rxlen)
    requires FrameAt(s.store, s.fromHostBuf.value) == f
    ensures Balanced(cfg, s, QueueOut(s, f.channel), DataOut(f, rxlen), ch, sent)
  {
    QueueOutPicks(s, f, ch, sent);
    QueueOutHand(s, f.channel, ch, sent);
    AppendLast(PickInHand(s, ch, sent), PickQueue(s, ch, sent), Pick(ch, sent, [f]));
    hide QueueOut, PickInHand, PickQueue, Balanced, FrameAt;
    BalancedParts(cfg, s, QueueOut(s, f.channel), DataOut(f, rxlen), ch, sent);
  }

  lemma QueueOutHand(s: Core, c: nat, ch: nat, sent: bool)
    requires c < |s.fromHost| && s.fromHostBuf.Some?
    ensures PickInHand(QueueOut(s, c), ch, sent) == PickInHand(s, ch, sent)
    ensures |QueueOut(s, c).fromHost| == |s.fromHost|
  {}

  lemma AppendLast<T>(a: seq<T>, b: seq<T>, c: seq<T>)
    ensures [] + (a + (b + c)) == (a + b) + c
    ensures a + ([] + b) == (a + b) + []
    ensures [] + (a + b) == (a + b) + []
  {}

  lemma SendBalanced(cfg: Config, s: Core, a: Answer, ch: nat, sent: bool)
    requires DriverOk(cfg.driver) && WellFormed(cfg, s) && Tagged(s, false) && InSend(s.pc.at) && ch < cfg.channels
    ensures Balanced(cfg, s, SendSection(cfg, s, a), Loop(a), ch, sent)
  {
    HeldInRange(cfg.buffers, s);
    match s.pc.at
    case SendTake =>
      assert QueueTagged(s, s.pc.ch, false);
      TakeToSendBalanced(cfg, s, a, ch, sent);
    case SendTry => TrySendBalanced(cfg, s, a, ch, sent);
    case SendBack => PutBackBalanced(cfg, s, a, ch, sent);
    case SendEcho => QueueEchoBalanced(cfg, s, a, AfterSend(cfg, s.pc.ch), ch, sent);
  }

  /** Away from `CAN_SendFrame` the channel queues stay and no echo is generated. */
  lemma AwayBalanced(cfg: Config, s: Core, t: Core, a: Answer, ch: nat, sent: bool)
    requires ch < |s.fromHost| && t.fromHost == s.fromHost
    requires Contents(t.store, s.fromHost[ch]) == Contents(s.store, s.fromHost[ch])
    requires !InSend(s.pc.at) && InHand(t, sent) == [] && HeldTagged(s, false)
    ensures Balanced(cfg, s, t, Loop(a), ch, sent)
  {
    if !sent && Queueing(s.pc.at) && s.pc.held.Some? {
      HeldFrameIs(s);
      PickSingle(ch, sent, FrameAt(s.store, s.pc.held.value));
    }
    BalancedQuiet(cfg, s, t, Loop(a), ch, sent);
  }

  /** The channel queues hold the same frames, and the hand of `CAN_SendFrame` is empty. */
  predicate KeepsQueue(s: Core, t: Core, ch: nat, sent: bool)
    requires ch < |s.fromHost|
  {
    && t.fromHost == s.fromHost && InHand(t, sent) == []
    && Contents(t.store, s.fromHost[ch]) == Contents(s.store, s.fromHost[ch])
  }

  lemma UsbKeepsQueue(cfg: Config, s: Core, ch: nat, sent: bool)
    requires WellFormed(cfg, s) && InUsb(s.pc.at) && ch < cfg.channels
    ensures KeepsQueue(s, UsbSection(cfg, s), ch, sent)
  {
    hide Conserved, Contents;
  }

  /** No frame and no channel queue changes, and `CAN_SendFrame` has no frame in hand. */
  predicate Leaves(s: Core, t: Core) {
    t.fromHost == s.fromHost && t.store == s.store && (InSend(t.pc.at) ==> t.pc.at.SendTake?)
  }

  lemma LeavesQueue(s: Core, t: Core, ch: nat, sent: bool)
    requires Leaves(s, t) && ch < |s.fromHost|
    ensures KeepsQueue(s, t, ch, sent)
  {}

  lemma ChecksLeave(cfg: Config, s: Core, a: Answer)
    ensures Leaves(s, CheckRx(s, a)) && Leaves(s, CheckErr(cfg, s, a))
  {}

  lemma PoolLeaves(s: Core, p: Point, next: Pc)
    requires !InSend(p) && (InSend(next.at) ==> next.at.SendTake?)
    ensures Leaves(s, PoolTake(s, p, next))
    ensures s.pc.held.Some? ==> Leaves(s, PoolReturn(s, next)) && Leaves(s, QueueHeld(s, next))
  {}

  lemma ReceiveLeaves(cfg: Config, s: Core, a: Answer)
    requires WellFormed(cfg, s) && InReceive(s.pc.at) && !s.pc.at.RxRead?
    ensures Leaves(s, ReceiveSection(cfg, s, a))
  {
    ChecksLeave(cfg, s, a);
    PoolLeaves(s, RxRead, At(ErrCheck, s.pc.ch));
    hide Conserved, Leaves, CheckRx, PoolTake, PoolReturn, QueueHeld;
  }

  lemma ReadRxKeepsQueue(cfg: Config, s: Core, a: Answer, ch: nat, sent: bool)
    requires Conserved(cfg.buffers, s) && s.pc.at.RxRead? && s.pc.held.Some? && s.pc.held.value < |s.store|
    requires ch < |s.fromHost|
    ensures KeepsQueue(s, ReadRx(s, a), ch, sent)
  {
    if a.rx.Some? {
      WriteKeepsQueue(cfg.buffers, s, s.pc.held.value, RxFrame(s, a.rx.value), ch);
    }
  }

  lemma ReceiveKeepsQueue(cfg: Config, s: Core, a: Answer, ch: nat, sent: bool)
    requires WellFormed(cfg, s) && InReceive(s.pc.at) && ch < cfg.channels
    ensures KeepsQueue(s, ReceiveSection(cfg, s, a), ch, sent)
  {
    HeldInRange(cfg.buffers, s);
    hide Conserved, Contents, ReadRx;
    if s.pc.at.RxRead? {
      ReadRxKeepsQueue(cfg, s, a, ch, sent);
    } else {
      ReceiveLeaves(cfg, s, a);
      hide ReceiveSection, KeepsQueue;
      LeavesQueue(s, ReceiveSection(cfg, s, a), ch, sent);
    }
  }

  lemma ErrorLeaves(cfg: Config, s: Core, a: Answer)
    requires WellFormed(cfg, s) && InError(s.pc.at) && !s.pc.at.ErrParse?
    ensures Leaves(s, ErrorSection(cfg, s, a))
  {
    ChecksLeave(cfg, s, a);
    PoolLeaves(s, ErrParse, AfterError(cfg, s.pc.ch));
    hide Conserved, Leaves, CheckErr, PoolTake, PoolReturn, QueueHeld;
  }

  lemma ParseErrKeepsQueue(cfg: Config, s: Core, a: Answer, ch: nat, sent: bool)
    requires Conserved(cfg.buffers, s) && s.pc.at.ErrParse? && s.pc.held.Some? && s.pc.held.value < |s.store|
    requires ch < |s.fromHost| && s.pc.ch < |s.errOld|
    ensures KeepsQueue(s, ParseErr(cfg, s, a), ch, sent)
  {
    WriteKeepsQueue(cfg.buffers, s, s.pc.held.value, ParseErr(cfg, s, a).store[s.pc.held.value], ch);
  }

  lemma ErrorKeepsQueue(cfg: Config, s: Core, a: Answer, ch: nat, sent: bool)
    requires WellFormed(cfg, s) && InError(s.pc.at) && ch < cfg.channels
    ensures KeepsQueue(s, ErrorSection(cfg, s, a), ch, sent)
  {
    HeldInRange(cfg.buffers, s);
    hide Conserved, Contents, ParseErr;
    if s.pc.at.ErrParse? {
      ParseErrKeepsQueue(cfg, s, a, ch, sent);
    } else {
      ErrorLeaves(cfg, s, a);
      hide ErrorSection, KeepsQueue;
      LeavesQueue(s, ErrorSection(cfg, s, a), ch, sent);
    }
  }

  lemma UsbBalanced(cfg: Config, s: Core, a: Answer, ch: nat, sent: bool)
    requires WellFormed(cfg, s) && Tagged(s, false) && InUsb(s.pc.at) && ch < cfg.channels
    ensures Balanced(cfg, s, UsbSection(cfg, s), Loop(a), ch, sent)
  {
    UsbKeepsQueue(cfg, s, ch, sent);
    hide UsbSection, Balanced, HeldTagged, InHand, Contents, Conserved;
    AwayBalanced(cfg, s, UsbSection(cfg, s), a, ch, sent);
  }

  lemma ReceiveBalanced(cfg: Config, s: Core, a: Answer, ch: nat, sent: bool)
    requires WellFormed(cfg, s) && Tagged(s, false) && InReceive(s.pc.at) && ch < cfg.channels
    ensures Balanced(cfg, s, ReceiveSection(cfg, s, a), Loop(a), ch, sent)
  {
    ReceiveKeepsQueue(cfg, s, a, ch, sent);
    hide ReceiveSection, Balanced, HeldTagged, InHand, Contents, Conserved;
    AwayBalanced(cfg, s, ReceiveSection(cfg, s, a), a, ch, sent);
  }

  lemma ErrorBalanced(cfg: Config, s: Core, a: Answer, ch: nat, sent: bool)
    requires WellFormed(cfg, s) && Tagged(s, false) && InError(s.pc.at) && ch < cfg.channels
    ensures Balanced(cfg, s, ErrorSection(cfg, s, a), Loop(a), ch, sent)
  {
    ErrorKeepsQueue(cfg, s, a, ch, sent);
    hide ErrorSection, Balanced, HeldTagged, InHand, Contents, Conserved;
    AwayBalanced(cfg, s, ErrorSection(cfg, s, a), a, ch, sent);
  }

  /** The interrupt does not see the frame the loop holds. */
  lemma DataOutBalanced(cfg: Config, s: Core, f: HostFrame, rxlen: nat, ch: nat, sent: bool)
    requires Conserved(cfg.buffers, s) && Tagged(s, false) && s.fromHostBuf.Some? && s.fromHostBuf.value < |s.store|
    requires |s.fromHost| == cfg.channels && ch < cfg.channels
    ensures Balanced(cfg, s, ReceiveOut(cfg, s, f, rxlen), DataOut(f, rxlen), ch, sent)
  {
    var x, e := s.fromHostBuf.value, DataOut(f, rxlen);
    var u := s.(store := s.store[x := f]);
    WriteOutTagged(cfg.buffers, s, f, false);
    WriteKeepsQueue(cfg.buffers, s, x, f, ch);
    assert InHand(u, sent) == InHand(s, sent);
    if Accepts(cfg, f, rxlen) {
      QueueOutBalanced(cfg, u, f, rxlen, ch, sent);
    } else {
      BalancedQuiet(cfg, s, u, e, ch, sent);
    }
  }

  lemma AloneBalanced(cfg: Config, s: Core, t: Core, e: Event, ch: nat, sent: bool)
    requires LeavesAlone(s, t) && ch < |s.fromHost| && !e.Loop? && !e.DataOut?
    ensures Balanced(cfg, s, t, e, ch, sent)
  {
    BalancedQuiet(cfg, s, t, e, ch, sent);
  }

  lemma LoopBalanced(cfg: Config, s: Core, a: Answer, ch: nat, sent: bool)
    requires DriverOk(cfg.driver) && WellFormed(cfg, s) && Tagged(s, false) && ch < cfg.channels
    requires |LoopStep(cfg, s, a).fromHost| == cfg.channels
    ensures Balanced(cfg, s, LoopStep(cfg, s, a), Loop(a), ch, sent)
  {
    hide Tagged, Balanced;
    if InSend(s.pc.at) { SendBalanced(cfg, s, a, ch, sent); }
    else if InUsb(s.pc.at) { UsbBalanced(cfg, s, a, ch, sent); }
    else if InReceive(s.pc.at) { ReceiveBalanced(cfg, s, a, ch, sent); }
    else { ErrorBalanced(cfg, s, a, ch, sent); }
  }

  /** The law of one channel: what comes in from the host is what goes out, to the bus or as an
      echo, and what still waits, in the order it came in. */
  lemma ChannelLaw(cfg: Config, s: Core, e: Event, ch: nat, sent: bool)
    requires DriverOk(cfg.driver) && WellFormed(cfg, s) && Tagged(s, false) && Enabled(cfg, s, e) && ch < cfg.channels
    requires |Step(cfg, s, e).fromHost| == cfg.channels
    ensures Balanced(cfg, s, Step(cfg, s, e), e, ch, sent)
  {
    HeldInRange(cfg.buffers, s);
    hide Tagged, Balanced, LoopStep, ReceiveOut, Conserved;
    match e
    case Loop(a) => LoopBalanced(cfg, s, a, ch, sent);
    case DataIn => AloneBalanced(cfg, s, CompleteIn(s), e, ch, sent);
    case DataOut(f, rxlen) => DataOutBalanced(cfg, s, f, rxlen, ch, sent);
    case Suspend => AloneBalanced(cfg, s, s.(suspended := true), e, ch, sent);
    case Resume => AloneBalanced(cfg, s, s.(suspended := false), e, ch, sent);
    case Configure => AloneBalanced(cfg, s, s.(configured := true), e, ch, sent);
  }
}
