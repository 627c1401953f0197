/** Ownership, conservation and the transfer discipline hold at every point of every run. */
module BridgeSafety {
  import opened GsUsb
  import opened Wrappers
  import opened Bridge

  // ---------- counting references ----------

  lemma CopiesOne(x: nat, h: nat)
    ensures Copies(x, [h]) == HeldCopies(x, Some(h))
  {}

  lemma {:induction false} CopiesJoin(x: nat, p: seq<nat>, q: seq<nat>)
    ensures Copies(x, p + q) == Copies(x, p) + Copies(x, q)
  {
    if p == [] {
      assert p + q == q;
    } else {
      CopiesJoin(x, p[1..], q);
      assert (p + q)[1..] == p[1..] + q;
    }
  }

  /** Taking the first buffer off a queue. */
  lemma CopiesTake(x: nat, q: seq<nat>)
    requires q != []
    ensures Copies(x, q) == HeldCopies(x, Some(q[0])) + Copies(x, q[1..])
  {}

  /** Putting a buffer at the end, or back at the front. */
  lemma CopiesPut(x: nat, q: seq<nat>, h: nat)
    ensures Copies(x, q + [h]) == Copies(x, q) + HeldCopies(x, Some(h))
    ensures Copies(x, [h] + q) == Copies(x, q) + HeldCopies(x, Some(h))
  {
    CopiesOne(x, h);
    CopiesJoin(x, q, [h]);
    CopiesJoin(x, [h], q);
  }

  lemma {:induction false} QueuedUpdate(x: nat, qs: seq<seq<nat>>, c: nat, q: seq<nat>)
    requires c < |qs|
    ensures QueuedCopies(x, qs[c := q]) == QueuedCopies(x, qs) - Copies(x, qs[c]) + Copies(x, q)
  {
    if c == 0 {
      assert qs[0 := q][1..] == qs[1..];
    } else {
      QueuedUpdate(x, qs[1..], c - 1, q);
      assert qs[c := q][1..] == qs[1..][c - 1 := q];
    }
  }

  lemma {:induction false} QueuedEmpty(x: nat, qs: seq<seq<nat>>)
    requires forall i :: 0 <= i < |qs| ==> qs[i] == []
    ensures QueuedCopies(x, qs) == 0
  {
    if qs != [] {
      assert qs[0] == [];
      QueuedEmpty(x, qs[1..]);
    }
  }

  lemma {:induction false} CountUp(x: nat, q: seq<nat>)
    requires forall i :: 0 <= i < |q| ==> q[i] == i
    ensures Copies(x, q) == if x < |q| then 1 else 0
  {
    if q != [] {
      var n := |q| - 1;
      CountUp(x, q[..n]);
      CopiesPut(x, q[..n], n);
      assert q == q[..n] + [n];
    }
  }

  // ---------- one section moves one buffer ----------

  lemma PoolTakeConserves(s: Core, p: Point, miss: Pc, x: nat)
    requires s.pc.held == miss.held == None
    ensures References(PoolTake(s, p, miss), x) == References(s, x)
  {
    if s.pool != [] { CopiesTake(x, s.pool); }
  }

  lemma PoolReturnConserves(s: Core, next: Pc, x: nat)
    requires s.pc.held.Some? && next.held == None
    ensures References(PoolReturn(s, next), x) == References(s, x)
  {
    CopiesPut(x, s.pool, s.pc.held.value);
  }

  lemma QueueHeldConserves(s: Core, next: Pc, x: nat)
    requires s.pc.held.Some? && next.held == None
    ensures References(QueueHeld(s, next), x) == References(s, x)
  {
    CopiesPut(x, s.toHost, s.pc.held.value);
  }

  lemma TakeToSendConserves(cfg: Config, s: Core, x: nat)
    requires s.pc.ch < |s.fromHost| && s.pc.held == None
    ensures References(TakeToSend(cfg, s), x) == References(s, x)
  {
    var q := s.fromHost[s.pc.ch];
    if q != [] {
      CopiesTake(x, q);
      QueuedUpdate(x, s.fromHost, s.pc.ch, q[1..]);
    }
  }

  lemma PutBackConserves(cfg: Config, s: Core, x: nat)
    requires s.pc.held.Some? && s.pc.ch < |s.fromHost|
    ensures References(PutBack(cfg, s), x) == References(s, x)
  {
    var q := s.fromHost[s.pc.ch];
    CopiesPut(x, q, s.pc.held.value);
    QueuedUpdate(x, s.fromHost, s.pc.ch, [s.pc.held.value] + q);
  }

  lemma TakeForOutConserves(s: Core, x: nat)
    requires s.pc.held == None
    ensures References(TakeForOut(s), x) == References(s, x)
  {
    if s.fromHostBuf == None && s.pool != [] {
      CopiesTake(x, s.pool);
      assert TakeForOut(s).pool == s.pool[1..];
    }
  }

  lemma TakeForInConserves(cfg: Config, s: Core, x: nat)
    requires s.pc.held == None
    ensures References(TakeForIn(cfg, s), x) == References(s, x)
  {
    if s.toHostBuf == None && s.toHost != [] {
      CopiesTake(x, s.toHost);
      assert TakeForIn(cfg, s).toHost == s.toHost[1..];
    }
  }

  lemma DropInConserves(cfg: Config, s: Core, x: nat)
    requires s.pc.held == None && s.toHostBuf.Some?
    ensures References(DropIn(cfg, s), x) == References(s, x)
  {
    CopiesPut(x, s.pool, s.toHostBuf.value);
  }

  lemma QueueOutConserves(s: Core, ch: nat, x: nat)
    requires s.fromHostBuf.Some? && ch < |s.fromHost|
    ensures References(QueueOut(s, ch), x) == References(s, x)
  {
    CopiesPut(x, s.fromHost[ch], s.fromHostBuf.value);
    QueuedUpdate(x, s.fromHost, ch, s.fromHost[ch] + [s.fromHostBuf.value]);
    if s.pool != [] { CopiesTake(x, s.pool); }
  }

  lemma CompleteInConserves(s: Core, x: nat)
    requires s.toHostBuf.Some?
    ensures References(CompleteIn(s), x) == References(s, x)
  {
    CopiesPut(x, s.pool, s.toHostBuf.value);
  }

  lemma SendConserves(cfg: Config, s: Core, a: Answer, x: nat)
    requires WellFormed(cfg, s) && InSend(s.pc.at)
    ensures References(SendSection(cfg, s, a), x) == References(s, x)
  {
    HeldInRange(cfg.buffers, s);
    match s.pc.at
    case SendTake => TakeToSendConserves(cfg, s, x);
    case SendTry =>
    case SendBack => PutBackConserves(cfg, s, x);
    case SendEcho => QueueHeldConserves(s, AfterSend(cfg, s.pc.ch), x);
  }

  lemma UsbConserves(cfg: Config, s: Core, x: nat)
    requires WellFormed(cfg, s) && InUsb(s.pc.at)
    ensures References(UsbSection(cfg, s), x) == References(s, x)
  {
    match s.pc.at
    case OutTake => TakeForOutConserves(s, x);
    case OutArm =>
    case InTake => TakeForInConserves(cfg, s, x);
    case InTransmit =>
    case InDrop => DropInConserves(cfg, s, x);
  }

  lemma SamePlaces(s: Core, t: Core, x: nat)
    requires t.pool == s.pool && t.fromHost == s.fromHost && t.toHost == s.toHost
    requires t.fromHostBuf == s.fromHostBuf && t.toHostBuf == s.toHostBuf && t.pc.held == s.pc.held
    ensures References(t, x) == References(s, x)
  {}

  lemma ReceiveConserves(cfg: Config, s: Core, a: Answer, x: nat)
    requires WellFormed(cfg, s) && InReceive(s.pc.at)
    ensures References(ReceiveSection(cfg, s, a), x) == References(s, x)
  {
    HeldInRange(cfg.buffers, s);
    match s.pc.at
    case RxCheck =>
    case RxTake => PoolTakeConserves(s, RxRead, At(ErrCheck, s.pc.ch), x);
    case RxRead => SamePlaces(s, ReadRx(s, a), x);
    case RxBack => PoolReturnConserves(s, At(ErrCheck, s.pc.ch), x);
    case RxQueue => QueueHeldConserves(s, At(ErrCheck, s.pc.ch), x);
  }

  lemma ErrorConserves(cfg: Config, s: Core, a: Answer, x: nat)
    requires WellFormed(cfg, s) && InError(s.pc.at)
    ensures References(ErrorSection(cfg, s, a), x) == References(s, x)
  {
    HeldInRange(cfg.buffers, s);
    match s.pc.at
    case ErrCheck =>
    case ErrTake => PoolTakeConserves(s, ErrParse, AfterError(cfg, s.pc.ch), x);
    case ErrParse =>
    case ErrBack => PoolReturnConserves(s, AfterError(cfg, s.pc.ch), x);
    case ErrQueue => QueueHeldConserves(s, AfterError(cfg, s.pc.ch), x);
  }

  lemma LoopConserves(cfg: Config, s: Core, a: Answer, x: nat)
    requires WellFormed(cfg, s)
    ensures References(LoopStep(cfg, s, a), x) == References(s, x)
  {
    if InSend(s.pc.at) { SendConserves(cfg, s, a, x); }
    else if InUsb(s.pc.at) { UsbConserves(cfg, s, x); }
    else if InReceive(s.pc.at) { ReceiveConserves(cfg, s, a, x); }
    else { ErrorConserves(cfg, s, a, x); }
  }

  /** No step loses or duplicates a buffer. */
  lemma StepConserves(cfg: Config, s: Core, e: Event, x: nat)
    requires WellFormed(cfg, s) && Enabled(cfg, s, e)
    ensures References(Step(cfg, s, e), x) == References(s, x)
  {
    match e
    case Loop(a) => LoopConserves(cfg, s, a, x);
    case DataIn => CompleteInConserves(s, x);
    case DataOut(f, rxlen) =>
      HeldInRange(cfg.buffers, s);
      if Accepts(cfg, f, rxlen) {
        QueueOutConserves(s.(store := s.store[s.fromHostBuf.value := f]), f.channel, x);
      }
    case Suspend =>
    case Resume =>
    case Configure =>
  }

  // ---------- the invariant ----------

  ghost predicate Shape(cfg: Config, s: Core) {
    && |s.store| == cfg.buffers
    && |s.fromHost| == |s.errOld| == cfg.channels
    && PcOk(cfg, s.pc)
    && TransfersOk(s)
  }

  lemma SendTakeKeepsShape(cfg: Config, s: Core, a: Answer)
    requires WellFormed(cfg, s) && s.pc.at.SendTake?
    ensures Shape(cfg, SendSection(cfg, s, a))
  {
    hide Conserved;
    assert SendSection(cfg, s, a) == TakeToSend(cfg, s);
  }

  lemma SendTryKeepsShape(cfg: Config, s: Core, a: Answer)
    requires WellFormed(cfg, s) && s.pc.at.SendTry?
    ensures Shape(cfg, SendSection(cfg, s, a))
  {
    HeldInRange(cfg.buffers, s);
    hide Conserved;
    assert SendSection(cfg, s, a) == TrySend(cfg, s, a);
  }

  lemma SendLateKeepsShape(cfg: Config, s: Core, a: Answer)
    requires WellFormed(cfg, s) && (s.pc.at.SendBack? || s.pc.at.SendEcho?)
    ensures Shape(cfg, SendSection(cfg, s, a))
  {
    HeldInRange(cfg.buffers, s);
  }

  lemma UsbEarlyKeepsShape(cfg: Config, s: Core)
    requires WellFormed(cfg, s) && (s.pc.at.OutTake? || s.pc.at.OutArm?)
    ensures Shape(cfg, UsbSection(cfg, s))
  {
    HeldInRange(cfg.buffers, s);
  }

  lemma UsbLateKeepsShape(cfg: Config, s: Core)
    requires WellFormed(cfg, s) && (s.pc.at.InTake? || s.pc.at.InTransmit? || s.pc.at.InDrop?)
    ensures Shape(cfg, UsbSection(cfg, s))
  {
    HeldInRange(cfg.buffers, s);
  }

  lemma ReceiveEarlyKeepsShape(cfg: Config, s: Core, a: Answer)
    requires WellFormed(cfg, s) && (s.pc.at.RxCheck? || s.pc.at.RxTake?)
    ensures Shape(cfg, ReceiveSection(cfg, s, a))
  {
    hide Conserved, References;
    HeldInRange(cfg.buffers, s);
  }

  lemma ReceiveLateKeepsShape(cfg: Config, s: Core, a: Answer)
    requires WellFormed(cfg, s) && (s.pc.at.RxRead? || s.pc.at.RxBack? || s.pc.at.RxQueue?)
    ensures Shape(cfg, ReceiveSection(cfg, s, a))
  {
    HeldInRange(cfg.buffers, s);
  }

  lemma ErrCheckKeepsShape(cfg: Config, s: Core, a: Answer)
    requires WellFormed(cfg, s) && s.pc.at.ErrCheck?
    ensures Shape(cfg, ErrorSection(cfg, s, a))
  {
    hide Conserved;
    assert ErrorSection(cfg, s, a) == CheckErr(cfg, s, a);
  }

  lemma ErrTakeKeepsShape(cfg: Config, s: Core, a: Answer)
    requires WellFormed(cfg, s) && s.pc.at.ErrTake?
    ensures Shape(cfg, ErrorSection(cfg, s, a))
  {
    hide Conserved;
    assert ErrorSection(cfg, s, a) == PoolTake(s, ErrParse, AfterError(cfg, s.pc.ch));
  }

  lemma ErrorLateKeepsShape(cfg: Config, s: Core, a: Answer)
    requires WellFormed(cfg, s) && (s.pc.at.ErrParse? || s.pc.at.ErrBack? || s.pc.at.ErrQueue?)
    ensures Shape(cfg, ErrorSection(cfg, s, a))
  {
    HeldInRange(cfg.buffers, s);
  }

  lemma LoopKeepsShape(cfg: Config, s: Core, a: Answer)
    requires WellFormed(cfg, s)
    ensures Shape(cfg, LoopStep(cfg, s, a))
  {
    match s.pc.at
    case SendTake => SendTakeKeepsShape(cfg, s, a);
    case SendTry => SendTryKeepsShape(cfg, s, a);
    case SendBack => SendLateKeepsShape(cfg, s, a);
    case SendEcho => SendLateKeepsShape(cfg, s, a);
    case OutTake => UsbEarlyKeepsShape(cfg, s);
    case OutArm => UsbEarlyKeepsShape(cfg, s);
    case InTake => UsbLateKeepsShape(cfg, s);
    case InTransmit => UsbLateKeepsShape(cfg, s);
    case InDrop => UsbLateKeepsShape(cfg, s);
    case RxCheck => ReceiveEarlyKeepsShape(cfg, s, a);
    case RxTake => ReceiveEarlyKeepsShape(cfg, s, a);
    case RxRead => ReceiveLateKeepsShape(cfg, s, a);
    case RxBack => ReceiveLateKeepsShape(cfg, s, a);
    case RxQueue => ReceiveLateKeepsShape(cfg, s, a);
    case ErrCheck => ErrCheckKeepsShape(cfg, s, a);
    case ErrTake => ErrTakeKeepsShape(cfg, s, a);
    case ErrParse => ErrorLateKeepsShape(cfg, s, a);
    case ErrBack => ErrorLateKeepsShape(cfg, s, a);
    case ErrQueue => ErrorLateKeepsShape(cfg, s, a);
  }

  /** Every step keeps conservation and the transfer discipline, whatever the peripherals answer
      and wherever the interrupt comes. */
  lemma StepKeepsWellFormed(cfg: Config, s: Core, e: Event)
    requires WellFormed(cfg, s) && Enabled(cfg, s, e)
    ensures WellFormed(cfg, Step(cfg, s, e))
  {
    hide References, LoopStep;
    var t := Step(cfg, s, e);
    forall x: nat
      ensures References(t, x) == if x < cfg.buffers then 1 else 0
    {
      StepConserves(cfg, s, e, x);
    }
    if e.Loop? {
      LoopKeepsShape(cfg, s, e.a);
    } else {
      HeldInRange(cfg.buffers, s);
      assert Shape(cfg, t);
    }
  }

  lemma InitWellFormed(cfg: Config, store: seq<HostFrame>)
    requires |store| == cfg.buffers
    ensures WellFormed(cfg, Init(cfg, store))
  {
    var s := Init(cfg, store);
    forall x: nat
      ensures References(s, x) == if x < cfg.buffers then 1 else 0
    {
      QueuedEmpty(x, s.fromHost);
      CountUp(x, s.pool);
    }
  }

  /** What the sections of `CAN_ReceiveFrame` and `CAN_HandleError` leave alone. */
  ghost predicate OnlyReceives(s: Core, t: Core) {
    && t.fromHost == s.fromHost && t.fromHostBuf == s.fromHostBuf && t.toHostBuf == s.toHostBuf
    && t.outArmed == s.outArmed && t.inFlight == s.inFlight && t.suspended == s.suspended
      && t.configured == s.configured
  }

  lemma ReceiveTouches(cfg: Config, s: Core, a: Answer)
    requires WellFormed(cfg, s) && InReceive(s.pc.at)
    ensures var t := ReceiveSection(cfg, s, a);
            && OnlyReceives(s, t)
            && (InReceive(t.pc.at) || t.pc.at.ErrCheck?)
            && |t.toHost| == |s.toHost| + if s.pc.at.RxQueue? then 1 else 0
  {
    hide References;
    HeldInRange(cfg.buffers, s);
    hide Conserved, Copies, QueuedCopies, TransfersOk;
    match s.pc.at
    case RxCheck =>
    case RxTake =>
    case RxRead =>
    case RxBack =>
    case RxQueue =>
  }

  lemma ErrorTouches(cfg: Config, s: Core, a: Answer)
    requires WellFormed(cfg, s) && InError(s.pc.at)
    ensures var t := ErrorSection(cfg, s, a);
            && OnlyReceives(s, t)
            && (InError(t.pc.at) || t.pc.at.RxCheck? || t.pc == LoopTop(cfg))
            && |t.toHost| == |s.toHost| + if s.pc.at.ErrQueue? then 1 else 0
  {
    hide Conserved, References, Copies, QueuedCopies, HeldCopies, PcOk;
    HeldInRange(cfg.buffers, s);
    match s.pc.at
    case ErrCheck =>
    case ErrTake =>
    case ErrParse =>
    case ErrBack =>
    case ErrQueue =>
  }
}
