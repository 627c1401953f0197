/** What the bridge guarantees, for every run: ownership of the buffers, order and completeness of
    the streams, and agreement between host and controller. */
module BridgeTheorems {
  import opened GsUsb
  import opened Wrappers
  import opened Bridge
  import opened BridgeSafety
  import opened BridgeStreams
  import opened BridgeErrors
  import opened BridgeRuns

  // ---------- ownership ----------

  datatype Place = Pool | FromHost(ch: nat) | ToHost | OutBuffer | InBuffer | MainLoop

  predicate IsAt(s: Core, x: nat, p: Place) {
    match p
    case Pool => x in s.pool
    case FromHost(ch) => ch < |s.fromHost| && x in s.fromHost[ch]
    case ToHost => x in s.toHost
    case OutBuffer => s.fromHostBuf == Some(x)
    case InBuffer => s.toHostBuf == Some(x)
    case MainLoop => s.pc.held == Some(x)
  }

  ghost function CopiesAt(s: Core, x: nat, p: Place): nat {
    match p
    case Pool => Copies(x, s.pool)
    case FromHost(ch) => if ch < |s.fromHost| then Copies(x, s.fromHost[ch]) else 0
    case ToHost => Copies(x, s.toHost)
    case OutBuffer => HeldCopies(x, s.fromHostBuf)
    case InBuffer => HeldCopies(x, s.toHostBuf)
    case MainLoop => HeldCopies(x, s.pc.held)
  }

  lemma {:induction false} CopiesOfAbsent(x: nat, q: seq<nat>)
    requires x !in q
    ensures Copies(x, q) == 0
  {
    if q != [] { CopiesOfAbsent(x, q[1..]); }
  }

  lemma IsAtCopies(s: Core, x: nat, p: Place)
    ensures IsAt(s, x, p) <==> CopiesAt(s, x, p) >= 1
  {
    match p
    case Pool => if x in s.pool { CopiesOfMember(x, s.pool); } else { CopiesOfAbsent(x, s.pool); }
    case FromHost(ch) =>
      if ch < |s.fromHost| {
        if x in s.fromHost[ch] { CopiesOfMember(x, s.fromHost[ch]); } else { CopiesOfAbsent(x, s.fromHost[ch]); }
      }
    case ToHost => if x in s.toHost { CopiesOfMember(x, s.toHost); } else { CopiesOfAbsent(x, s.toHost); }
    case OutBuffer =>
    case InBuffer =>
    case MainLoop =>
  }

  lemma {:induction false} TwoQueues(x: nat, qs: seq<seq<nat>>, c: nat, d: nat)
    requires c < d < |qs|
    ensures Copies(x, qs[c]) + Copies(x, qs[d]) <= QueuedCopies(x, qs)
  {
    if c == 0 {
      QueuedNone(x, qs[1..], d - 1);
    } else {
      TwoQueues(x, qs[1..], c - 1, d - 1);
    }
  }

  lemma {:induction false} SomeQueue(x: nat, qs: seq<seq<nat>>) returns (c: nat)
    requires QueuedCopies(x, qs) > 0
    ensures c < |qs| && Copies(x, qs[c]) > 0
  {
    if Copies(x, qs[0]) > 0 {
      c := 0;
    } else {
      c := SomeQueue(x, qs[1..]);
      c := c + 1;
    }
  }

  lemma TwoPlaces(s: Core, x: nat, p: Place, q: Place)
    requires p != q
    ensures CopiesAt(s, x, p) + CopiesAt(s, x, q) <= References(s, x)
  {
    if p.FromHost? && p.ch < |s.fromHost| { QueuedNone(x, s.fromHost, p.ch); }
    if q.FromHost? && q.ch < |s.fromHost| { QueuedNone(x, s.fromHost, q.ch); }
    if p.FromHost? && q.FromHost? && p.ch < |s.fromHost| && q.ch < |s.fromHost| {
      if p.ch < q.ch { TwoQueues(x, s.fromHost, p.ch, q.ch); } else { TwoQueues(x, s.fromHost, q.ch, p.ch); }
    }
  }

  lemma SomePlace(s: Core, x: nat) returns (p: Place)
    requires References(s, x) > 0
    ensures CopiesAt(s, x, p) > 0
  {
    if Copies(x, s.pool) > 0 { p := Pool; }
    else if Copies(x, s.toHost) > 0 { p := ToHost; }
    else if s.fromHostBuf == Some(x) { p := OutBuffer; }
    else if s.toHostBuf == Some(x) { p := InBuffer; }
    else if s.pc.held == Some(x) { p := MainLoop; }
    else {
      var c := SomeQueue(x, s.fromHost);
      p := FromHost(c);
    }
  }

  /** Ownership, at every point of every run: each buffer of `msgbuf` is in one place, in no other,
      only once there, and nothing else is anywhere. */
  lemma OwnedByOnePlace(cfg: Config, store: seq<HostFrame>, es: seq<Event>, x: nat)
    requires |store| == cfg.buffers
    ensures var s := RunOf(cfg, store, es).core;
            if x < cfg.buffers
            then exists p :: IsAt(s, x, p) && CopiesAt(s, x, p) == 1 && forall q :: IsAt(s, x, q) ==> q == p
            else forall q :: !IsAt(s, x, q)
  {
    var s := RunOf(cfg, store, es).core;
    assert References(s, x) == if x < cfg.buffers then 1 else 0;
    if x < cfg.buffers {
      var p := SomePlace(s, x);
      forall q | IsAt(s, x, q)
        ensures q == p
      {
        IsAtCopies(s, x, q);
        if q != p { TwoPlaces(s, x, p, q); }
      }
      IsAtCopies(s, x, p);
      TwoPlaces(s, x, p, if p.Pool? then ToHost else Pool);
      assert IsAt(s, x, p) && CopiesAt(s, x, p) == 1;
    } else {
      forall q ensures !IsAt(s, x, q) {
        IsAtCopies(s, x, q);
        TwoPlaces(s, x, q, if q.Pool? then ToHost else Pool);
      }
    }
  }

  // ---------- order and completeness ----------

  lemma RunInvariant(cfg: Config, store: seq<HostFrame>, es: seq<Event>)
    requires DriverOk(cfg.driver) && |store| == cfg.buffers
    ensures Holds(cfg, RunOf(cfg, store, es))
  {
    StartHolds(cfg, store);
    RunHolds(cfg, Start(cfg, store), es);
  }

  /** The stream to the host is a queue over all kinds of frames, with and without suspension: what
      left, what is in `to_host_buf` and what is in `list_to_host` is what was generated, in order. */
  lemma OutgoingIsFifo(cfg: Config, store: seq<HostFrame>, es: seq<Event>)
    requires DriverOk(cfg.driver) && |store| == cfg.buffers
    ensures var r := RunOf(cfg, store, es);
            r.past.generated == Frames(r.past.left) + Content(r.core.store, r.core.toHostBuf)
              + Contents(r.core.store, r.core.toHost)
  {
    RunInvariant(cfg, store, es);
    var r := RunOf(cfg, store, es);
    Associative(Frames(r.past.left), Content(r.core.store, r.core.toHostBuf), Contents(r.core.store, r.core.toHost));
  }

  /** Every host frame accepted on a channel is echoed exactly once and in order: the accepted
      messages are those of the echoes that left, the echo in `to_host_buf`, the echoes in
      `list_to_host`, the frame `CAN_SendFrame` holds and the frames in `list_from_host`. */
  lemma EchoedOnceInOrder(cfg: Config, store: seq<HostFrame>, es: seq<Event>, ch: nat)
    requires DriverOk(cfg.driver) && |store| == cfg.buffers && ch < cfg.channels
    ensures var r := RunOf(cfg, store, es);
            Pick(ch, false, r.past.accepted)
            == Pick(ch, false, Frames(r.past.left))
             + Pick(ch, false, Content(r.core.store, r.core.toHostBuf))
             + Pick(ch, false, Contents(r.core.store, r.core.toHost))
             + Pick(ch, false, InHand(r.core, false))
             + Pick(ch, false, Contents(r.core.store, r.core.fromHost[ch]))
  {
    RunInvariant(cfg, store, es);
    OutgoingIsFifo(cfg, store, es);
    var r := RunOf(cfg, store, es);
    var s := r.core;
    assert ChannelHolds(r, ch, false);
    var left, buf, queue := Frames(r.past.left), Content(s.store, s.toHostBuf), Contents(s.store, s.toHost);
    PickJoin(ch, false, left + buf, queue);
    PickJoin(ch, false, left, buf);
    PickJoin(ch, false, InHand(s, false), Contents(s.store, s.fromHost[ch]));
    Associative(Pick(ch, false, r.past.generated), Pick(ch, false, InHand(s, false)),
      Pick(ch, false, Contents(s.store, s.fromHost[ch])));
  }

  /** A failed `can_send` puts the frame back at the head while `DataOut` appends at the tail; still
      every channel hands its frames to the controller exactly once and in order. */
  lemma SentOnceInOrder(cfg: Config, store: seq<HostFrame>, es: seq<Event>, ch: nat)
    requires DriverOk(cfg.driver) && |store| == cfg.buffers && ch < cfg.channels
    ensures var r := RunOf(cfg, store, es);
            Pick(ch, true, r.past.accepted)
            == Pick(ch, true, r.past.bus) + Pick(ch, true, InHand(r.core, true))
             + Pick(ch, true, Contents(r.core.store, r.core.fromHost[ch]))
  {
    RunInvariant(cfg, store, es);
    var r := RunOf(cfg, store, es);
    assert ChannelHolds(r, ch, true);
    PickJoin(ch, true, InHand(r.core, true), Contents(r.core.store, r.core.fromHost[ch]));
    Associative(Pick(ch, true, r.past.bus), Pick(ch, true, InHand(r.core, true)),
      Pick(ch, true, Contents(r.core.store, r.core.fromHost[ch])));
  }

  // ---------- delivery and suspension ----------

  function Delivered(os: seq<Outcome>): seq<HostFrame> {
    if os == [] then [] else (if os[0].delivered then [os[0].frame] else []) + Delivered(os[1..])
  }

  /** `a` is `b` with some elements left out. */
  predicate Subsequence<T(==)>(a: seq<T>, b: seq<T>) {
    a == [] || (b != [] && ((a[0] == b[0] && Subsequence(a[1..], b[1..])) || Subsequence(a, b[1..])))
  }

  lemma SubsequencePut<T>(x: T, a: seq<T>, b: seq<T>)
    requires Subsequence(a, b)
    ensures Subsequence(a, [x] + b) && Subsequence([x] + a, [x] + b)
  {
    assert ([x] + b)[1..] == b && ([x] + a)[1..] == a;
  }

  lemma {:induction false} DeliveredSubsequence(os: seq<Outcome>, rest: seq<HostFrame>)
    ensures Subsequence(Delivered(os), Frames(os) + rest)
  {
    if os != [] {
      var f, b := os[0].frame, Frames(os[1..]) + rest;
      DeliveredSubsequence(os[1..], rest);
      assert Frames(os) + rest == [f] + b;
      SubsequencePut(f, Delivered(os[1..]), b);
      assert Delivered(os) == if os[0].delivered then [f] + Delivered(os[1..]) else Delivered(os[1..]);
    }
  }

  /** Under any pattern of suspend and resume, the host receives a subsequence of what was
      generated: nothing is reordered or delivered twice. */
  lemma DeliveryKeepsOrder(cfg: Config, store: seq<HostFrame>, es: seq<Event>)
    requires DriverOk(cfg.driver) && |store| == cfg.buffers
    ensures var r := RunOf(cfg, store, es); Subsequence(Delivered(r.past.left), r.past.generated)
  {
    RunInvariant(cfg, store, es);
    var r := RunOf(cfg, store, es);
    DeliveredSubsequence(r.past.left, Outgoing(r.core));
  }

  predicate AllDelivered(os: seq<Outcome>) {
    forall o :: o in os ==> o.delivered
  }

  lemma {:induction false} AllDeliveredFrames(os: seq<Outcome>)
    requires AllDelivered(os)
    ensures Delivered(os) == Frames(os)
  {
    if os != [] {
      assert os[0] in os;
      AllDeliveredFrames(os[1..]);
    }
  }

  lemma {:induction false} AwakeRun(cfg: Config, r: Run, es: seq<Event>)
    requires WellFormed(cfg, r.core)
    requires Suspend !in es && !r.core.suspended && !r.core.pc.at.InDrop? && AllDelivered(r.past.left)
    ensures AllDelivered(RunFrom(cfg, r, es).past.left)
    decreases es
  {
    if es != [] {
      AwakeStep(cfg, r, es[0]);
      AdvanceKeepsWellFormed(cfg, r, es[0]);
      AwakeRun(cfg, Advance(cfg, r, es[0]), es[1..]);
    }
  }

  lemma AwakeStep(cfg: Config, r: Run, e: Event)
    requires WellFormed(cfg, r.core) && e != Suspend
    requires !r.core.suspended && !r.core.pc.at.InDrop? && AllDelivered(r.past.left)
    ensures var q := Advance(cfg, r, e); !q.core.suspended && !q.core.pc.at.InDrop? && AllDelivered(q.past.left)
  {
    if Enabled(cfg, r.core, e) {
      HeldInRange(cfg.buffers, r.core);
      if e.Loop? { AwakeLoop(cfg, r.core, e.a); }
    }
  }

  lemma AwakeLoop(cfg: Config, s: Core, a: Answer)
    requires WellFormed(cfg, s) && !s.suspended && !s.pc.at.InDrop?
    ensures var t := LoopStep(cfg, s, a); !t.suspended && !t.pc.at.InDrop?
  {
    HeldInRange(cfg.buffers, s);
    if InSend(s.pc.at) { AwakeSend(cfg, s, a); }
    else if InReceive(s.pc.at) { ReceiveTouches(cfg, s, a); }
    else if InError(s.pc.at) { ErrorTouches(cfg, s, a); }
  }

  lemma AwakeSend(cfg: Config, s: Core, a: Answer)
    requires WellFormed(cfg, s) && InSend(s.pc.at)
    ensures var t := SendSection(cfg, s, a); t.suspended == s.suspended && !t.pc.at.InDrop?
  {
    HeldInRange(cfg.buffers, s);
    hide Conserved;
    match s.pc.at
    case SendTake => assert SendSection(cfg, s, a) == TakeToSend(cfg, s);
    case SendTry => assert SendSection(cfg, s, a) == TrySend(cfg, s, a);
    case SendBack => assert SendSection(cfg, s, a) == PutBack(cfg, s);
    case SendEcho => assert SendSection(cfg, s, a) == QueueHeld(s, AfterSend(cfg, s.pc.ch));
  }

  /** What the last suspend or resume among some events says. */
  function SuspendedAfter(before: bool, es: seq<Event>): bool
    decreases es
  {
    if es == [] then before
    else SuspendedAfter(if es[0].Suspend? then true else if es[0].Resume? then false else before, es[1..])
  }

  lemma LoopSuspends(cfg: Config, s: Core, a: Answer)
    requires WellFormed(cfg, s)
    ensures LoopStep(cfg, s, a).suspended == s.suspended
  {
    HeldInRange(cfg.buffers, s);
    if InSend(s.pc.at) { AwakeSend(cfg, s, a); }
    else if InReceive(s.pc.at) { ReceiveTouches(cfg, s, a); }
    else if InError(s.pc.at) { ErrorTouches(cfg, s, a); }
  }

  lemma AdvanceSuspends(cfg: Config, r: Run, e: Event)
    requires WellFormed(cfg, r.core)
    ensures Advance(cfg, r, e).core.suspended == SuspendedAfter(r.core.suspended, [e])
  {
    HeldInRange(cfg.buffers, r.core);
    if e.Loop? { LoopSuspends(cfg, r.core, e.a); }
    assert [e][1..] == [];
    hide WellFormed, LoopStep;
  }

  /** `is_usb_suspend_cb` tells at every point of every run whether the bus was suspended last or resumed. */
  lemma {:induction false} SuspendedIff(cfg: Config, r: Run, es: seq<Event>)
    requires WellFormed(cfg, r.core)
    ensures RunFrom(cfg, r, es).core.suspended == SuspendedAfter(r.core.suspended, es)
    decreases es
  {
    if es != [] {
      AdvanceKeepsWellFormed(cfg, r, es[0]);
      AdvanceSuspends(cfg, r, es[0]);
      assert [es[0]][1..] == [];
      hide WellFormed, Advance;
      SuspendedIff(cfg, Advance(cfg, r, es[0]), es[1..]);
    }
  }

  /** Without suspension no frame is dropped: what was generated has been delivered or is under way. */
  lemma NothingDroppedAwake(cfg: Config, store: seq<HostFrame>, es: seq<Event>)
    requires DriverOk(cfg.driver) && |store| == cfg.buffers && Suspend !in es
    ensures var r := RunOf(cfg, store, es); r.past.generated == Delivered(r.past.left) + Outgoing(r.core)
  {
    RunInvariant(cfg, store, es);
    AwakeRun(cfg, Start(cfg, store), es);
    AllDeliveredFrames(RunOf(cfg, store, es).past.left);
  }

  // ---------- error state ----------

  /** After every run, a host that has read all generated frames believes exactly what the last
      parsed status word of the channel says, however many readings were skipped. */
  lemma HostAgreesWithController(cfg: Config, store: seq<HostFrame>, es: seq<Event>, ch: nat)
    requires DriverOk(cfg.driver) && |store| == cfg.buffers && ch < cfg.channels
    requires Polite(RunOf(cfg, store, es))
    ensures var r := RunOf(cfg, store, es);
            Believes(ch, true, r.past.generated + PendingError(r.core)) == cfg.driver.active(r.core.errOld[ch])
  {
    RunInvariant(cfg, store, es);
    var r := RunOf(cfg, store, es);
    assert AgreementHolds(cfg, r, ch);
    BelievesJoin(ch, true, r.past.generated, PendingError(r.core));
  }

  /** Without suspension, once the bridge has drained, the frames the host really received leave it
      in that agreement. */
  lemma DrainedHostAgrees(cfg: Config, store: seq<HostFrame>, es: seq<Event>, ch: nat)
    requires DriverOk(cfg.driver) && |store| == cfg.buffers && ch < cfg.channels
    requires var r := RunOf(cfg, store, es);
             Polite(r) && Suspend !in es && Outgoing(r.core) == [] && !r.core.pc.at.ErrQueue?
    ensures var r := RunOf(cfg, store, es);
            Believes(ch, true, Delivered(r.past.left)) == cfg.driver.active(r.core.errOld[ch])
  {
    HostAgreesWithController(cfg, store, es, ch);
    NothingDroppedAwake(cfg, store, es);
    var r := RunOf(cfg, store, es);
    assert r.past.generated + [] == Delivered(r.past.left);
  }
}
