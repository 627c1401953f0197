/** The bridge drains: a measure of the outstanding work goes down by one with every productive
    step, goes up only with new input, and a pass of the main loop that makes no progress is only
    waiting for the host.
  */
module BridgeDrain {
  import opened GsUsb
  import opened Wrappers
  import opened Bridge
  import opened BridgeSafety
  import opened BridgeStreams
  import opened BridgeRuns

  function Total(qs: seq<seq<nat>>): nat {
    if qs == [] then 0 else |qs[0]| + Total(qs[1..])
  }

  function Units(o: Option<nat>): nat {
    if o.Some? then 1 else 0
  }

  /** Steps still to be made for what is in the bridge: a host frame must be sent and echoed, go to
      `to_host_buf`, and be collected; a frame for the host has two of these three to go. */
  function Work(s: Core): nat {
    3 * Total(s.fromHost) + (if InSend(s.pc.at) then 3 * Units(s.pc.held) else 0) + 2 * |s.toHost| + Units(s.toHostBuf)
  }

  /** A frame gets one stage further. */
  predicate Productive(s: Core, e: Event) {
    || (e.Loop? && s.pc.at.SendEcho?)
    || (e.Loop? && s.pc.at.InTake? && s.toHostBuf.None? && s.toHost != [])
    || (e.Loop? && s.pc.at.InDrop?)
    || e.DataIn?
  }

  /** New input from the host, the CAN bus or the error status. */
  function Supplied(cfg: Config, s: Core, e: Event): nat {
    3 * |AcceptedBy(cfg, e)| + if e.Loop? && (s.pc.at.RxQueue? || s.pc.at.ErrQueue?) then 2 else 0
  }

  function Progress(s: Core, e: Event): nat {
    if Productive(s, e) then 1 else 0
  }

  lemma {:induction false} TotalUpdate(qs: seq<seq<nat>>, c: nat, q: seq<nat>)
    requires c < |qs|
    ensures Total(qs[c := q]) == Total(qs) - |qs[c]| + |q|
  {
    if c == 0 {
      assert qs[0 := q][1..] == qs[1..];
    } else {
      TotalUpdate(qs[1..], c - 1, q);
      assert qs[c := q][1..] == qs[1..][c - 1 := q];
    }
  }

  lemma TakeToSendWork(cfg: Config, s: Core)
    requires s.pc.ch < |s.fromHost| && s.pc.at.SendTake? && s.pc.held == None
    ensures Work(TakeToSend(cfg, s)) == Work(s)
  {
    var q := s.fromHost[s.pc.ch];
    if q != [] {
      TotalUpdate(s.fromHost, s.pc.ch, q[1..]);
    }
  }

  lemma PutBackWork(cfg: Config, s: Core)
    requires s.pc.ch < |s.fromHost| && s.pc.at.SendBack? && s.pc.held.Some?
    ensures Work(PutBack(cfg, s)) == Work(s)
  {
    TotalUpdate(s.fromHost, s.pc.ch, [s.pc.held.value] + s.fromHost[s.pc.ch]);
  }

  lemma SendWork(cfg: Config, s: Core, a: Answer)
    requires WellFormed(cfg, s) && InSend(s.pc.at)
    ensures Work(SendSection(cfg, s, a)) + Progress(s, Loop(a)) == Work(s)
  {
    HeldInRange(cfg.buffers, s);
    match s.pc.at
    case SendTake => TakeToSendWork(cfg, s);
    case SendTry =>
    case SendBack => PutBackWork(cfg, s);
    case SendEcho =>
  }

  lemma UsbWork(cfg: Config, s: Core, a: Answer)
    requires WellFormed(cfg, s) && InUsb(s.pc.at)
    ensures Work(UsbSection(cfg, s)) + Progress(s, Loop(a)) == Work(s)
  {}

  lemma ReceiveWork(cfg: Config, s: Core, a: Answer)
    requires WellFormed(cfg, s) && InReceive(s.pc.at)
    ensures Work(ReceiveSection(cfg, s, a)) == Work(s) + Supplied(cfg, s, Loop(a))
  {
    ReceiveTouches(cfg, s, a);
    hide ReceiveSection, Conserved, TransfersOk;
  }

  lemma ErrorWork(cfg: Config, s: Core, a: Answer)
    requires WellFormed(cfg, s) && InError(s.pc.at)
    ensures Work(ErrorSection(cfg, s, a)) == Work(s) + Supplied(cfg, s, Loop(a))
  {
    ErrorTouches(cfg, s, a);
    hide ErrorSection, Conserved, TransfersOk;
  }

  lemma QueueOutWork(s: Core, ch: nat)
    requires s.fromHostBuf.Some? && ch < |s.fromHost|
    ensures Work(QueueOut(s, ch)) == Work(s) + 3
  {
    hide Units;
    TotalUpdate(s.fromHost, ch, s.fromHost[ch] + [s.fromHostBuf.value]);
  }

  lemma LoopWork(cfg: Config, s: Core, a: Answer)
    requires WellFormed(cfg, s)
    ensures Work(LoopStep(cfg, s, a)) + Progress(s, Loop(a)) == Work(s) + Supplied(cfg, s, Loop(a))
  {
    hide Work, Conserved;
    if InSend(s.pc.at) { SendWork(cfg, s, a); }
    else if InUsb(s.pc.at) { UsbWork(cfg, s, a); }
    else if InReceive(s.pc.at) { ReceiveWork(cfg, s, a); }
    else { ErrorWork(cfg, s, a); }
  }

  lemma DataInWork(cfg: Config, s: Core)
    requires s.toHostBuf.Some?
    ensures Work(CompleteIn(s)) + Progress(s, DataIn) == Work(s) + Supplied(cfg, s, DataIn)
  {}

  lemma DataOutWork(cfg: Config, s: Core, f: HostFrame, rxlen: nat)
    requires s.fromHostBuf.Some? && s.fromHostBuf.value < |s.store| && |s.fromHost| == cfg.channels
    ensures Work(ReceiveOut(cfg, s, f, rxlen)) + Progress(s, DataOut(f, rxlen))
         == Work(s) + Supplied(cfg, s, DataOut(f, rxlen))
  {
    if Accepts(cfg, f, rxlen) {
      QueueOutWork(s.(store := s.store[s.fromHostBuf.value := f]), f.channel);
    }
  }

  lemma NoWork(cfg: Config, s: Core, t: Core, e: Event)
    requires t == s.(suspended := t.suspended, configured := t.configured)
    requires e.Suspend? || e.Resume? || e.Configure?
    ensures Work(t) + Progress(s, e) == Work(s) + Supplied(cfg, s, e)
  {}

  /** Exact account of one step: what is left plus what was done is what there was plus what came. */
  lemma WorkLaw(cfg: Config, s: Core, e: Event)
    requires WellFormed(cfg, s) && Enabled(cfg, s, e)
    ensures Work(Step(cfg, s, e)) + Progress(s, e) == Work(s) + Supplied(cfg, s, e)
  {
    HeldInRange(cfg.buffers, s);
    hide Work, Progress, Supplied, LoopStep, ReceiveOut, CompleteIn, Conserved;
    match e
    case Loop(a) => LoopWork(cfg, s, a);
    case DataIn => DataInWork(cfg, s);
    case DataOut(f, rxlen) => DataOutWork(cfg, s, f, rxlen);
    case Suspend => NoWork(cfg, s, s.(suspended := true), e);
    case Resume => NoWork(cfg, s, s.(suspended := false), e);
    case Configure => NoWork(cfg, s, s.(configured := true), e);
  }

  // ---------- over a run ----------

  function ProgressOf(cfg: Config, r: Run, es: seq<Event>): nat
    requires WellFormed(cfg, r.core)
    decreases es
  {
    if es == [] then 0
    else
      AdvanceKeepsWellFormed(cfg, r, es[0]);
      (if Enabled(cfg, r.core, es[0]) then Progress(r.core, es[0]) else 0)
        + ProgressOf(cfg, Advance(cfg, r, es[0]), es[1..])
  }

  function SuppliedOf(cfg: Config, r: Run, es: seq<Event>): nat
    requires WellFormed(cfg, r.core)
    decreases es
  {
    if es == [] then 0
    else
      AdvanceKeepsWellFormed(cfg, r, es[0]);
      (if Enabled(cfg, r.core, es[0]) then Supplied(cfg, r.core, es[0]) else 0)
        + SuppliedOf(cfg, Advance(cfg, r, es[0]), es[1..])
  }

  /** Over any stretch of any run, the productive steps made and the work left are together the work
      there was and the work that came in. */
  lemma {:induction false} WorkAccount(cfg: Config, r: Run, es: seq<Event>)
    requires WellFormed(cfg, r.core)
    ensures Work(RunFrom(cfg, r, es).core) + ProgressOf(cfg, r, es) == Work(r.core) + SuppliedOf(cfg, r, es)
    decreases es
  {
    if es != [] {
      AdvanceKeepsWellFormed(cfg, r, es[0]);
      if Enabled(cfg, r.core, es[0]) { WorkLaw(cfg, r.core, es[0]); }
      WorkAccount(cfg, Advance(cfg, r, es[0]), es[1..]);
    }
  }

  // ---------- how much work and how many buffers there can be ----------

  ghost function Flat(qs: seq<seq<nat>>): seq<nat> {
    if qs == [] then [] else qs[0] + Flat(qs[1..])
  }

  lemma {:induction false} FlatCounts(x: nat, qs: seq<seq<nat>>)
    ensures Copies(x, Flat(qs)) == QueuedCopies(x, qs) && |Flat(qs)| == Total(qs)
  {
    if qs != [] {
      FlatCounts(x, qs[1..]);
      CopiesJoin(x, qs[0], Flat(qs[1..]));
    }
  }

  ghost function One(o: Option<nat>): seq<nat> {
    if o.Some? then [o.value] else []
  }

  ghost function Everything(s: Core): seq<nat> {
    s.pool + (Flat(s.fromHost) + (s.toHost + (One(s.fromHostBuf) + (One(s.toHostBuf) + One(s.pc.held)))))
  }

  lemma EverythingCounts(s: Core, x: nat)
    ensures Copies(x, Everything(s)) == References(s, x)
  {
    FlatCounts(x, s.fromHost);
    var a := One(s.toHostBuf) + One(s.pc.held);
    CopiesJoin(x, One(s.toHostBuf), One(s.pc.held));
    CopiesJoin(x, One(s.fromHostBuf), a);
    CopiesJoin(x, s.toHost, One(s.fromHostBuf) + a);
    CopiesJoin(x, Flat(s.fromHost), s.toHost + (One(s.fromHostBuf) + a));
    CopiesJoin(x, s.pool, Flat(s.fromHost) + (s.toHost + (One(s.fromHostBuf) + a)));
  }

  /** A sequence in which each number below `n` occurs once, and nothing else, has length `n`. */
  lemma {:induction false} OnceEach(n: nat, q: seq<nat>)
    requires forall x: nat :: Copies(x, q) == if x < n then 1 else 0
    ensures |q| == n
  {
    if n == 0 {
      if q != [] { CopiesOfMember(q[0], q); }
    } else {
      assert Copies(n - 1, q) == 1;
      var k := Find(n - 1, q);
      var p := q[..k] + q[k + 1..];
      forall x: nat
        ensures Copies(x, p) == if x < n - 1 then 1 else 0
      {
        CopiesJoin(x, q[..k], q[k + 1..]);
        CopiesJoin(x, q[..k], q[k..]);
        assert q == q[..k] + q[k..] && q[k..][1..] == q[k + 1..];
      }
      OnceEach(n - 1, p);
    }
  }

  lemma {:induction false} Find(x: nat, q: seq<nat>) returns (k: nat)
    requires Copies(x, q) > 0
    ensures k < |q| && q[k] == x
  {
    if q[0] == x {
      k := 0;
    } else {
      k := Find(x, q[1..]);
      k := k + 1;
    }
  }

  /** The buffers add up. */
  lemma BuffersAddUp(n: nat, s: Core)
    requires Conserved(n, s)
    ensures |s.pool| + Total(s.fromHost) + |s.toHost| + Units(s.fromHostBuf) + Units(s.toHostBuf) + Units(s.pc.held)
      == n
  {
    forall x: nat
      ensures Copies(x, Everything(s)) == if x < n then 1 else 0
    {
      EverythingCounts(s, x);
    }
    OnceEach(n, Everything(s));
    FlatCounts(0, s.fromHost);
  }

  /** Without new input, no run makes more than three productive steps per buffer. When they are made,
      every buffer is back in the pool but for `from_host_buf` and one the main loop may be holding to
      receive a frame or an error into. */
  lemma DrainsWithin(cfg: Config, r: Run, es: seq<Event>)
    requires WellFormed(cfg, r.core) && SuppliedOf(cfg, r, es) == 0
    ensures ProgressOf(cfg, r, es) <= Work(r.core) <= 3 * cfg.buffers
    ensures var s := RunFrom(cfg, r, es).core;
            ProgressOf(cfg, r, es) == Work(r.core) ==>
              && |s.pool| + Units(s.fromHostBuf) + Units(s.pc.held) == cfg.buffers
              && (InSend(s.pc.at) ==> s.pc.held.None?)
  {
    WorkAccount(cfg, r, es);
    BuffersAddUp(cfg.buffers, r.core);
    BuffersAddUp(cfg.buffers, RunFrom(cfg, r, es).core);
  }

  /** Backpressure is released: with the work done, a main loop that reaches `ReceiveFromHost` without
      a buffer to receive into arms one. */
  lemma BackpressureReleased(cfg: Config, s: Core, a: Answer, b: Answer)
    requires WellFormed(cfg, s) && Work(s) == 0 && s.pc.at.OutTake? && cfg.buffers > 0
    ensures var t := LoopStep(cfg, s, a);
            && WellFormed(cfg, t)
            && (if s.fromHostBuf.Some? then t.outArmed else t.pc.at.OutArm? && LoopStep(cfg, t, b).outArmed)
            && t.fromHostBuf.Some?
  {
    BuffersAddUp(cfg.buffers, s);
    StepKeepsWellFormed(cfg, s, Loop(a.(rx := None)));
  }

  // ---------- progress ----------

  /** Something the main loop, or the host by collecting an IN transfer, is going to get further
      before the next pass of the loop is over. */
  ghost predicate Ahead(s: Core) {
    || s.inFlight
    || s.pc.at.SendTry? || s.pc.at.SendEcho?
    || (s.pc.at.SendTake? && exists ch :: s.pc.ch <= ch < |s.fromHost| && s.fromHost[ch] != [])
    || ((InSend(s.pc.at) || s.pc.at.OutTake? || s.pc.at.OutArm? || s.pc.at.InTake?)
        && s.toHost != [] && s.toHostBuf.None?)
    || InSending(s.pc.at)
  }

  lemma {:induction false} SomeTotal(qs: seq<seq<nat>>)
    requires Total(qs) > 0
    ensures exists ch :: 0 <= ch < |qs| && qs[ch] != []
  {
    if qs[0] == [] {
      SomeTotal(qs[1..]);
      var ch :| 0 <= ch < |qs[1..]| && qs[1..][ch] != [];
      assert qs[ch + 1] != [];
    }
  }

  lemma {:induction false} NoTotal(qs: seq<seq<nat>>)
    requires forall ch :: 0 <= ch < |qs| ==> qs[ch] == []
    ensures Total(qs) == 0
  {
    if qs != [] {
      assert qs[0] == [];
      NoTotal(qs[1..]);
    }
  }

  /** Outstanding work at the top of the loop is ahead of the loop. */
  lemma WorkIsAhead(cfg: Config, s: Core)
    requires WellFormed(cfg, s) && s.pc == LoopTop(cfg) && Work(s) > 0
    ensures Ahead(s)
  {
    if s.toHostBuf.None? && s.toHost == [] {
      SomeTotal(s.fromHost);
    }
  }

  lemma SendStaysAhead(cfg: Config, s: Core, a: Answer)
    requires WellFormed(cfg, s) && InSend(s.pc.at) && Ahead(s) && a.mailboxFree && !s.pc.at.SendEcho?
    ensures Ahead(SendSection(cfg, s, a))
  {
    HeldInRange(cfg.buffers, s);
    var t := SendSection(cfg, s, a);
    if s.pc.at.SendTake? && s.fromHost[s.pc.ch] == [] && !s.inFlight && (s.toHost == [] || s.toHostBuf.Some?) {
      var ch :| s.pc.ch <= ch < |s.fromHost| && s.fromHost[ch] != [];
      assert t.pc == At(SendTake, s.pc.ch + 1) && t.pc.ch <= ch && t.fromHost[ch] != [];
    }
  }

  lemma UsbStaysAhead(cfg: Config, s: Core, a: Answer)
    requires WellFormed(cfg, s) && InUsb(s.pc.at) && Ahead(s) && !Productive(s, Loop(a))
    ensures Ahead(UsbSection(cfg, s))
  {}

  lemma RestStaysAhead(cfg: Config, s: Core, a: Answer)
    requires WellFormed(cfg, s) && (InReceive(s.pc.at) || InError(s.pc.at)) && s.inFlight
    ensures LoopStep(cfg, s, a).inFlight
  {
    if InReceive(s.pc.at) { ReceiveTouches(cfg, s, a); } else { ErrorTouches(cfg, s, a); }
  }

  /** Whether the CAN controller has a free mailbox whenever it is asked. */
  predicate MailboxFree(e: Event) {
    e.Loop? ==> e.a.mailboxFree
  }

  lemma DataOutStaysAhead(cfg: Config, s: Core, f: HostFrame, rxlen: nat)
    requires Ahead(s) && s.fromHostBuf.Some? && s.fromHostBuf.value < |s.store| && |s.fromHost| == cfg.channels
    ensures Ahead(ReceiveOut(cfg, s, f, rxlen))
  {
    hide Conserved;
    if s.pc.at.SendTake? && Accepts(cfg, f, rxlen)
       && exists ch :: s.pc.ch <= ch < |s.fromHost| && s.fromHost[ch] != [] {
      var ch :| s.pc.ch <= ch < |s.fromHost| && s.fromHost[ch] != [];
      assert ReceiveOut(cfg, s, f, rxlen).fromHost[ch] != [];
    }
  }

  /** A step that makes no progress, but finds a mailbox if it needs one, leaves the work ahead. */
  lemma StaysAhead(cfg: Config, s: Core, e: Event)
    requires WellFormed(cfg, s) && Enabled(cfg, s, e) && Ahead(s) && MailboxFree(e) && !Productive(s, e)
    requires !s.pc.at.SendBack?
    ensures Ahead(Step(cfg, s, e))
  {
    HeldInRange(cfg.buffers, s);
    match e
    case Loop(a) =>
      if InSend(s.pc.at) { SendStaysAhead(cfg, s, a); }
      else if InUsb(s.pc.at) { UsbStaysAhead(cfg, s, a); }
      else { RestStaysAhead(cfg, s, a); }
    case DataIn =>
    case DataOut(f, rxlen) => DataOutStaysAhead(cfg, s, f, rxlen);
    case Suspend =>
    case Resume =>
    case Configure =>
  }

  lemma SendNeverBack(cfg: Config, s: Core, a: Answer)
    requires WellFormed(cfg, s) && InSend(s.pc.at) && a.mailboxFree
    ensures !SendSection(cfg, s, a).pc.at.SendBack?
  {
    HeldInRange(cfg.buffers, s);
  }

  lemma UsbNeverBack(cfg: Config, s: Core)
    requires WellFormed(cfg, s) && InUsb(s.pc.at)
    ensures !UsbSection(cfg, s).pc.at.SendBack?
  {
    hide Conserved;
  }

  lemma LoopNeverBack(cfg: Config, s: Core, a: Answer)
    requires WellFormed(cfg, s) && a.mailboxFree
    ensures !LoopStep(cfg, s, a).pc.at.SendBack?
  {
    hide Conserved, SendSection, UsbSection, ReceiveSection, ErrorSection;
    if InSend(s.pc.at) { SendNeverBack(cfg, s, a); }
    else if InUsb(s.pc.at) { UsbNeverBack(cfg, s); }
    else if InReceive(s.pc.at) { ReceiveTouches(cfg, s, a); }
    else { ErrorTouches(cfg, s, a); }
  }

  lemma NeverBack(cfg: Config, s: Core, e: Event)
    requires WellFormed(cfg, s) && Enabled(cfg, s, e) && MailboxFree(e) && !s.pc.at.SendBack?
    ensures !Step(cfg, s, e).pc.at.SendBack?
  {
    HeldInRange(cfg.buffers, s);
    hide Conserved, LoopStep;
    if e.Loop? { LoopNeverBack(cfg, s, e.a); }
  }

  lemma {:induction false} RunStaysAhead(cfg: Config, r: Run, es: seq<Event>)
    requires WellFormed(cfg, r.core) && Ahead(r.core) && !r.core.pc.at.SendBack?
    requires (forall e :: e in es ==> MailboxFree(e)) && ProgressOf(cfg, r, es) == 0
    ensures Ahead(RunFrom(cfg, r, es).core)
    decreases es
  {
    if es != [] {
      var e := es[0];
      AdvanceKeepsWellFormed(cfg, r, e);
      if Enabled(cfg, r.core, e) {
        assert MailboxFree(e) && !Productive(r.core, e);
        StaysAhead(cfg, r.core, e);
        NeverBack(cfg, r.core, e);
      }
      RunStaysAhead(cfg, Advance(cfg, r, e), es[1..]);
    }
  }

  /** No deadlock and no idling. Let the main loop start a pass with work outstanding and a mailbox
      free whenever it asks. If, however the interrupt comes, it gets past its USB part without a
      productive step, then an IN transfer is under way and only the host is being waited for. */
  lemma IdlePassWaitsForHost(cfg: Config, r: Run, es: seq<Event>)
    requires WellFormed(cfg, r.core) && r.core.pc == LoopTop(cfg) && Work(r.core) > 0
    requires (forall e :: e in es ==> MailboxFree(e)) && ProgressOf(cfg, r, es) == 0
    ensures var s := RunFrom(cfg, r, es).core; InReceive(s.pc.at) || InError(s.pc.at) ==> s.inFlight
  {
    WorkIsAhead(cfg, r.core);
    RunStaysAhead(cfg, r, es);
  }

  // ---------- draining ----------

  lemma SendInFlight(cfg: Config, s: Core, a: Answer)
    requires WellFormed(cfg, s) && (InSend(s.pc.at) || InUsb(s.pc.at)) && s.inFlight
    ensures LoopStep(cfg, s, a).inFlight
  {
    HeldInRange(cfg.buffers, s);
  }

  lemma StepInFlight(cfg: Config, s: Core, e: Event)
    requires WellFormed(cfg, s) && Enabled(cfg, s, e) && s.inFlight && !e.DataIn?
    ensures Step(cfg, s, e).inFlight
  {
    HeldInRange(cfg.buffers, s);
    if e.Loop? {
      if InSend(s.pc.at) || InUsb(s.pc.at) { SendInFlight(cfg, s, e.a); } else { RestStaysAhead(cfg, s, e.a); }
    }
  }

  /** A transfer under way is collected when the host collects at all. */
  lemma {:induction false} CollectingProgresses(cfg: Config, r: Run, es: seq<Event>)
    requires WellFormed(cfg, r.core) && r.core.inFlight && DataIn in es
    ensures ProgressOf(cfg, r, es) > 0
    decreases es
  {
    var e := es[0];
    AdvanceKeepsWellFormed(cfg, r, e);
    if !e.DataIn? {
      assert DataIn in es[1..];
      if Enabled(cfg, r.core, e) { StepInFlight(cfg, r.core, e); }
      hide WellFormed, Step, Enabled;
      CollectingProgresses(cfg, Advance(cfg, r, e), es[1..]);
    }
  }

  /** One pass of the loop: up to its end of the USB part, and from there to the top of the loop. */
  datatype Pass = Pass(first: seq<Event>, second: seq<Event>)

  function Middle(cfg: Config, r: Run, p: Pass): (q: Run)
    requires WellFormed(cfg, r.core)
    ensures WellFormed(cfg, q.core)
  {
    RunFrom(cfg, r, p.first)
  }

  function AfterPass(cfg: Config, r: Run, p: Pass): (q: Run)
    requires WellFormed(cfg, r.core)
    ensures WellFormed(cfg, q.core)
  {
    RunFrom(cfg, Middle(cfg, r, p), p.second)
  }

  /** A pass with whatever callbacks in it, but no new input, a mailbox free whenever it asks for one, and
      a host that collects once between the USB part and the end. */
  ghost predicate FairPass(cfg: Config, r: Run, p: Pass)
    requires WellFormed(cfg, r.core)
  {
    var m := Middle(cfg, r, p).core;
    && (InReceive(m.pc.at) || InError(m.pc.at)) && AfterPass(cfg, r, p).core.pc == LoopTop(cfg)
    && (forall e :: e in p.first ==> MailboxFree(e)) && DataIn in p.second
    && SuppliedOf(cfg, r, p.first) == 0 && SuppliedOf(cfg, Middle(cfg, r, p), p.second) == 0
  }

  lemma PassWorks(cfg: Config, r: Run, p: Pass)
    requires WellFormed(cfg, r.core) && r.core.pc == LoopTop(cfg) && FairPass(cfg, r, p)
    ensures Work(AfterPass(cfg, r, p).core) < Work(r.core) || Work(AfterPass(cfg, r, p).core) == Work(r.core) == 0
  {
    var m := Middle(cfg, r, p);
    WorkAccount(cfg, r, p.first);
    WorkAccount(cfg, m, p.second);
    hide Work, ProgressOf, SuppliedOf, RunFrom, WellFormed;
    if Work(r.core) > 0 && ProgressOf(cfg, r, p.first) == 0 {
      IdlePassWaitsForHost(cfg, r, p.first);
      CollectingProgresses(cfg, m, p.second);
    }
  }

  function AfterPasses(cfg: Config, r: Run, ps: seq<Pass>): (q: Run)
    requires WellFormed(cfg, r.core)
    ensures WellFormed(cfg, q.core)
    decreases ps
  {
    if ps == [] then r else AfterPasses(cfg, AfterPass(cfg, r, ps[0]), ps[1..])
  }

  ghost predicate FairPasses(cfg: Config, r: Run, ps: seq<Pass>)
    requires WellFormed(cfg, r.core)
    decreases ps
  {
    ps == [] || (FairPass(cfg, r, ps[0]) && FairPasses(cfg, AfterPass(cfg, r, ps[0]), ps[1..]))
  }

  lemma {:induction false} PassesWork(cfg: Config, r: Run, ps: seq<Pass>)
    requires WellFormed(cfg, r.core) && r.core.pc == LoopTop(cfg) && FairPasses(cfg, r, ps)
    ensures AfterPasses(cfg, r, ps).core.pc == LoopTop(cfg)
    ensures Work(AfterPasses(cfg, r, ps).core) + |ps| <= Work(r.core) || Work(AfterPasses(cfg, r, ps).core) == 0
    decreases ps
  {
    hide Work, WellFormed;
    if ps != [] {
      PassWorks(cfg, r, ps[0]);
      assert AfterPass(cfg, r, ps[0]).core.pc == LoopTop(cfg);
      hide AfterPass, FairPass;
      PassesWork(cfg, AfterPass(cfg, r, ps[0]), ps[1..]);
    }
  }

  /** The bridge drains: after three fair passes per buffer, whatever there was in any queue has been sent,
      echoed and collected, and every buffer is back in the pool but for the one to receive into. */
  lemma Drains(cfg: Config, r: Run, ps: seq<Pass>)
    requires WellFormed(cfg, r.core) && r.core.pc == LoopTop(cfg) && FairPasses(cfg, r, ps)
    requires |ps| >= 3 * cfg.buffers
    ensures var s := AfterPasses(cfg, r, ps).core;
            Work(s) == 0 && |s.pool| + Units(s.fromHostBuf) == cfg.buffers
  {
    PassesWork(cfg, r, ps);
    BuffersAddUp(cfg.buffers, r.core);
    BuffersAddUp(cfg.buffers, AfterPasses(cfg, r, ps).core);
  }
}
