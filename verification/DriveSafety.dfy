/** What holds of the drive protocol in every interleaving of the REPL, the core thread, timeouts and
    ctrl-C.
  */
module DriveSafety {
  import opened Drive

  // ---------- what is in the queue ----------

  predicate NoSteer(q: seq<Command>) {
    forall i :: 0 <= i < |q| ==> !q[i].DriveStepper?
  }

  /** No steering command behind a `NotifyWhenDone`. */
  predicate SteerFirst(q: seq<Command>) {
    forall i, j :: 0 <= i < j < |q| && q[i].NotifyWhenDone? ==> !q[j].DriveStepper?
  }

  function Notices(q: seq<Command>): nat {
    if q == [] then 0 else (if q[0].NotifyWhenDone? then 1 else 0) + Notices(q[1..])
  }

  /** Notifications asked for and not yet received. */
  function Outstanding(s: State): nat {
    Notices(s.queue) + (if s.notifyInFlight then 1 else 0) + s.notifs
  }

  lemma {:induction false} NoticesSend(q: seq<Command>, c: Command)
    ensures Notices(q + [c]) == Notices(q) + if c.NotifyWhenDone? then 1 else 0
  {
    if q == [] {
      assert q + [c] == [c];
    } else {
      NoticesSend(q[1..], c);
      assert (q + [c])[1..] == q[1..] + [c];
    }
  }

  lemma {:induction false} NoNotice(q: seq<Command>)
    ensures Notices(q) == 0 <==> forall i :: 0 <= i < |q| ==> !q[i].NotifyWhenDone?
  {
    if q != [] {
      NoNotice(q[1..]);
      assert q == [q[0]] + q[1..];
    }
  }

  lemma {:induction false} AheadSend(o: Seen, q: seq<Command>, c: Command)
    ensures Ahead(o, q + [c]) == See(Ahead(o, q), c)
    decreases q
  {
    if q == [] {
      assert q + [c] == [c];
    } else {
      AheadSend(See(o, q[0]), q[1..], c);
      assert (q + [c])[1..] == q[1..] + [c];
    }
  }

  lemma {:induction false} AheadNoSteer(o: Seen, q: seq<Command>)
    requires NoSteer(q)
    ensures Ahead(o, q).pos == o.pos && Ahead(o, q).unresolved == o.unresolved
    decreases q
  {
    if q != [] {
      assert forall i :: 0 <= i < |q[1..]| ==> q[1..][i] == q[i + 1];
      AheadNoSteer(See(o, q[0]), q[1..]);
    }
  }

  /** A resolution never makes what follows less safe. */
  lemma {:induction false} AheadResolved(o: Seen, r: Seen, q: seq<Command>)
    requires r.drive == o.drive && r.pos == o.pos && (o.safe ==> r.safe) && (r.unresolved ==> o.unresolved)
    ensures var f, g := Ahead(o, q), Ahead(r, q);
            g.drive == f.drive && g.pos == f.pos && (f.safe ==> g.safe) && (g.unresolved ==> f.unresolved)
    decreases q
  {
    if q != [] {
      AheadResolved(See(o, q[0]), See(r, q[0]), q[1..]);
    }
  }

  lemma SeenAfter(log: seq<Entry>, e: Entry)
    ensures SeenIn(log + [e]) == SeeEntry(SeenIn(log), e)
  {
    assert (log + [e])[..|log|] == log;
  }

  // ---------- the invariant ----------

  predicate Steering(pc: Repl) {
    pc.MoveNotify? || pc.MoveWait?
  }

  /** How the REPL thread's view relates to what it has sent. */
  predicate SentOk(s: State, f: Seen) {
    && f.safe
    && (s.isStopped || s.pc.Ended? ==> f.drive == ZERO)
    && ((s.pc.Idle? || s.pc.Panicked?) && !s.isStopped && !s.interrupted ==> f.drive != ZERO)
    && (!Steering(s.pc) ==> !f.unresolved && f.pos == Angles(s.wheels))
    && (Steering(s.pc) ==> f.pos == Angles(s.pc.plan.target))
    && (s.pc.MoveSteer? || Steering(s.pc) ==> f.drive == ZERO)
    && (s.notifs > 0 ==> !f.unresolved)
  }

  predicate QueueOk(s: State) {
    && Outstanding(s) == (if s.pc.MoveWait? then 1 else 0)
    && SteerFirst(s.queue)
    && (!Steering(s.pc) || s.notifyInFlight || s.notifs > 0 ==> NoSteer(s.queue))
  }

  predicate PlanInHand(s: State) {
    && (MidMove(s.pc) ==> PlanOk(s.pc.plan))
    && (s.pc.MoveDrive? ==> s.pc.plan.target == s.wheels)
  }

  predicate Inv(s: State) {
    SentOk(s, Sent(s)) && QueueOk(s) && PlanInHand(s) && s.targetStepperPos == SeenIn(s.log).pos
  }

  /** The clock: the core thread publishes for at most `PUBLISH`, is never kept from the channel for
      longer than `lag`, and time stops when the process is to end. */
  predicate ClockOk(w: Timing, s: State) {
    && s.clock.freeAt <= s.clock.now + PUBLISH && s.clock.now <= s.clock.freeAt + w.lag
    && (s.notifyInFlight ==> s.clock.notifAt <= s.clock.now)
    && (s.clock.exitAt.Some? ==> s.clock.now <= s.clock.exitAt.value)
    && (s.clock.exitAt.None? ==> !s.interrupted && !s.pc.Ended?)
  }

  lemma ReplClock(w: Timing, s: State)
    requires ClockOk(w, s)
    ensures ClockOk(w, ReplNext(w, s)) && ReplNext(w, s).clock.now == s.clock.now
  {
    hide Angles, All;
    match s.pc {
      case QuitSend =>
      case _ => assert ReplNext(w, s).clock == s.clock;
    }
  }

  lemma StepClock(w: Timing, s: State, e: Event)
    requires ClockOk(w, s)
    ensures ClockOk(w, Step(w, s, e)) && Step(w, s, e).clock.now >= s.clock.now
  {
    if e.ReplStep? { ReplClock(w, s); }
  }

  lemma {:induction false} RunClock(w: Timing, s: State, es: seq<Event>)
    requires ClockOk(w, s)
    ensures ClockOk(w, Run(w, s, es)) && Run(w, s, es).clock.now >= s.clock.now
    decreases es
  {
    hide Step, ClockOk;
    if es != [] {
      StepClock(w, s, es[0]);
      RunClock(w, Step(w, s, es[0]), es[1..]);
    }
  }

  lemma StartInv()
    ensures Inv(START)
  {}

  lemma SendInv(s: State, c: Command, t: State)
    requires Inv(s) && t == s.(queue := s.queue + [c], pc := t.pc, isStopped := t.isStopped,
                               interrupted := t.interrupted, clock := t.clock)
    requires SentOk(t, See(Sent(s), c)) && PlanInHand(t)
    requires c.DriveStepper? ==> s.pc.MoveSteer? && t.pc.MoveNotify?
    requires if c.NotifyWhenDone? then s.pc.MoveNotify? && t.pc.MoveWait? else (t.pc.MoveWait? <==> s.pc.MoveWait?)
    requires !c.DriveStepper? && Steering(s.pc) ==> Steering(t.pc)
    ensures Inv(t)
  {
    AheadSend(SeenIn(s.log), s.queue, c);
    NoticesSend(s.queue, c);
    if c.DriveStepper? {
      NoNotice(s.queue);
    }
  }

  lemma ReadInv(s: State, line: Line)
    requires Inv(s) && s.pc.Idle?
    ensures Inv(Read(s, line))
  {
    hide Ahead, SeenIn;
    if line.MoveLine? && Parse(line.m).Ok? { PlansSuit(line.m); }
  }

  lemma StopInv(w: Timing, s: State)
    requires Inv(s) && (s.pc.StopSend? || s.pc.MoveStop? || s.pc.QuitSend?)
    ensures Inv(ReplNext(w, s))
  {
    hide Ahead, SeenIn, Outstanding;
    SendInv(s, DriveVesc(ZERO), ReplNext(w, s));
  }

  lemma SteerInv(w: Timing, s: State)
    requires Inv(s) && (s.pc.MoveSteer? || s.pc.MoveNotify?)
    ensures Inv(ReplNext(w, s))
  {
    hide Ahead, SeenIn;
    var c := if s.pc.MoveSteer? then DriveStepper(Angles(s.pc.plan.target)) else NotifyWhenDone;
    SendInv(s, c, ReplNext(w, s));
  }

  lemma DriveInv(w: Timing, s: State)
    requires Inv(s) && s.pc.MoveDrive?
    ensures Inv(ReplNext(w, s))
  {
    hide Ahead, SeenIn, Outstanding;
    SendInv(s, DriveVesc(s.pc.plan.drive), ReplNext(w, s));
  }

  lemma ReceiveInv(w: Timing, s: State)
    requires Inv(s) && s.pc.MoveWait?
    ensures Inv(ReplNext(w, s))
  {
    hide Ahead, SeenIn;
  }

  lemma ReplInv(w: Timing, s: State)
    requires Inv(s)
    ensures Inv(ReplNext(w, s))
  {
    hide Inv;
    match s.pc
    case StopSend => StopInv(w, s);
    case MoveStop(p) => StopInv(w, s);
    case MoveSteer(p) => SteerInv(w, s);
    case MoveNotify(p) => SteerInv(w, s);
    case MoveWait(p) => ReceiveInv(w, s);
    case MoveDrive(p) => DriveInv(w, s);
    case QuitSend => StopInv(w, s);
    case Idle =>
    case Ended =>
    case Panicked =>
  }

  lemma HandleQueue(s: State)
    requires QueueOk(s) && s.queue != []
    ensures QueueOk(Handle(s))
  {
    var t := Handle(s);
    assert forall i :: 0 <= i < |t.queue| ==> t.queue[i] == s.queue[i + 1];
  }

  lemma HandleSent(log: seq<Entry>, q: seq<Command>)
    requires q != []
    ensures SeenIn(log + [Handled(q[0])]) == See(SeenIn(log), q[0])
    ensures Ahead(SeenIn(log + [Handled(q[0])]), q[1..]) == Ahead(SeenIn(log), q)
  {
    hide See;
    SeenAfter(log, Handled(q[0]));
  }

  lemma HandleInv(s: State)
    requires Inv(s)
    ensures Inv(Handle(s))
  {
    hide Ahead, SeenIn;
    if s.queue != [] {
      HandleQueue(s);
      HandleSent(s.log, s.queue);
    }
  }

  lemma ResolveInv(s: State)
    requires Inv(s) && s.notifyInFlight
    ensures Inv(Resolve(s))
  {
    var o := SeenIn(s.log);
    SeenAfter(s.log, Resolved);
    AheadResolved(o, o.(unresolved := false), s.queue);
    AheadNoSteer(o.(unresolved := false), s.queue);
  }

  lemma StepInv(w: Timing, s: State, e: Event)
    requires Inv(s)
    ensures Inv(Step(w, s, e))
  {
    match e
    case Input(line) => if s.pc.Idle? { ReadInv(s, line); }
    case ReplStep => ReplInv(w, s);
    case CoreStep => HandleInv(s);
    case Timeout => if s.notifyInFlight { ResolveInv(s); }
    case CtrlC => SendInv(s, DriveVesc(ZERO), Interrupt(w, s));
    case Tick =>
    case Exit =>
  }

  lemma {:induction false} RunInv(w: Timing, s: State, es: seq<Event>)
    requires Inv(s)
    ensures Inv(Run(w, s, es))
    decreases es
  {
    hide Step, Inv;
    if es != [] {
      StepInv(w, s, es[0]);
      RunInv(w, Step(w, s, es[0]), es[1..]);
    }
  }

  /** What holds at every point of every run. */
  lemma Reached(w: Timing, es: seq<Event>)
    ensures Inv(Run(w, START, es)) && ClockOk(w, Run(w, START, es))
  {
    StartInv();
    RunInv(w, START, es);
    RunClock(w, START, es);
  }
}
