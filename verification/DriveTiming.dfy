/** How many commands the core thread can have handled when the process ends, and so exactly when
    ctrl-C, `quit` and the end of the input leave the rover stopped.
  */
module DriveTiming {
  import opened Wrappers
  import opened Drive
  import opened DriveSafety
  import opened DriveTheorems
  import opened DriveEnding

  // ---------- the time commands take ----------

  function Cost(c: Command): nat {
    if c.NotifyWhenDone? then 0 else PUBLISH
  }

  function Busy(q: seq<Command>): nat {
    if q == [] then 0 else Cost(q[0]) + Busy(q[1..])
  }

  lemma {:induction false} BusyJoin(a: seq<Command>, b: seq<Command>)
    ensures Busy(a + b) == Busy(a) + Busy(b)
  {
    if a == [] {
      assert a + b == b;
    } else {
      BusyJoin(a[1..], b);
      assert (a + b)[1..] == a[1..] + b;
    }
  }

  lemma BusyNext(q: seq<Command>, k: nat)
    requires k < |q|
    ensures Busy(q[..k + 1]) == Busy(q[..k]) + Cost(q[k])
  {
    BusyJoin(q[..k], [q[k]]);
    assert q[..k + 1] == q[..k] + [q[k]] && Busy([q[k]][1..]) == 0;
  }

  lemma BusyRest(q: seq<Command>, n: nat)
    requires 0 < n <= |q|
    ensures Busy(q[..n]) == Cost(q[0]) + Busy(q[1..][..n - 1])
  {
    assert q[..n][1..] == q[1..][..n - 1];
  }

  function Later(a: nat, b: nat): nat {
    if a >= b then a else b
  }

  /** When the core thread can next look at the channel. */
  function First(s: State): nat {
    Later(s.clock.now, s.clock.freeAt)
  }

  /** The core thread can have handled exactly the first `n` of `q` at time `x`: there is time for them,
      and it need not have looked at the channel once more. */
  predicate CanTake(w: Timing, s: State, q: seq<Command>, x: nat, n: nat) {
    && n <= |q|
    && (n > 0 ==> First(s) + Busy(q[..n - 1]) <= x)
    && (n < |q| ==> x <= s.clock.freeAt + Busy(q[..n]) + (n + 1) * w.lag)
  }

  // ---------- the core thread is never faster and never slower ----------

  /** `s` is the state before the last zero drive was sent, and `q` all that was queued with it. */
  predicate Bounded(w: Timing, s: State, q: seq<Command>, u: State) {
    var k, c := Taken(s, u), u.clock;
    && q != [] && Cmds(s.log) <= Cmds(u.log) && Cmds(s.log) + q <= Every(u) && c.now >= s.clock.now
    && (k == 0 ==> c.freeAt == s.clock.freeAt)
    && (0 < k <= |q| ==> c.now >= First(s) + Busy(q[..k - 1]) && c.freeAt >= First(s) + Busy(q[..k]))
    && (0 < k < |q| ==> c.freeAt <= s.clock.freeAt + Busy(q[..k]) + k * w.lag)
    && (k > |q| ==> c.now >= First(s) + Busy(q))
  }

  predicate Looks(u: State, e: Event) {
    e.CoreStep? && !u.gone && u.clock.now >= u.clock.freeAt
  }

  lemma ReplKeeps(w: Timing, u: State)
    ensures ReplNext(w, u).clock.freeAt == u.clock.freeAt && ReplNext(w, u).gone == u.gone
    ensures ReplNext(w, u).log == u.log
  {
    hide Angles, All;
    match u.pc {
      case QuitSend =>
      case _ => assert ReplNext(w, u).clock == u.clock;
    }
  }

  lemma LookStep(w: Timing, u: State, e: Event)
    ensures var v := Step(w, u, e);
            if Looks(u, e) && u.queue != [] then
              && Cmds(v.log) == Cmds(u.log) + [u.queue[0]] && v.queue == u.queue[1..] && v.pc == u.pc
              && v.clock.freeAt == u.clock.now + Cost(u.queue[0])
            else
              && Cmds(v.log) == Cmds(u.log)
              && v.clock.freeAt == (if Looks(u, e) then u.clock.now else u.clock.freeAt)
  {
    hide Cmds, Angles, All;
    match e
    case Input(line) => ReadSends(u, line);
    case ReplStep => if !u.gone { ReplKeeps(w, u); }
    case CoreStep => if u.queue != [] { CmdsAfter(u.log, Handled(u.queue[0])); }
    case Timeout => CmdsAfter(u.log, Resolved);
    case CtrlC =>
    case Tick =>
    case Exit =>
  }

  /** The next command to be handled, if it is one of those sent by then. */
  lemma NextTaken(s: State, q: seq<Command>, u: State)
    requires Cmds(s.log) <= Cmds(u.log) && Cmds(s.log) + q <= Every(u)
    ensures Taken(s, u) < |q| ==> u.queue != [] && u.queue[0] == q[Taken(s, u)]
  {
    var c, d, k := Cmds(s.log), Cmds(u.log), Taken(s, u);
    if k < |q| {
      assert Every(u)[|c| + k] == (c + q)[|c| + k];
      assert (d + u.queue)[|d|] == u.queue[0];
    }
  }

  lemma OneMore(n: nat, k: nat)
    ensures n * k + k == (n + 1) * k
  {}

  lemma BoundedLook(w: Timing, s: State, q: seq<Command>, u: State, e: Event)
    requires ClockOk(w, u) && Bounded(w, s, q, u) && Looks(u, e) && u.queue != []
    ensures Bounded(w, s, q, Step(w, u, e))
  {
    var k := Taken(s, u);
    LookStep(w, u, e);
    StepSends(w, u, e);
    StepClock(w, u, e);
    NextTaken(s, q, u);
    OneMore(k, w.lag);
    if k < |q| { BusyNext(q, k); }
    hide Step, Cmds, SentBy, Every, Busy;
    assert q[..0] == [] && q[..|q|] == q;
    assert Taken(s, Step(w, u, e)) == k + 1;
  }

  lemma BoundedStep(w: Timing, s: State, q: seq<Command>, u: State, e: Event)
    requires ClockOk(w, u) && Bounded(w, s, q, u)
    ensures Bounded(w, s, q, Step(w, u, e))
  {
    if Looks(u, e) && u.queue != [] {
      BoundedLook(w, s, q, u, e);
    } else {
      LookStep(w, u, e);
      StepSends(w, u, e);
      StepClock(w, u, e);
      NextTaken(s, q, u);
      hide Step, Cmds, SentBy, Every, Busy;
    }
  }

  /** The process has not ended before its time. */
  predicate InTime(w: Timing, x: nat, u: State) {
    u.clock.exitAt == Some(x) && x <= u.clock.now + w.linger && (u.gone ==> u.clock.now >= x)
  }

  lemma InTimeStep(w: Timing, x: nat, u: State, e: Event)
    requires ClockOk(w, u) && InTime(w, x, u) && !e.Input?
    ensures InTime(w, x, Step(w, u, e))
  {
    ExitStays(w, x, u, e);
    StepClock(w, u, e);
    if e.ReplStep? && !u.gone { ReplKeeps(w, u); }
  }

  lemma {:induction false} BoundedRun(w: Timing, s: State, q: seq<Command>, x: nat, u: State, es: seq<Event>)
    requires ClockOk(w, u) && Bounded(w, s, q, u) && InTime(w, x, u) && NoInput(es)
    ensures var v := Run(w, u, es); ClockOk(w, v) && Bounded(w, s, q, v) && InTime(w, x, v)
    decreases es
  {
    if es != [] {
      var e := es[0];
      assert e in es && forall f :: f in es[1..] ==> f in es;
      BoundedStep(w, s, q, u, e);
      InTimeStep(w, x, u, e);
      StepClock(w, u, e);
      hide Step, ClockOk, Bounded, InTime;
      BoundedRun(w, s, q, x, Step(w, u, e), es[1..]);
    }
  }

  lemma EndBounds(w: Timing, s: State, q: seq<Command>, x: nat, u: State)
    requires ClockOk(w, u) && Bounded(w, s, q, u) && InTime(w, x, u) && u.gone
    ensures if Taken(s, u) <= |q| then CanTake(w, s, q, x, Taken(s, u)) else First(s) + Busy(q) <= x
  {
    var k := Taken(s, u);
    assert k >= 0;
    OneMore(k, w.lag);
    hide Busy, Taken, Every, Cmds;
    assert q[..0] == [];
    if k == 0 { NotBusy(); }
  }

  lemma NotBusy()
    ensures Busy([]) == 0
  {}

  // ---------- schedules ----------

  /** Alive until `x`. */
  predicate LivesTo(w: Timing, x: nat, s: State) {
    ClockOk(w, s) && w.lag > 0 && !s.gone && s.clock.exitAt == Some(x)
  }

  /** The core thread looks at the channel now, or time passes. */
  function Pass(look: bool): Event {
    if look then CoreStep else Tick
  }

  /** Whether the core thread looks now if it is to have handled `n` commands at time `x`: at the last
      moment that leaves time for them, or when it must. */
  predicate LooksNow(w: Timing, s: State, x: nat, n: nat)
    requires 0 < n <= |s.queue|
  {
    s.clock.now == s.clock.freeAt + w.lag || s.clock.now + Busy(s.queue[..n - 1]) >= x
  }

  lemma TakeRest(w: Timing, x: nat, s: State, t: State, n: nat)
    requires ClockOk(w, s) && CanTake(w, s, s.queue, x, n) && n > 0 && LooksNow(w, s, x, n)
    ensures s.clock.now >= s.clock.freeAt
    ensures (t.queue == s.queue[1..] && t.clock.now == s.clock.now
             && t.clock.freeAt == s.clock.now + Cost(s.queue[0])) ==> CanTake(w, t, t.queue, x, n - 1)
  {
    BusyRest(s.queue, n);
    BusyNext(s.queue, n - 1);
    if n > 1 { BusyRest(s.queue, n - 1); }
    OneMore(n, w.lag);
    hide Busy, Cost;
  }

  lemma TakeNow(w: Timing, x: nat, s: State, n: nat)
    requires LivesTo(w, x, s) && CanTake(w, s, s.queue, x, n) && n > 0 && LooksNow(w, s, x, n)
    ensures var t := Step(w, s, CoreStep);
            && LivesTo(w, x, t) && t.pc == s.pc && t.clock.now == s.clock.now
            && t.queue == s.queue[1..] && Cmds(t.log) == Cmds(s.log) + [s.queue[0]]
            && CanTake(w, t, t.queue, x, n - 1)
  {
    LookStep(w, s, CoreStep);
    StepClock(w, s, CoreStep);
    TakeRest(w, x, s, Step(w, s, CoreStep), n);
    hide CanTake, LooksNow, Cmds;
  }

  lemma TakeLater(w: Timing, x: nat, s: State, n: nat)
    requires LivesTo(w, x, s) && CanTake(w, s, s.queue, x, n) && s.clock.now < x
    requires n > 0 ==> !LooksNow(w, s, x, n)
    requires n == 0 ==> s.queue != [] || TimePasses(w, s.clock)
    ensures var t := Step(w, s, Tick);
            && LivesTo(w, x, t) && t == s.(clock := s.clock.(now := s.clock.now + 1))
            && CanTake(w, t, t.queue, x, n)
  {
    StepClock(w, s, Tick);
    if n == 0 && s.queue != [] {
      assert s.queue[..0] == [];
      NotBusy();
    }
    hide Busy;
  }

  lemma LookIdle(w: Timing, x: nat, s: State)
    requires LivesTo(w, x, s) && s.queue == [] && s.clock.now < x && !TimePasses(w, s.clock)
    ensures var t := Step(w, s, CoreStep);
            && LivesTo(w, x, t) && t == s.(clock := s.clock.(freeAt := s.clock.now)) && TimePasses(w, t.clock)
  {
    StepClock(w, s, CoreStep);
  }

  /** Whatever the core thread can have handled at the end, there is a run in which it has. */
  lemma {:induction false} Takes(w: Timing, x: nat, s: State, n: nat) returns (es: seq<Event>)
    requires LivesTo(w, x, s) && CanTake(w, s, s.queue, x, n)
    ensures NoInput(es)
    ensures var u := Run(w, s, es);
            u.clock.now == x && LivesTo(w, x, u) && u.pc == s.pc && Cmds(u.log) == Cmds(s.log) + s.queue[..n]
    decreases n, x - s.clock.now, if TimePasses(w, s.clock) then 0 else 1
  {
    hide Cmds;
    if n == 0 && s.clock.now == x {
      es := [];
      assert Cmds(s.log) + s.queue[..0] == Cmds(s.log);
    } else {
      var look := if n > 0 then LooksNow(w, s, x, n) else s.queue == [] && !TimePasses(w, s.clock);
      var t := Step(w, s, Pass(look));
      var m := if look && n > 0 then n - 1 else n;
      TakeStep(w, x, s, n, look);
      hide Step, CanTake, LivesTo, LooksNow;
      var fs := Takes(w, x, t, m);
      es := [Pass(look)] + fs;
      RunCons(w, s, Pass(look), fs);
      if m < n { assert s.queue[..n] == [s.queue[0]] + t.queue[..m]; }
    }
  }

  lemma TakeStep(w: Timing, x: nat, s: State, n: nat, look: bool)
    requires LivesTo(w, x, s) && CanTake(w, s, s.queue, x, n) && (n == 0 ==> s.clock.now < x)
    requires look == if n > 0 then LooksNow(w, s, x, n) else s.queue == [] && !TimePasses(w, s.clock)
    ensures var t := Step(w, s, Pass(look));
            && LivesTo(w, x, t) && t.pc == s.pc
            && if look && n > 0 then
                 && t.queue == s.queue[1..] && Cmds(t.log) == Cmds(s.log) + [s.queue[0]]
                 && t.clock.now == s.clock.now && CanTake(w, t, t.queue, x, n - 1)
               else
                 && t.queue == s.queue && t.log == s.log && CanTake(w, t, t.queue, x, n)
                 && (if look then t.clock.now == s.clock.now && TimePasses(w, t.clock) && !TimePasses(w, s.clock)
                     else t.clock.now == s.clock.now + 1 <= x)
  {
    if look && n > 0 {
      TakeNow(w, x, s, n);
    } else if look {
      LookIdle(w, x, s);
    } else {
      if n > 0 { NotYet(w, x, s, n); }
      TakeLater(w, x, s, n);
    }
  }

  lemma NotYet(w: Timing, x: nat, s: State, n: nat)
    requires LivesTo(w, x, s) && CanTake(w, s, s.queue, x, n) && n > 0 && !LooksNow(w, s, x, n)
    ensures s.clock.now < x
  {}

  // ---------- a late move ----------

  predicate NoNotify(q: seq<Command>) {
    forall i :: 0 <= i < |q| ==> !q[i].NotifyWhenDone?
  }

  /** The REPL and the notifications have not moved, and nothing has been sent. */
  predicate SameRepl(s: State, u: State) {
    && u.pc == s.pc && u.notifs == s.notifs && u.interrupted == s.interrupted
    && u.notifyInFlight == s.notifyInFlight && u.clock.notifAt == s.clock.notifAt
    && Every(u) == Every(s)
  }

  /** The core thread looks whenever there is something to handle. */
  function Eager(w: Timing, s: State): bool {
    if s.queue == [] then !TimePasses(w, s.clock) else s.clock.now >= s.clock.freeAt
  }

  lemma TakeEager(w: Timing, x: nat, s: State)
    requires LivesTo(w, x, s) && NoNotify(s.queue) && s.queue != [] && s.clock.now >= s.clock.freeAt
    ensures var t := Step(w, s, CoreStep);
            && LivesTo(w, x, t) && NoNotify(t.queue) && SameRepl(s, t)
            && First(t) + Busy(t.queue) == First(s) + Busy(s.queue)
            && t.clock.now == s.clock.now && t.queue == s.queue[1..]
  {
    StepSends(w, s, CoreStep);
    StepClock(w, s, CoreStep);
    hide Every;
  }

  lemma WaitEager(w: Timing, x: nat, s: State, time: nat)
    requires LivesTo(w, x, s) && s.clock.now < time <= x && !Eager(w, s)
    ensures var t := Step(w, s, Tick);
            && LivesTo(w, x, t) && SameRepl(s, t) && t.clock.now == s.clock.now + 1 && t.queue == s.queue
            && First(t) + Busy(t.queue) <= Later(First(s) + Busy(s.queue), time)
  {
    StepClock(w, s, Tick);
  }

  lemma EagerStep(w: Timing, x: nat, s: State, time: nat)
    requires LivesTo(w, x, s) && NoNotify(s.queue) && s.clock.now < time <= x
    ensures var t := Step(w, s, Pass(Eager(w, s)));
            && LivesTo(w, x, t) && NoNotify(t.queue) && SameRepl(s, t)
            && First(t) + Busy(t.queue) <= Later(First(s) + Busy(s.queue), time)
            && if !Eager(w, s) then t.clock.now == s.clock.now + 1 && t.queue == s.queue
               else t.clock.now == s.clock.now &&
                      if s.queue == [] then t.queue == [] && TimePasses(w, t.clock) && !TimePasses(w, s.clock)
                      else t.queue == s.queue[1..]
  {
    if !Eager(w, s) {
      WaitEager(w, x, s, time);
    } else if s.queue == [] {
      LookIdle(w, x, s);
    } else {
      TakeEager(w, x, s);
    }
  }

  predicate WorkedStep(s: State, t: State, time: nat) {
    SameRepl(s, t) && First(t) + Busy(t.queue) <= Later(First(s) + Busy(s.queue), time)
  }

  /** In `u` it is `time`, and the core thread is as far as it can be. */
  predicate Worked(w: Timing, x: nat, s: State, time: nat, u: State) {
    LivesTo(w, x, u) && u.clock.now == time && WorkedStep(s, u, time)
  }

  lemma WorkedOn(w: Timing, x: nat, s: State, t: State, time: nat, u: State)
    requires WorkedStep(s, t, time) && Worked(w, x, t, time, u)
    ensures Worked(w, x, s, time, u)
  {
    hide Every, Busy, First, LivesTo;
  }

  lemma {:induction false} WorkUntil(w: Timing, x: nat, s: State, time: nat) returns (es: seq<Event>)
    requires LivesTo(w, x, s) && NoNotify(s.queue) && s.clock.now <= time <= x
    ensures NoInput(es) && Worked(w, x, s, time, Run(w, s, es))
    decreases time - s.clock.now, |s.queue|, if TimePasses(w, s.clock) then 0 else 1
  {
    if s.clock.now == time {
      es := [];
    } else {
      var e := Pass(Eager(w, s));
      var t := Step(w, s, e);
      EagerStep(w, x, s, time);
      assert WorkedStep(s, t, time);
      hide Step, LivesTo, Worked, WorkedStep, Eager, NoNotify;
      var fs := WorkUntil(w, x, t, time);
      es := [e] + fs;
      RunCons(w, s, e, fs);
      WorkedOn(w, x, s, t, time, Run(w, t, fs));
    }
  }

  /** There is time for the move: it is late, and all that is queued can be handled before its drive. */
  predicate LateInTime(w: Timing, s: State) {
    Late(w, s) && First(s) + Busy(s.queue + [STOP]) <= s.clock.now + w.linger
  }

  /** The drive of a move is the next command to be sent, and there is time to handle it. */
  predicate AtDrive(w: Timing, x: nat, plan: Plan, base: seq<Command>, v: State) {
    LivesTo(w, x, v) && v.pc == MoveDrive(plan) && Every(v) == base && First(v) + Busy(v.queue) <= x
  }

  lemma ReceiveStep(w: Timing, x: nat, plan: Plan, v: State)
    requires LivesTo(w, x, v) && v.pc == MoveWait(plan) && v.notifs > 0 && First(v) + Busy(v.queue) <= x
    ensures AtDrive(w, x, plan, Every(v), Step(w, v, ReplStep))
  {
    StepSends(w, v, ReplStep);
    StepClock(w, v, ReplStep);
    hide Every, Busy;
  }

  lemma ResolveStep(w: Timing, x: nat, v: State)
    requires LivesTo(w, x, v) && v.notifyInFlight && v.clock.now >= v.clock.notifAt + RESOLVE
    ensures var t := Step(w, v, Timeout);
            LivesTo(w, x, t) && t.pc == v.pc && t.notifs > 0 && Every(t) == Every(v) && t.queue == v.queue
              && First(t) == First(v)
  {
    StepSends(w, v, Timeout);
    StepClock(w, v, Timeout);
    hide Every;
  }

  /** A wait that is over in time. */
  lemma WaitEnds(w: Timing, x: nat, plan: Plan, t: State) returns (es: seq<Event>)
    requires LivesTo(w, x, t) && t.pc == MoveWait(plan) && First(t) + Busy(t.queue) <= x
    requires t.notifs > 0 || (t.notifyInFlight && NoNotify(t.queue) && t.clock.notifAt + RESOLVE <= x)
    ensures NoInput(es) && AtDrive(w, x, plan, Every(t), Run(w, t, es))
  {
    hide Step, Every, Busy, Late;
    if t.notifs > 0 {
      ReceiveStep(w, x, plan, t);
      es := [ReplStep];
      RunCons(w, t, ReplStep, []);
      assert [ReplStep] + [] == [ReplStep];
    } else {
      var fs := WorkUntil(w, x, t, Later(t.clock.now, t.clock.notifAt + RESOLVE));
      var u := Run(w, t, fs);
      ResolveStep(w, x, u);
      var v := Step(w, u, Timeout);
      ReceiveStep(w, x, plan, v);
      es := fs + ([Timeout] + [ReplStep]);
      RunJoin(w, t, fs, [Timeout] + [ReplStep]);
      RunCons(w, u, Timeout, [ReplStep]);
      RunCons(w, v, ReplStep, []);
      assert [ReplStep] + [] == [ReplStep];
    }
  }

  lemma DriveTaken(w: Timing, x: nat, plan: Plan, base: seq<Command>, v: State) returns (es: seq<Event>)
    requires AtDrive(w, x, plan, base, v)
    ensures NoInput(es)
    ensures var u := Run(w, v, es);
            u.clock.now == x && LivesTo(w, x, u) && Cmds(u.log) == base + [DriveVesc(plan.drive)]
  {
    var t := Step(w, v, ReplStep);
    StepSends(w, v, ReplStep);
    StepClock(w, v, ReplStep);
    hide Cmds, Busy;
    assert t.queue[..|t.queue| - 1] == v.queue && t.queue[..|t.queue|] == t.queue;
    var fs := Takes(w, x, t, |t.queue|);
    hide Step;
    es := [ReplStep] + fs;
    RunCons(w, v, ReplStep, fs);
  }

  lemma CtrlCState(w: Timing, s: State)
    requires ClockOk(w, s) && Alive(s)
    ensures var t := Step(w, s, CtrlC);
            && t.pc == s.pc && t.notifs == s.notifs && t.notifyInFlight == s.notifyInFlight && t.log == s.log
            && t.clock == s.clock.(exitAt := Some(s.clock.now + w.linger)) && !t.gone
            && t.queue == s.queue + [STOP]
  {}

  // ---------- when the rover is left stopped ----------

  /** Nothing more is typed, and whenever the process has ended the last drive handled is zero. */
  ghost predicate AlwaysStops(w: Timing, t: State) {
    forall fs: seq<Event> :: NoInput(fs) && Run(w, t, fs).gone ==> LastDrive(Run(w, t, fs).log) == ZERO
  }

  /** However many of the queued commands are handled before the end, the last drive is zero. */
  predicate BacklogStops(w: Timing, s: State) {
    forall n: nat :: n <= |s.queue| && CanTake(w, s, s.queue + [STOP], s.clock.now + w.linger, n) ==>
      LastOf(Cmds(s.log) + s.queue[..n]) == ZERO
  }

  /** `t` is the state after the last zero drive is sent. */
  predicate Closes(w: Timing, s: State, t: State) {
    && t.queue == s.queue + [STOP] && t.log == s.log && !t.gone
    && t.clock == s.clock.(exitAt := Some(s.clock.now + w.linger))
  }

  lemma ThenExit(w: Timing, x: nat, t: State, fs: seq<Event>)
    requires LivesTo(w, x, Run(w, t, fs)) && Run(w, t, fs).clock.now == x
    ensures Run(w, t, fs + [Exit]) == Run(w, t, fs).(gone := true)
  {
    RunJoin(w, t, fs, [Exit]);
    RunCons(w, Run(w, t, fs), Exit, []);
    assert [Exit] + [] == [Exit];
  }

  lemma EndsAfter(w: Timing, s: State, t: State, n: nat) returns (fs: seq<Event>)
    requires w.lag > 0 && ClockOk(w, t) && Closes(w, s, t)
    requires n <= |s.queue| && CanTake(w, s, s.queue + [STOP], s.clock.now + w.linger, n)
    ensures NoInput(fs)
    ensures var u := Run(w, t, fs); u.gone && LastDrive(u.log) == LastOf(Cmds(s.log) + s.queue[..n])
  {
    var x := s.clock.now + w.linger;
    fs := Takes(w, x, t, n);
    ThenExit(w, x, t, fs);
    LastDriveIs(Run(w, t, fs).log);
    assert t.queue[..n] == s.queue[..n];
    fs := fs + [Exit];
  }

  lemma BoundedFrom(w: Timing, s: State, t: State, fs: seq<Event>)
    requires ClockOk(w, s) && ClockOk(w, t) && Closes(w, s, t) && NoInput(fs) && Run(w, t, fs).gone
    ensures var u, q := Run(w, t, fs), s.queue + [STOP]; var n := Taken(s, u);
            if n <= |s.queue| then n >= 0 && CanTake(w, s, q, s.clock.now + w.linger, n)
            else n > |q| ==> First(s) + Busy(q) <= s.clock.now + w.linger
  {
    var q, x := s.queue + [STOP], s.clock.now + w.linger;
    assert Every(t) == Cmds(s.log) + q;
    hide Cmds, Every, Busy;
    BoundedRun(w, s, q, x, t, fs);
    hide CanTake, ClockOk;
    EndBounds(w, s, q, x, Run(w, t, fs));
  }

  lemma LateEnds(w: Timing, s: State) returns (fs: seq<Event>)
    requires TimingOk(w) && Inv(s) && ClockOk(w, s) && Alive(s) && LateInTime(w, s)
    ensures NoInput(fs)
    ensures var u := Run(w, Step(w, s, CtrlC), fs); u.gone && LastDrive(u.log) != ZERO
  {
    var t, x, plan := Step(w, s, CtrlC), s.clock.now + w.linger, s.pc.plan;
    CtrlCState(w, s);
    StepClock(w, s, CtrlC);
    LatePlan(w, s);
    assert t.notifs == 0 && t.notifyInFlight ==> NoNotify(t.queue) by { NoNotice(s.queue); }
    hide Step, Inv, Every, Busy;
    var es := [];
    if !s.pc.MoveDrive? { es := WaitEnds(w, x, plan, t); }
    var v := Run(w, t, es);
    assert AtDrive(w, x, plan, Every(t), v);
    hide ClockOk, First;
    var gs := DriveTaken(w, x, plan, Every(t), v);
    RunJoin(w, t, es, gs);
    ThenExit(w, x, t, es + gs);
    var log := Run(w, t, es + gs).log;
    LastDriveIs(log);
    DriveIsLast(Every(t), plan.drive);
    fs := es + gs + [Exit];
  }

  lemma DriveIsLast(a: seq<Command>, v: Quad)
    ensures LastOf(a + [DriveVesc(v)]) == v
  {
    assert (a + [DriveVesc(v)])[..|a|] == a;
  }

  /** Ctrl-C leaves the rover stopped, whatever the threads do in the last second, exactly when there is
      not enough time to end a late move, and no number of queued commands that can be handled in that
      second without the zero drive ends with a drive. */
  lemma CtrlCStopsIff(w: Timing, es: seq<Event>)
    requires TimingOk(w) && Alive(Run(w, START, es))
    ensures var s := Run(w, START, es);
            AlwaysStops(w, Step(w, s, CtrlC)) <==> BacklogStops(w, s) && !LateInTime(w, s)
  {
    var s := Run(w, START, es);
    Reached(w, es);
    var t := Step(w, s, CtrlC);
    CtrlCState(w, s);
    StepClock(w, s, CtrlC);
    assert Closes(w, s, t);
    hide Step, Inv, ClockOk, CanTake, Closes, Late;
    if LateInTime(w, s) {
      var fs := LateEnds(w, s);
      assert !AlwaysStops(w, t);
    } else if !BacklogStops(w, s) {
      BacklogFails(w, s, t);
    } else {
      forall fs | NoInput(fs) && Run(w, t, fs).gone ensures LastDrive(Run(w, t, fs).log) == ZERO {
        OutcomeFrom(w, s, fs);
        BoundedFrom(w, s, t, fs);
      }
    }
  }

  lemma BacklogFails(w: Timing, s: State, t: State)
    requires w.lag > 0 && ClockOk(w, t) && Closes(w, s, t) && !BacklogStops(w, s)
    ensures !AlwaysStops(w, t)
  {
    hide CanTake, ClockOk, Closes;
    var n: nat :| n <= |s.queue| && CanTake(w, s, s.queue + [STOP], s.clock.now + w.linger, n)
                  && LastOf(Cmds(s.log) + s.queue[..n]) != ZERO;
    var fs := EndsAfter(w, s, t, n);
  }

  /** `quit` and the end of the input leave the rover stopped exactly when no number of queued commands
      that can be handled in the last second without the zero drive ends with a drive. */
  lemma QuitStopsIff(w: Timing, es: seq<Event>)
    requires TimingOk(w) && Alive(Run(w, START, es)) && Run(w, START, es).pc.QuitSend?
    ensures var s := Run(w, START, es); AlwaysStops(w, Step(w, s, ReplStep)) <==> BacklogStops(w, s)
  {
    var s := Run(w, START, es);
    Reached(w, es);
    var t := Step(w, s, ReplStep);
    StepClock(w, s, ReplStep);
    assert Closes(w, s, t);
    hide Step, Inv, ClockOk, CanTake, Closes;
    if !BacklogStops(w, s) {
      BacklogFails(w, s, t);
    } else {
      forall fs | NoInput(fs) && Run(w, t, fs).gone ensures LastDrive(Run(w, t, fs).log) == ZERO {
        QuitOutcome(w, es, fs);
        BoundedFrom(w, s, t, fs);
      }
    }
  }

  /** With nothing queued and a core thread that looks at the channel in time: exactly when the move, if
      there is one, is not past its wait and will not be so within the second. */
  lemma DrainedStopsIff(w: Timing, es: seq<Event>)
    requires TimingOk(w) && Alive(Run(w, START, es)) && Run(w, START, es).queue == [] && PUBLISH + w.lag < w.linger
    ensures AlwaysStops(w, Step(w, Run(w, START, es), CtrlC)) <==> !Late(w, Run(w, START, es))
  {
    var s := Run(w, START, es);
    CtrlCStopsIff(w, es);
    Reached(w, es);
    NotBusy();
    hide Step, Inv, Late, Cmds;
    assert s.queue + [STOP] == [STOP] && [STOP][..0] == [] && [STOP][1..] == [];
    assert Busy([STOP]) == PUBLISH;
    assert !CanTake(w, s, [STOP], s.clock.now + w.linger, 0);
  }

  // ---------- moves typed faster than they are handled ----------

  /** The key `w`, pressed `m` times. */
  function Presses(m: nat): seq<Event> {
    if m == 0 then [] else Presses(m - 1) + [PRESS, ReplStep]
  }

  lemma {:induction false} PressesQueue(w: Timing, m: nat)
    ensures var s := Run(w, START, Presses(m));
            && s == START.(queue := s.queue, isStopped := m == 0)
            && |s.queue| == m && (forall i :: 0 <= i < m ==> s.queue[i] == FORWARD)
  {
    if m > 0 {
      PressesQueue(w, m - 1);
      var s := Run(w, START, Presses(m - 1));
      RunJoin(w, START, Presses(m - 1), [PRESS, ReplStep]);
      RunCons(w, s, PRESS, [ReplStep]);
      RunCons(w, Step(w, s, PRESS), ReplStep, []);
      assert [PRESS] + [ReplStep] == [PRESS, ReplStep] && [ReplStep] + [] == [ReplStep];
    }
  }

  lemma {:induction false} BusyDriving(q: seq<Command>)
    requires forall i :: 0 <= i < |q| ==> q[i] == FORWARD
    ensures Busy(q) == |q| * PUBLISH
  {
    if q != [] { BusyDriving(q[1..]); }
  }

  /** With more moves waiting than can be handled in a second, ctrl-C at the prompt does not stop the
      rover, and neither does the end of the input. */
  lemma BacklogDrives(w: Timing, m: nat)
    requires TimingOk(w) && m * PUBLISH > w.linger
    ensures var s := Run(w, START, Presses(m));
            && Alive(s) && s.pc.Idle? && !AlwaysStops(w, Step(w, s, CtrlC))
            && !AlwaysStops(w, Step(w, Step(w, s, Input(EndOfInput)), ReplStep))
  {
    var s := Run(w, START, Presses(m));
    PressesQueue(w, m);
    var r := Step(w, s, Input(EndOfInput));
    BacklogRemains(w, s);
    BacklogRemains(w, r);
    hide BacklogStops;
    BacklogFails(w, s, Step(w, s, CtrlC));
    BacklogFails(w, r, Step(w, r, ReplStep));
  }

  lemma BacklogRemains(w: Timing, s: State)
    requires w.lag > 0 && s.log == [] && s.clock == START.clock && |s.queue| * PUBLISH > w.linger
    requires forall i :: 0 <= i < |s.queue| ==> s.queue[i] == FORWARD
    ensures !BacklogStops(w, s)
  {
    var n, q := w.linger / PUBLISH + 1, s.queue + [STOP];
    BusyDriving(q[..n - 1]);
    BusyDriving(q[..n]);
    hide Busy;
    assert CanTake(w, s, q, w.linger, n);
    DriveIsLast(s.queue[..n - 1], Along(0.03));
    assert Cmds(s.log) + s.queue[..n] == s.queue[..n - 1] + [FORWARD];
    hide CanTake, LastOf;
  }
}
