/** What the rover is doing when the process ends: one second after ctrl-C, one second after `quit` or
    the end of the input, or at once after a panic. What counts is what the core thread has handled.
  */
module DriveEnding {
  import opened Wrappers
  import opened Drive
  import opened DriveSafety
  import opened DriveTheorems

  // ---------- commands, handled and sent ----------

  /** The commands the core thread has handled. */
  function Cmds(log: seq<Entry>): seq<Command> {
    if log == [] then []
    else
      var e := log[|log| - 1];
      Cmds(log[..|log| - 1]) + if e.Handled? then [e.c] else []
  }

  /** All commands ever sent. */
  function Every(s: State): seq<Command> {
    Cmds(s.log) + s.queue
  }

  /** The last drive among some commands; the rover starts at rest. */
  function LastOf(cs: seq<Command>): Quad {
    if cs == [] then ZERO
    else
      var c := cs[|cs| - 1];
      if c.DriveVesc? then c.values else LastOf(cs[..|cs| - 1])
  }

  lemma {:induction false} LastDriveIs(log: seq<Entry>)
    ensures LastDrive(log) == LastOf(Cmds(log))
  {
    if log != [] {
      var init, e := log[..|log| - 1], log[|log| - 1];
      LastDriveIs(init);
      if e.Handled? {
        assert Cmds(log)[..|Cmds(log)| - 1] == Cmds(init);
      } else {
        assert Cmds(log) == Cmds(init);
      }
    }
  }

  lemma CmdsAfter(log: seq<Entry>, e: Entry)
    ensures Cmds(log + [e]) == Cmds(log) + if e.Handled? then [e.c] else []
  {
    assert (log + [e])[..|log|] == log;
  }

  predicate OnlyZero(cs: seq<Command>) {
    forall i :: 0 <= i < |cs| && cs[i].DriveVesc? ==> cs[i].values == ZERO
  }

  predicate NoDrive(cs: seq<Command>) {
    forall i :: 0 <= i < |cs| ==> !cs[i].DriveVesc?
  }

  lemma {:induction false} LastOfJoin(a: seq<Command>, b: seq<Command>)
    ensures NoDrive(b) ==> LastOf(a + b) == LastOf(a)
    ensures OnlyZero(b) && !NoDrive(b) ==> LastOf(a + b) == ZERO
    ensures !NoDrive(b) ==> LastOf(a + b) == LastOf(b)
  {
    if b == [] {
      assert a + b == a;
    } else {
      var init := b[..|b| - 1];
      LastOfJoin(a, init);
      assert (a + b)[..|a + b| - 1] == a + init;
      assert b == init + [b[|b| - 1]];
    }
  }

  /** What a step sends. */
  function SentBy(w: Timing, s: State, e: Event): seq<Command> {
    if s.gone then []
    else
      match e
      case ReplStep =>
        (match s.pc
         case StopSend => [DriveVesc(ZERO)]
         case MoveStop(p) => [DriveVesc(ZERO)]
         case MoveSteer(p) => [DriveStepper(Angles(p.target))]
         case MoveNotify(p) => [NotifyWhenDone]
         case MoveDrive(p) => [DriveVesc(p.drive)]
         case QuitSend => [DriveVesc(ZERO)]
         case _ => [])
      case CtrlC => if s.interrupted then [] else [DriveVesc(ZERO)]
      case _ => []
  }

  lemma HandleSends(s: State)
    ensures Every(Handle(s)) == Every(s) && Cmds(s.log) <= Cmds(Handle(s).log)
  {
    if s.queue != [] {
      var c := s.queue[0];
      CmdsAfter(s.log, Handled(c));
      Associative(Cmds(s.log), [c], s.queue[1..]);
      assert [c] + s.queue[1..] == s.queue;
      assert Handle(s).log == s.log + [Handled(c)] && Handle(s).queue == s.queue[1..];
    }
  }

  lemma ReplSends(w: Timing, s: State)
    requires !s.gone
    ensures ReplNext(w, s).log == s.log && ReplNext(w, s).queue == s.queue + SentBy(w, s, ReplStep)
  {
    hide Angles, All, Ending;
    match s.pc {
      case MoveWait(_) => assert s.queue + [] == s.queue;
      case Idle => assert s.queue + [] == s.queue;
      case Ended => assert s.queue + [] == s.queue;
      case Panicked => assert s.queue + [] == s.queue;
      case _ =>
    }
  }

  lemma ReadSends(s: State, line: Line)
    ensures Read(s, line).log == s.log && Read(s, line).queue == s.queue
  {}

  lemma AppendSends(s: State, t: State, c: seq<Command>)
    requires t.log == s.log && t.queue == s.queue + c
    ensures Every(t) == Every(s) + c && Cmds(s.log) <= Cmds(t.log)
  {
    Associative(Cmds(s.log), s.queue, c);
  }

  /** Commands are handled in the order they were sent in, and none is lost. */
  lemma StepSends(w: Timing, s: State, e: Event)
    ensures Every(Step(w, s, e)) == Every(s) + SentBy(w, s, e)
    ensures Cmds(s.log) <= Cmds(Step(w, s, e).log)
  {
    hide Every, Cmds, Handle, ReplNext, Read;
    AppendSends(s, s, []);
    if !s.gone {
      match e
      case Input(line) =>
        ReadSends(s, line);
        AppendSends(s, Step(w, s, e), []);
      case ReplStep =>
        ReplSends(w, s);
        AppendSends(s, Step(w, s, e), SentBy(w, s, e));
      case CoreStep => HandleSends(s);
      case Timeout =>
        CmdsAfter(s.log, Resolved);
        ResolveSends(s);
      case CtrlC => AppendSends(s, Step(w, s, e), SentBy(w, s, e));
      case Tick => AppendSends(s, Step(w, s, e), []);
      case Exit => AppendSends(s, Step(w, s, e), []);
    }
  }

  lemma ResolveSends(s: State)
    ensures Every(Resolve(s)) == Every(s) && Cmds(s.log) <= Cmds(Resolve(s).log)
  {
    CmdsAfter(s.log, Resolved);
  }

  /** How many commands have been handled between two states. */
  function Taken(s: State, u: State): int {
    |Cmds(u.log)| - |Cmds(s.log)|
  }

  lemma {:induction false} RunTakes(w: Timing, s: State, es: seq<Event>)
    ensures Cmds(s.log) <= Cmds(Run(w, s, es).log)
    decreases es
  {
    if es != [] {
      hide Step, Cmds;
      StepSends(w, s, es[0]);
      RunTakes(w, Step(w, s, es[0]), es[1..]);
    }
  }

  // ---------- the last second ----------

  /** `base` has been sent, the process ends at time `x`, and that is at most a second away. */
  predicate Closing(w: Timing, base: seq<Command>, x: nat, u: State) {
    base <= Every(u) && u.clock.exitAt == Some(x) && x <= u.clock.now + w.linger
  }

  lemma ClosingStep(w: Timing, base: seq<Command>, x: nat, u: State, e: Event)
    requires Closing(w, base, x, u) && ClockOk(w, u)
    ensures Closing(w, base, x, Step(w, u, e))
  {
    StepSends(w, u, e);
    StepClock(w, u, e);
    ExitStays(w, x, u, e);
  }

  lemma ExitStays(w: Timing, x: nat, u: State, e: Event)
    requires u.clock.exitAt == Some(x) && x <= u.clock.now + w.linger
    ensures Step(w, u, e).clock.exitAt == Some(x)
  {}

  /** Nothing but zero drives has been sent since, and no notification comes in time. */
  predicate Quiet(w: Timing, base: seq<Command>, x: nat, u: State) {
    && Closing(w, base, x, u)
    && OnlyZero(Every(u)[|base|..])
    && !u.pc.MoveDrive?
    && (u.pc.MoveWait? ==> u.notifs == 0 && (u.notifyInFlight ==> u.clock.notifAt + RESOLVE > x))
  }

  lemma QuietPc(w: Timing, base: seq<Command>, x: nat, u: State, e: Event)
    requires TimingOk(w) && QueueOk(u) && ClockOk(w, u) && Quiet(w, base, x, u) && !e.Input?
    ensures var v := Step(w, u, e);
            && !v.pc.MoveDrive? && OnlyZero(SentBy(w, u, e))
            && (v.pc.MoveWait? ==> v.notifs == 0 && (v.notifyInFlight ==> v.clock.notifAt + RESOLVE > x))
  {
    hide Every;
  }

  lemma QuietStep(w: Timing, base: seq<Command>, x: nat, u: State, e: Event)
    requires TimingOk(w) && QueueOk(u) && ClockOk(w, u) && Quiet(w, base, x, u) && !e.Input?
    ensures Quiet(w, base, x, Step(w, u, e))
  {
    QuietPc(w, base, x, u, e);
    ClosingStep(w, base, x, u, e);
    StepSends(w, u, e);
    hide Step, Every, SentBy, QueueOk, ClockOk;
    assert Every(Step(w, u, e))[|base|..] == Every(u)[|base|..] + SentBy(w, u, e);
  }

  lemma {:induction false} QuietRun(w: Timing, base: seq<Command>, x: nat, u: State, es: seq<Event>)
    requires TimingOk(w) && Inv(u) && ClockOk(w, u) && Quiet(w, base, x, u) && NoInput(es)
    ensures Quiet(w, base, x, Run(w, u, es))
    decreases es
  {
    if es != [] {
      var e := es[0];
      assert e in es && forall f :: f in es[1..] ==> f in es;
      QuietStep(w, base, x, u, e);
      StepInv(w, u, e);
      StepClock(w, u, e);
      hide Step, Inv, ClockOk, Quiet;
      QuietRun(w, base, x, Step(w, u, e), es[1..]);
    }
  }

  /** A move is past its wait, and its drive is the next command to be sent, or the last one that was. */
  predicate Racing(w: Timing, base: seq<Command>, x: nat, plan: Plan, u: State) {
    && Closing(w, base, x, u) && u.interrupted
    && (if u.pc.Idle? then Every(u) == base + [DriveVesc(plan.drive)]
        else (u.pc == MoveWait(plan) || u.pc == MoveDrive(plan)) && Every(u) == base)
  }

  lemma RacingStep(w: Timing, base: seq<Command>, x: nat, plan: Plan, u: State, e: Event)
    requires ClockOk(w, u) && Racing(w, base, x, plan, u) && !e.Input?
    ensures Racing(w, base, x, plan, Step(w, u, e))
  {
    ClosingStep(w, base, x, u, e);
    StepSends(w, u, e);
    hide Every, Closing;
    assert base + [] == base && (base + [DriveVesc(plan.drive)]) + [] == base + [DriveVesc(plan.drive)];
  }

  lemma {:induction false} RacingRun(w: Timing, base: seq<Command>, x: nat, plan: Plan, u: State, es: seq<Event>)
    requires ClockOk(w, u) && Racing(w, base, x, plan, u) && NoInput(es)
    ensures Racing(w, base, x, plan, Run(w, u, es))
    decreases es
  {
    if es != [] {
      var e := es[0];
      assert e in es && forall f :: f in es[1..] ==> f in es;
      RacingStep(w, base, x, plan, u, e);
      StepClock(w, u, e);
      hide Step, ClockOk, Racing;
      RacingRun(w, base, x, plan, Step(w, u, e), es[1..]);
    }
  }

  // ---------- what has been handled when it ends ----------

  const STOP := DriveVesc(ZERO)

  /** Commands are taken from the front: first those queued at ctrl-C, then the zero drive, then others. */
  lemma TakenInOrder(c: seq<Command>, q: seq<Command>, extra: seq<Command>, h: seq<Command>)
    requires c <= h <= c + q + [STOP] + extra
    ensures var n := |h| - |c|;
            if n <= |q| then h == c + q[..n]
            else n - |q| - 1 <= |extra| && h == (c + q + [STOP]) + extra[..n - |q| - 1]
  {
    var all, n := c + q + [STOP] + extra, |h| - |c|;
    assert h == all[..|h|];
    if n > |q| {
      assert all[..|h|] == (c + q + [STOP]) + extra[..n - |q| - 1];
    } else {
      assert all[..|h|] == c + q[..n];
    }
  }

  lemma StopIsLast(a: seq<Command>)
    ensures LastOf(a + [STOP]) == ZERO
  {
    assert (a + [STOP])[..|a|] == a;
  }

  lemma QuietOutcome(w: Timing, s: State, x: nat, u: State)
    requires Quiet(w, Every(s) + [STOP], x, u) && Cmds(s.log) <= Cmds(u.log)
    ensures LastDrive(u.log) == ZERO <==>
              Taken(s, u) > |s.queue| || LastOf(Cmds(s.log) + s.queue[..Taken(s, u)]) == ZERO
  {
    var base, n := Every(s) + [STOP], Taken(s, u);
    var extra := Every(u)[|base|..];
    hide Cmds;
    LastDriveIs(u.log);
    assert Every(u) == base + extra;
    TakenInOrder(Cmds(s.log), s.queue, extra, Cmds(u.log));
    if n > |s.queue| {
      StopIsLast(Cmds(s.log) + s.queue);
      LastOfJoin(base, extra[..n - |s.queue| - 1]);
    }
  }

  lemma RacingOutcome(w: Timing, s: State, x: nat, plan: Plan, u: State)
    requires Racing(w, Every(s) + [STOP], x, plan, u) && Cmds(s.log) <= Cmds(u.log) && plan.drive != ZERO
    ensures var n := Taken(s, u);
            LastDrive(u.log) == ZERO <==>
              if n <= |s.queue| then LastOf(Cmds(s.log) + s.queue[..n]) == ZERO else n != |s.queue| + 2
  {
    var base, n := Every(s) + [STOP], Taken(s, u);
    var extra := if u.pc.Idle? then [DriveVesc(plan.drive)] else [];
    hide Cmds;
    LastDriveIs(u.log);
    assert Every(u) == base + extra;
    TakenInOrder(Cmds(s.log), s.queue, extra, Cmds(u.log));
    if n > |s.queue| {
      StopIsLast(Cmds(s.log) + s.queue);
      if n == |s.queue| + 1 {
        assert extra[..0] == [] && base + [] == base;
      } else {
        assert extra[..1] == extra;
        assert (base + extra)[..|base|] == base;
      }
    }
  }

  // ---------- ctrl-C ----------

  /** A move whose drive can still be sent within the last second: it is past its wait, or the three
      seconds are over in time. */
  predicate Late(w: Timing, s: State) {
    || s.pc.MoveDrive?
    || (s.pc.MoveWait? && (s.notifs > 0 || (s.notifyInFlight && s.clock.notifAt + RESOLVE <= s.clock.now + w.linger)))
  }

  lemma InterruptBegins(w: Timing, s: State)
    requires TimingOk(w) && QueueOk(s) && ClockOk(w, s) && Alive(s)
    ensures var t, x := Step(w, s, CtrlC), s.clock.now + w.linger;
            if Late(w, s) then Racing(w, Every(s) + [STOP], x, s.pc.plan, t) else Quiet(w, Every(s) + [STOP], x, t)
  {
    StepSends(w, s, CtrlC);
    hide Every;
  }

  /** Ctrl-C, with nothing typed after it. At any later time let `n` be the number of commands handled
      since. The last drive handled is zero exactly when: with no more than the commands that were
      queued handled, the last drive among those and the ones before is zero; with more, the zero drive
      of ctrl-C was handled and no drive of a late move after it. */
  lemma CtrlCOutcome(w: Timing, es: seq<Event>, fs: seq<Event>)
    requires TimingOk(w) && Alive(Run(w, START, es)) && NoInput(fs)
    ensures var s := Run(w, START, es); var u := Run(w, Step(w, s, CtrlC), fs); var n := Taken(s, u);
            && n >= 0
            && (LastDrive(u.log) == ZERO <==>
                 if n <= |s.queue| then LastOf(Cmds(s.log) + s.queue[..n]) == ZERO
                 else !(Late(w, s) && n == |s.queue| + 2))
  {
    Reached(w, es);
    var s := Run(w, START, es);
    OutcomeFrom(w, s, fs);
  }

  lemma OutcomeFrom(w: Timing, s: State, fs: seq<Event>)
    requires TimingOk(w) && Inv(s) && ClockOk(w, s) && Alive(s) && NoInput(fs)
    ensures var u := Run(w, Step(w, s, CtrlC), fs); var n := Taken(s, u);
            && n >= 0
            && (LastDrive(u.log) == ZERO <==>
                 if n <= |s.queue| then LastOf(Cmds(s.log) + s.queue[..n]) == ZERO
                 else !(Late(w, s) && n == |s.queue| + 2))
  {
    var t, x, base := Step(w, s, CtrlC), s.clock.now + w.linger, Every(s) + [STOP];
    InterruptBegins(w, s);
    StepInv(w, s, CtrlC);
    StepClock(w, s, CtrlC);
    StepSends(w, s, CtrlC);
    RunTakes(w, t, fs);
    LatePlan(w, s);
    hide Step, Inv, ClockOk, Late, Quiet, Racing, Every, Cmds;
    if Late(w, s) {
      RacingRun(w, base, x, s.pc.plan, t, fs);
      RacingOutcome(w, s, x, s.pc.plan, Run(w, t, fs));
    } else {
      QuietRun(w, base, x, t, fs);
      QuietOutcome(w, s, x, Run(w, t, fs));
    }
  }

  lemma LatePlan(w: Timing, s: State)
    requires PlanInHand(s)
    ensures Late(w, s) ==> MidMove(s.pc) && s.pc.plan.drive != ZERO
  {}

  // ---------- quit and end of input ----------

  /** After `quit` or at the end of the input, at any later time: the last drive handled is zero exactly
      when the zero drive was handled or, without it, the last drive before is zero. */
  lemma QuitOutcome(w: Timing, es: seq<Event>, fs: seq<Event>)
    requires TimingOk(w) && Alive(Run(w, START, es)) && Run(w, START, es).pc.QuitSend? && NoInput(fs)
    ensures var s := Run(w, START, es); var u := Run(w, Step(w, s, ReplStep), fs); var n := Taken(s, u);
            && n >= 0
            && (LastDrive(u.log) == ZERO <==> n > |s.queue| || LastOf(Cmds(s.log) + s.queue[..n]) == ZERO)
  {
    Reached(w, es);
    var s := Run(w, START, es);
    var t, x, base := Step(w, s, ReplStep), s.clock.now + w.linger, Every(s) + [STOP];
    StepSends(w, s, ReplStep);
    QuitBegins(w, s);
    StepInv(w, s, ReplStep);
    StepClock(w, s, ReplStep);
    RunTakes(w, t, fs);
    hide Step, Inv, ClockOk, Quiet, Every, Cmds;
    QuietRun(w, base, x, t, fs);
    QuietOutcome(w, s, x, Run(w, t, fs));
  }

  lemma QuitBegins(w: Timing, s: State)
    requires TimingOk(w) && ClockOk(w, s) && Alive(s) && s.pc.QuitSend?
    ensures Quiet(w, Every(s) + [STOP], s.clock.now + w.linger, Step(w, s, ReplStep))
  {
    StepSends(w, s, ReplStep);
    hide Every;
  }

  // ---------- a panic ----------

  const PRESS := Input(MoveLine(Press(W, Lower)))
  const FORWARD := DriveVesc(Along(0.03))

  lemma RunCons(w: Timing, s: State, e: Event, es: seq<Event>)
    ensures Run(w, s, [e] + es) == Run(w, Step(w, s, e), es)
  {
    assert ([e] + es)[1..] == es;
  }

  /** The question mark ends the process at once: no zero drive is sent, and what is queued is lost. If
      no drive is waiting to be handled, the rover is left stopped exactly when it was believed to be. */
  lemma QuestionStopsIff(w: Timing, es: seq<Event>, fs: seq<Event>)
    requires var s := Run(w, START, es); !s.gone && s.pc.Idle?
    ensures var s := Run(w, START, es); var u := Run(w, Step(w, s, Input(Query)), fs);
            && u.gone && u.log == s.log && u.queue == s.queue
            && (LastDrive(u.log) == ZERO <==> LastOf(Every(s)[..|Every(s)| - |s.queue|]) == ZERO)
            && (NoDrive(s.queue) && !s.interrupted ==> (LastDrive(u.log) == ZERO <==> s.isStopped))
            && (NoDrive(s.queue) && s.isStopped ==> LastDrive(u.log) == ZERO)
  {
    var s := Run(w, START, es);
    GoneForGood(w, Step(w, s, Input(Query)), fs);
    PromptAgrees(w, es);
    LastDriveIs(s.log);
    assert Every(s)[..|Every(s)| - |s.queue|] == Cmds(s.log);
    if NoDrive(s.queue) { NothingDrives(s); }
  }

  lemma {:induction false} NothingDrives(s: State)
    requires NoDrive(s.queue)
    ensures LastDrive(Stream(s)) == LastDrive(s.log)
    decreases |s.queue|
  {
    if s.queue == [] {
      assert Stream(s) == s.log;
    } else {
      var t := s.(queue := s.queue[1..], log := s.log + [Handled(s.queue[0])]);
      NothingDrives(t);
      assert Stream(t) == Stream(s);
      assert t.log[..|s.log|] == s.log;
    }
  }

  const QUESTION := Input(Query)

  /** A rover that drives when the question mark is typed keeps driving. */
  lemma QuestionLeavesDriving(w: Timing, fs: seq<Event>)
    ensures LastDrive(Run(w, START, [PRESS, ReplStep, CoreStep, QUESTION] + fs).log) != ZERO
  {
    Driven(w);
    var s := Run(w, START, [PRESS, ReplStep, CoreStep]);
    assert [PRESS, ReplStep, CoreStep] + ([QUESTION] + fs) == [PRESS, ReplStep, CoreStep, QUESTION] + fs;
    RunJoin(w, START, [PRESS, ReplStep, CoreStep], [QUESTION] + fs);
    RunCons(w, s, QUESTION, fs);
    GoneForGood(w, Step(w, s, QUESTION), fs);
  }

  /** One key pressed, and its drive handled. */
  lemma Driven(w: Timing)
    ensures var s := Run(w, START, [PRESS, ReplStep, CoreStep]);
            s == START.(isStopped := false, log := [Handled(FORWARD)], clock := START.clock.(freeAt := PUBLISH))
  {
    var s := Step(w, Step(w, START, PRESS), ReplStep);
    Two(w, START, PRESS, ReplStep);
    RunJoin(w, START, [PRESS, ReplStep], [CoreStep]);
    assert [PRESS, ReplStep] + [CoreStep] == [PRESS, ReplStep, CoreStep];
    RunCons(w, s, CoreStep, []);
    assert [CoreStep] + [] == [CoreStep];
    assert s == START.(isStopped := false, queue := [FORWARD]);
  }

  lemma Two(w: Timing, s: State, e: Event, f: Event)
    ensures Run(w, s, [e, f]) == Step(w, Step(w, s, e), f)
  {
    hide Step;
    RunCons(w, s, e, [f]);
    RunCons(w, Step(w, s, e), f, []);
    assert [e] + [f] == [e, f] && [f] + [] == [f];
  }

  /** With a drive waiting, what the REPL believes decides nothing: the rover was believed to be stopped
      in both runs, and the same command was waiting. */
  lemma BeliefDecidesNothing(w: Timing)
    ensures var s := Run(w, START, [PRESS, ReplStep, CoreStep, Input(StopLine), ReplStep]);
            var t := Run(w, START, [Input(StopLine), ReplStep]);
            && s.pc.Idle? && t.pc.Idle? && s.isStopped && t.isStopped && s.queue == t.queue == [STOP]
            && LastDrive(Step(w, s, QUESTION).log) != ZERO && LastDrive(Step(w, t, QUESTION).log) == ZERO
  {
    Driven(w);
    var r := Run(w, START, [PRESS, ReplStep, CoreStep]);
    RunJoin(w, START, [PRESS, ReplStep, CoreStep], [Input(StopLine), ReplStep]);
    assert [PRESS, ReplStep, CoreStep] + [Input(StopLine), ReplStep] ==
           [PRESS, ReplStep, CoreStep, Input(StopLine), ReplStep];
    Two(w, r, Input(StopLine), ReplStep);
    Two(w, START, Input(StopLine), ReplStep);
  }
}
