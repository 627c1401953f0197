/** The drive protocol: safety over all interleavings, in terms of what the core thread has handled.
  */
module DriveTheorems {
  import opened Drive
  import opened DriveSafety

  // ---------- what happened, read off the log ----------

  /** The drive command handled last; the rover starts at rest. */
  function LastDrive(log: seq<Entry>): Quad {
    if log == [] then ZERO
    else
      var e := log[|log| - 1];
      if e.Handled? && e.c.DriveVesc? then e.c.values else LastDrive(log[..|log| - 1])
  }

  function WheelTarget(log: seq<Entry>): Quad {
    if log == [] then ZERO
    else
      var e := log[|log| - 1];
      if e.Handled? && e.c.DriveStepper? then e.c.values else WheelTarget(log[..|log| - 1])
  }

  predicate IsSteer(e: Entry) {
    e.Handled? && e.c.DriveStepper?
  }

  /** The last thing that happened to steering was a command, not its resolution. */
  predicate Unresolved(log: seq<Entry>) {
    exists j :: 0 <= j < |log| && IsSteer(log[j]) && forall k :: j < k < |log| ==> !log[k].Resolved?
  }

  /** Entry `i` is safe: the rover is not steered while it drives, and not driven before all steering
      is resolved or with its wheels in the wrong position. */
  predicate SafeAt(log: seq<Entry>, i: nat)
    requires i < |log|
  {
    match log[i]
    case Handled(DriveStepper(_)) => LastDrive(log[..i]) == ZERO
    case Handled(DriveVesc(v)) => v != ZERO ==> !Unresolved(log[..i]) && Suits(v, WheelTarget(log[..i]))
    case Handled(NotifyWhenDone) => true
    case Resolved => true
  }

  lemma UnresolvedStep(log: seq<Entry>, e: Entry)
    ensures Unresolved(log + [e]) <==> IsSteer(e) || (Unresolved(log) && !e.Resolved?)
  {
    var l := log + [e];
    if IsSteer(e) {
      assert IsSteer(l[|log|]);
    }
    if Unresolved(log) && !e.Resolved? {
      var j :| 0 <= j < |log| && IsSteer(log[j]) && forall k :: j < k < |log| ==> !log[k].Resolved?;
      assert IsSteer(l[j]) && forall k :: j < k < |l| ==> !l[k].Resolved?;
    }
    if Unresolved(l) && !IsSteer(e) {
      var j :| 0 <= j < |l| && IsSteer(l[j]) && forall k :: j < k < |l| ==> !l[k].Resolved?;
      assert j < |log| && !l[|log|].Resolved?;
      assert IsSteer(log[j]) && forall k :: j < k < |log| ==> !log[k].Resolved? by {
        assert forall k :: j < k < |log| ==> l[k] == log[k];
      }
    }
  }

  lemma SafeBefore(log: seq<Entry>, e: Entry, i: nat)
    requires i < |log|
    ensures SafeAt(log + [e], i) <==> SafeAt(log, i)
  {
    assert (log + [e])[..i] == log[..i];
  }

  lemma SafeLast(log: seq<Entry>, e: Entry)
    ensures var o := Seen(LastDrive(log), WheelTarget(log), Unresolved(log), true);
            SeeEntry(o, e).safe <==> SafeAt(log + [e], |log|)
  {
    assert (log + [e])[..|log|] == log;
    hide Unresolved, LastDrive, WheelTarget;
  }

  /** What an observer of the whole log would write down. */
  ghost predicate Reads(o: Seen, log: seq<Entry>) {
    && o.drive == LastDrive(log) && o.pos == WheelTarget(log) && o.unresolved == Unresolved(log)
    && (o.safe <==> forall i :: 0 <= i < |log| ==> SafeAt(log, i))
  }

  lemma ReadsNext(o: Seen, log: seq<Entry>, e: Entry)
    requires Reads(o, log)
    ensures Reads(SeeEntry(o, e), log + [e])
  {
    var l := log + [e];
    UnresolvedStep(log, e);
    SafeLast(log, e);
    assert l[..|log|] == log && l[|log|] == e;
    forall i | 0 <= i < |log| ensures SafeAt(l, i) <==> SafeAt(log, i) { SafeBefore(log, e, i); }
    hide SafeAt, Unresolved;
    if forall i :: 0 <= i < |log| ==> SafeAt(log, i) {
      assert SafeAt(l, |log|) ==> forall i :: 0 <= i < |l| ==> SafeAt(l, i);
    } else {
      var i :| 0 <= i < |log| && !SafeAt(log, i);
      assert !SafeAt(l, i);
    }
  }

  /** The observer sees exactly that. */
  lemma {:induction false} ObserverReads(log: seq<Entry>)
    ensures var o := SeenIn(log);
            && o.drive == LastDrive(log) && o.pos == WheelTarget(log) && o.unresolved == Unresolved(log)
            && (o.safe <==> forall i :: 0 <= i < |log| ==> SafeAt(log, i))
  {
    ObserverRuns(log);
    hide SafeAt, Unresolved, SeenIn, LastDrive, WheelTarget;
  }

  lemma {:induction false} ObserverRuns(log: seq<Entry>)
    ensures Reads(SeenIn(log), log)
  {
    if log != [] {
      var init, e := log[..|log| - 1], log[|log| - 1];
      assert log == init + [e];
      ObserverRuns(init);
      hide Reads;
      ReadsNext(SeenIn(init), init, e);
    }
  }

  // ---------- what is handled is safe ----------

  /** In every interleaving every command is handled in safety. */
  lemma NeverSteersWhileDriving(w: Timing, es: seq<Event>)
    ensures var log := Run(w, START, es).log; forall i :: 0 <= i < |log| ==> SafeAt(log, i)
  {
    Reached(w, es);
    var s := Run(w, START, es);
    SafeAhead(SeenIn(s.log), s.queue);
    ObserverReads(s.log);
  }

  lemma {:induction false} SafeAhead(o: Seen, q: seq<Command>)
    ensures Ahead(o, q).safe ==> o.safe
    decreases q
  {
    if q != [] { SafeAhead(See(o, q[0]), q[1..]); }
  }

  /** At most one notification is asked for at a time, and only while the REPL waits for it; then it
      is on its way. */
  lemma OneNotification(w: Timing, es: seq<Event>)
    ensures var s := Run(w, START, es);
            && Outstanding(s) <= 1
            && (Outstanding(s) == 1 <==> s.pc.MoveWait?)
            && (s.pc.MoveWait? ==> s.notifs == 1 || s.notifyInFlight || NotifyWhenDone in s.queue)
  {
    Reached(w, es);
    NoNotice(Run(w, START, es).queue);
  }

  // ---------- what the REPL believes ----------

  /** Everything handled and everything sent and not handled yet. */
  function Stream(s: State): seq<Entry> {
    s.log + seq(|s.queue|, i requires 0 <= i < |s.queue| => Handled(s.queue[i]))
  }

  lemma {:induction false} StreamSeen(s: State)
    ensures SeenIn(Stream(s)) == Sent(s)
    decreases |s.queue|
  {
    if s.queue == [] {
      assert Stream(s) == s.log;
    } else {
      var t := s.(queue := s.queue[1..], log := s.log + [Handled(s.queue[0])]);
      StreamSeen(t);
      SeenAfter(s.log, Handled(s.queue[0]));
      assert Stream(t) == Stream(s);
    }
  }

  /** At the prompt the wheels are where the REPL believes them to be and no steering is under way;
      if it believes that the rover is stopped, the last drive command it has sent is zero; and as
      long as ctrl-C is not pressed, only then. */
  lemma PromptAgrees(w: Timing, es: seq<Event>)
    ensures var s := Run(w, START, es);
            s.pc.Idle? ==>
              && s.targetStepperPos == Angles(s.wheels) && NoSteer(s.queue) && !Unresolved(s.log)
              && (s.isStopped ==> LastDrive(Stream(s)) == ZERO)
              && (!s.interrupted ==> (s.isStopped <==> LastDrive(Stream(s)) == ZERO))
  {
    Reached(w, es);
    var s := Run(w, START, es);
    StreamSeen(s);
    ObserverReads(Stream(s));
    ObserverReads(s.log);
    if s.pc.Idle? { AheadNoSteer(SeenIn(s.log), s.queue); }
  }

  // ---------- a move that was begun is finished ----------

  predicate NoInput(es: seq<Event>) {
    forall e :: e in es ==> !e.Input?
  }

  /** How far a move still has to go. */
  function Rank(s: State): nat {
    match s.pc
    case MoveStop(_) => 4
    case MoveSteer(_) => 3
    case MoveNotify(_) => 2
    case MoveWait(_) => 1
    case _ => 0
  }

  /** What the move waits for: nothing, the three seconds, or the core thread. */
  function Stage(s: State): nat {
    if !s.pc.MoveWait? || s.notifs > 0 then 0 else if s.notifyInFlight then 1 else 2
  }

  function Until(time: nat, now: nat): nat {
    if time > now then time - now else 0
  }

  function Left(s: State): nat {
    match Stage(s)
    case 0 => 0
    case 1 => Until(s.clock.notifAt + RESOLVE, s.clock.now)
    case _ => |s.queue|
  }

  function Rest(w: Timing, s: State): nat {
    match Stage(s)
    case 0 => 0
    case 1 => if TimePasses(w, s.clock) then 0 else 1
    case _ => Until(s.clock.freeAt, s.clock.now)
  }

  function NextEvent(w: Timing, s: State): Event {
    match Stage(s)
    case 0 => ReplStep
    case 1 =>
      if s.clock.now >= s.clock.notifAt + RESOLVE then Timeout else if TimePasses(w, s.clock) then Tick else CoreStep
    case _ => if s.clock.now >= s.clock.freeAt then CoreStep else Tick
  }

  predicate Alive(s: State) {
    !s.gone && s.clock.exitAt.None?
  }

  lemma ReplProgresses(w: Timing, s: State)
    requires Inv(s) && Alive(s) && MidMove(s.pc) && Stage(s) == 0
    ensures var t := Step(w, s, ReplStep);
            Alive(t) &&
            if s.pc.MoveDrive? then t.pc.Idle? && Sent(t).drive == s.pc.plan.drive && t.wheels == s.pc.plan.target
            else MidMove(t.pc) && t.pc.plan == s.pc.plan && Rank(t) < Rank(s)
  {
    if s.pc.MoveDrive? {
      AheadSend(SeenIn(s.log), s.queue, DriveVesc(s.pc.plan.drive));
    }
  }

  lemma WaitProgresses(w: Timing, s: State)
    requires TimingOk(w) && QueueOk(s) && ClockOk(w, s) && Alive(s) && Stage(s) > 0
    ensures var t := Step(w, s, NextEvent(w, s));
            && Alive(t) && t.pc == s.pc
            && (Stage(t) < Stage(s) || (Stage(t) == Stage(s) &&
                 (Left(t) < Left(s) || (Left(t) == Left(s) && Rest(w, t) < Rest(w, s)))))
  {
    NoNotice(s.queue);
  }

  /** From wherever a move is there is a way to its end: the threads cannot block each other. */
  lemma {:induction false} MoveCompletes(w: Timing, s: State) returns (es: seq<Event>)
    requires TimingOk(w) && Inv(s) && ClockOk(w, s) && Alive(s) && MidMove(s.pc)
    ensures NoInput(es)
    ensures var t := Run(w, s, es);
            t.pc.Idle? && Sent(t).drive == s.pc.plan.drive && t.wheels == s.pc.plan.target
    decreases Rank(s), Stage(s), Left(s), Rest(w, s)
  {
    var e := NextEvent(w, s);
    var t := Step(w, s, e);
    if Stage(s) == 0 { ReplProgresses(w, s); } else { WaitProgresses(w, s); }
    StepInv(w, s, e);
    StepClock(w, s, e);
    hide Step, Inv, ClockOk, Stage, Left, Rest;
    if s.pc.MoveDrive? {
      es := [e];
      assert Run(w, t, []) == t;
    } else {
      var fs := MoveCompletes(w, t);
      es := [e] + fs;
      assert es[1..] == fs;
    }
  }
}
