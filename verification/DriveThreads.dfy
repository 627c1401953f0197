/** The drive protocol in the form of the program: the state the threads share, the body of the core
    thread, `Move::run` and `Stop::run` with the other threads running between any two steps, and the
    REPL loop of `main`. Each is proved to go through states of `Drive`.
  */
module DriveThreads {
  import opened Wrappers
  import opened Drive
  import opened DrivePublishing

  /** What comes in from outside: the timing, the line typed when the REPL next asks for one, and what
      the other threads and the clock do after step `k` of the REPL thread. */
  datatype Schedule = Schedule(timing: Timing, line: nat -> Line, others: nat -> seq<Event>)

  predicate ByOthers(e: Event) {
    !e.Input? && !e.ReplStep?
  }

  ghost predicate ScheduleOk(x: Schedule) {
    forall k: nat, i :: 0 <= i < |x.others(k)| ==> ByOthers(x.others(k)[i])
  }

  function Own(x: Schedule, s: State, k: nat): Event {
    if s.pc.Idle? then Input(x.line(k)) else ReplStep
  }

  /** The REPL thread has made step `k`, and the other threads have not run yet. */
  function Acted(x: Schedule, k: nat): State {
    Step(x.timing, After(x, k), Own(x, After(x, k), k))
  }

  /** The state after `n` steps of the REPL thread. */
  function After(x: Schedule, n: nat): State {
    if n == 0 then START
    else
      var s := After(x, n - 1);
      Run(x.timing, Step(x.timing, s, Own(x, s, n - 1)), x.others(n - 1))
  }

  /** After `k` steps the REPL thread is at `pc`, unless the process has ended. */
  predicate At(x: Schedule, k: nat, pc: Repl) {
    After(x, k).gone || After(x, k).pc == pc
  }

  /** Such an execution is a run. */
  lemma {:induction false} ExecutionIsRun(x: Schedule, n: nat) returns (es: seq<Event>)
    ensures Run(x.timing, START, es) == After(x, n)
  {
    if n == 0 {
      es := [];
    } else {
      var fs := ExecutionIsRun(x, n - 1);
      var s := After(x, n - 1);
      var e := Own(x, s, n - 1);
      RunJoin(x.timing, START, fs, [e] + x.others(n - 1));
      assert ([e] + x.others(n - 1))[1..] == x.others(n - 1);
      es := fs + ([e] + x.others(n - 1));
    }
  }

  lemma HandleIs(s: State)
    ensures s.queue == [] ==> Handle(s) == s.(clock := s.clock.(freeAt := s.clock.now))
    ensures s.queue != [] ==>
              var c, t, now := s.queue[0], Handle(s), s.clock.now;
              t == s.(queue := s.queue[1..], log := s.log + [Handled(c)],
                      targetStepperPos := if c.DriveStepper? then c.values else s.targetStepperPos,
                      notifyInFlight := c.NotifyWhenDone? || s.notifyInFlight,
                      clock := if c.NotifyWhenDone? then s.clock.(freeAt := now, notifAt := now)
                               else s.clock.(freeAt := now + PUBLISH))
  {}

  datatype Outcome = Done | Failed | Waiting

  class Deckard {
    var cmds: seq<Command>          // the channel of commands
    var notifs: nat                 // the channel of notifications
    var wheels: Orientation         // Rover
    var isStopped: bool
    var targetStepperPos: Quad      // RoverInternal
    var notifyInFlight: bool
    var published: seq<Message>     // by the two nodes
    var interrupted: bool           // the ctrl-C handler has been entered
    var clock: Clock
    var gone: bool                  // the process has ended

    constructor ()
      ensures Represents(START)
    {
      cmds, notifs, wheels, isStopped := [], 0, Aligned(0.0), true;
      targetStepperPos, notifyInFlight, published := ZERO, false, [];
      interrupted, clock, gone := false, Clock(0, 0, 0, None), false;
    }

    ghost predicate Represents(s: State)
      reads this
    {
      && cmds == s.queue && notifs == s.notifs && wheels == s.wheels && isStopped == s.isStopped
      && targetStepperPos == s.targetStepperPos && notifyInFlight == s.notifyInFlight
      && published == Published(s.log)
      && interrupted == s.interrupted && clock == s.clock && gone == s.gone
    }

    ghost predicate InStep(x: Schedule, k: nat)
      reads this
    {
      ScheduleOk(x) && Represents(After(x, k))
    }

    // ---------- the other threads ----------

    /** The two loops over rounds and wheels; each round ends with a sleep. */
    method PublishThrice(subjects: seq<nat>, values: Quad)
      requires |subjects| == 4
      modifies this`published, this`clock
      ensures published == old(published) + Rounds(Wheels(subjects, values, 4), 3)
      ensures clock == old(clock).(freeAt := old(clock).freeAt + PUBLISH)
    {
      for n := 0 to 3
        invariant published == old(published) + Rounds(Wheels(subjects, values, 4), n)
        invariant clock == old(clock).(freeAt := old(clock).freeAt + 19 * n)
      {
        ghost var before := published;
        for i := 0 to 4
          invariant published == before + Wheels(subjects, values, i)
          invariant clock == old(clock).(freeAt := old(clock).freeAt + 19 * n)
        {
          published := published + [Message(subjects[i], Wheel(values, i))];
        }
        clock := clock.(freeAt := clock.freeAt + 19);
      }
    }

    /** What the core thread does with `cmd_rx.try_recv()`. */
    method HandleCommand(ghost s: State)
      requires Represents(s)
      modifies this
      ensures Represents(Handle(s))
    {
      hide Published, Messages, Handle;
      HandleIs(s);
      clock := clock.(freeAt := clock.now);
      if cmds == [] {
        return;
      }
      var msg := cmds[0];
      PublishedAfter(s.log, Handled(msg));
      cmds := cmds[1..];
      HandleMessage(msg);
    }

    method HandleMessage(msg: Command)
      modifies this`targetStepperPos, this`notifyInFlight, this`published, this`clock
      ensures published == old(published) + Messages(msg)
      ensures targetStepperPos == if msg.DriveStepper? then msg.values else old(targetStepperPos)
      ensures notifyInFlight == (msg.NotifyWhenDone? || old(notifyInFlight))
      ensures clock == if msg.NotifyWhenDone? then old(clock).(notifAt := old(clock).now)
                       else old(clock).(freeAt := old(clock).freeAt + PUBLISH)
    {
      hide Wheels, Rounds;
      match msg
      case DriveStepper(values) =>
        targetStepperPos := values;
        PublishThrice(STEPPER_SETPOINT_SUB, values);
      case DriveVesc(values) =>
        PublishThrice(VESC_SPEED_SUB, values);
      case NotifyWhenDone =>
        notifyInFlight := true;
        clock := clock.(notifAt := clock.now);
    }

    /** What the core thread does when the three seconds are over. */
    method ResolveNotification(ghost s: State)
      requires Represents(s) && !gone
      modifies this
      ensures forall w :: Represents(Step(w, s, Timeout))
    {
      if notifyInFlight && clock.now >= clock.notifAt + RESOLVE {
        PublishedAfter(s.log, Resolved);
        notifs := notifs + 1;
        notifyInFlight := false;
      }
    }

    method Send(c: Command)
      modifies this`cmds
      ensures cmds == old(cmds) + [c]
    {
      cmds := cmds + [c];
    }

    /** A second of sleep, after which the process ends. */
    method EndSoon(w: Timing)
      modifies this`clock
      ensures clock == Ending(w, old(clock))
    {
      if clock.exitAt.None? || clock.exitAt.value > clock.now + w.linger {
        clock := clock.(exitAt := Some(clock.now + w.linger));
      }
    }

    /** The ctrl-C handler. */
    method OnInterrupt(w: Timing, ghost s: State)
      requires Represents(s) && !gone
      modifies this
      ensures Represents(Step(w, s, CtrlC))
    {
      if !interrupted {
        Send(DriveVesc(ZERO));
        interrupted := true;
        EndSoon(w);
      }
    }

    /** One event of the others. */
    method Other(w: Timing, e: Event, ghost s: State)
      requires Represents(s) && ByOthers(e)
      modifies this
      ensures Represents(Step(w, s, e)) && Step(w, s, e).pc == s.pc
    {
      if gone {
        return;
      }
      match e {
        case CoreStep =>
          if clock.now >= clock.freeAt {
            HandleCommand(s);
          }
        case Timeout => ResolveNotification(s);
        case CtrlC => OnInterrupt(w, s);
        case Tick =>
          if TimePasses(w, clock) {
            clock := clock.(now := clock.now + 1);
          }
        case Exit =>
          if clock.exitAt.Some? && clock.now >= clock.exitAt.value {
            gone := true;
          }
        case Input(_) => assert false;
        case ReplStep => assert false;
      }
    }

    method Others(w: Timing, es: seq<Event>, ghost s: State)
      requires Represents(s) && forall i :: 0 <= i < |es| ==> ByOthers(es[i])
      modifies this
      ensures Represents(Run(w, s, es)) && Run(w, s, es).pc == s.pc
    {
      hide Step;
      ghost var t := s;
      for i := 0 to |es|
        invariant Represents(t) && t == Run(w, s, es[..i]) && t.pc == s.pc
      {
        Other(w, es[i], t);
        assert es[..i + 1] == es[..i] + [es[i]];
        RunJoin(w, s, es[..i], [es[i]]);
        assert Run(w, t, [es[i]]) == Step(w, t, es[i]);
        t := Step(w, t, es[i]);
      }
      assert es[..|es|] == es;
    }

    /** The REPL thread has made step `k`. */
    method EndStep(x: Schedule, k: nat)
      requires ScheduleOk(x) && Represents(Acted(x, k))
      modifies this
      ensures InStep(x, k + 1)
      ensures After(x, k + 1).pc == Acted(x, k).pc && (Acted(x, k).gone ==> After(x, k + 1).gone)
    {
      if Acted(x, k).gone { GoneForGood(x.timing, Acted(x, k), x.others(k)); }
      hide Step;
      Others(x.timing, x.others(k), Acted(x, k));
    }

    // ---------- cmd.rs ----------

    /** One `send` of the REPL thread that changes nothing else; a process that has ended sends nothing. */
    method SendStep(c: Command, next: Repl, x: Schedule, k: nat)
      requires InStep(x, k)
      requires ghost var s := After(x, k);
               !s.gone ==> !s.pc.Idle? && ReplNext(x.timing, s) == s.(queue := s.queue + [c], pc := next)
      modifies this
      ensures InStep(x, k + 1) && At(x, k + 1, next)
    {
      hide After;
      if !gone {
        Send(c);
      }
      EndStep(x, k);
    }

    /** `Stop::run` */
    method StopRun(x: Schedule, k: nat)
      requires InStep(x, k) && At(x, k, StopSend)
      modifies this
      ensures InStep(x, k + 1) && At(x, k + 1, Idle)
    {
      hide After;
      if !gone {
        Send(DriveVesc(ZERO));
        isStopped := true;
      }
      EndStep(x, k);
    }

    /** `rover.notif_rx.recv()`, tried `patience` times. */
    method Receive(plan: Plan, x: Schedule, k: nat, patience: nat) returns (received: bool, n: nat)
      requires InStep(x, k) && At(x, k, MoveWait(plan))
      modifies this
      ensures InStep(x, n) && n >= k
      ensures At(x, n, if received then MoveDrive(plan) else MoveWait(plan))
    {
      hide After;
      n := k;
      for i := 0 to patience
        invariant InStep(x, n) && n >= k && At(x, n, MoveWait(plan))
      {
        if !gone && notifs > 0 {
          notifs := notifs - 1;
          wheels := plan.target;
          EndStep(x, n);
          return true, n + 1;
        }
        EndStep(x, n);
        n := n + 1;
      }
      received := false;
    }

    /** The steering part of `Move::run`. */
    method Steer(plan: Plan, x: Schedule, k: nat, patience: nat) returns (received: bool, n: nat)
      requires InStep(x, k) && At(x, k, MoveStop(plan))
      modifies this
      ensures InStep(x, n) && n > k
      ensures At(x, n, if received then MoveDrive(plan) else MoveWait(plan))
    {
      hide After;
      SendStep(DriveVesc(ZERO), MoveSteer(plan), x, k);
      SendStep(DriveStepper(Angles(plan.target)), MoveNotify(plan), x, k + 1);
      SendStep(NotifyWhenDone, MoveWait(plan), x, k + 2);
      received, n := Receive(plan, x, k + 3, patience);
    }

    /** The end of `Move::run`. */
    method StartDriving(plan: Plan, x: Schedule, k: nat)
      requires InStep(x, k) && At(x, k, MoveDrive(plan))
      modifies this
      ensures InStep(x, k + 1) && At(x, k + 1, Idle)
    {
      hide After;
      if !gone {
        Send(DriveVesc(plan.drive));
        isStopped := false;
      }
      EndStep(x, k);
    }

    /** `Move::run` */
    method MoveRun(m: Move, x: Schedule, k: nat, patience: nat) returns (r: Outcome, n: nat)
      requires InStep(x, k) && At(x, k, Idle) && x.line(k) == MoveLine(m)
      modifies this
      ensures InStep(x, n) && n > k
      ensures r.Failed? <==> Parse(m).ValueError?
      ensures if r.Waiting? then Parse(m).Ok? && At(x, n, MoveWait(Parse(m).plan)) else At(x, n, Idle)
    {
      hide After;
      var parsed := Parse(m);
      if parsed.ValueError? {
        EndStep(x, k);
        return Failed, k + 1;
      }
      var plan, received := parsed.plan, true;
      var inPosition := plan.target == wheels;
      EndStep(x, k);
      n := k + 1;
      if !inPosition {
        received, n := Steer(plan, x, n, patience);
      }
      if !received {
        return Waiting, n;
      }
      StartDriving(plan, x, n);
      r, n := Done, n + 1;
    }

    // ---------- main.rs ----------

    /** The end of `main`. */
    method Quit(x: Schedule, k: nat)
      requires InStep(x, k) && At(x, k, QuitSend)
      modifies this
      ensures InStep(x, k + 1) && At(x, k + 1, Ended)
    {
      hide After;
      if !gone {
        Send(DriveVesc(ZERO));
        EndSoon(x.timing);
      }
      EndStep(x, k);
    }

    /** One line of the loop of `main`. `more` tells whether the loop goes on. */
    method ReadLine(x: Schedule, k: nat, patience: nat) returns (more: bool, n: nat)
      requires InStep(x, k) && At(x, k, Idle)
      modifies this
      ensures InStep(x, n) && n > k
      ensures if more then At(x, n, Idle)
              else After(x, n).gone || After(x, n).pc.Ended? || After(x, n).pc.MoveWait?
    {
      hide After;
      match x.line(k)
      case MoveLine(m) =>
        var r;
        r, n := MoveRun(m, x, k, patience);
        more := !r.Waiting?;
      case StopLine =>
        EndStep(x, k);
        StopRun(x, k + 1);
        more, n := true, k + 2;
      case QuitLine(sure) =>
        more := isStopped && wheels != Aligned(0.0) && !sure;
        EndStep(x, k);
        n := k + 1;
        if !more {
          Quit(x, n);
          n := n + 1;
        }
      case EndOfInput =>
        EndStep(x, k);
        Quit(x, k + 1);
        more, n := false, k + 2;
      case Query =>
        gone := true;
        EndStep(x, k);
        more, n := false, k + 1;
      case OtherLine =>
        EndStep(x, k);
        more, n := true, k + 1;
    }

    /** The loop of `main`, for at most `lines` lines. */
    method Loop(x: Schedule, lines: nat, patience: nat) returns (n: nat)
      requires InStep(x, 0)
      modifies this
      ensures InStep(x, n)
      ensures var s := After(x, n); s.gone || s.pc.Idle? || s.pc.Ended? || s.pc.MoveWait?
    {
      n := 0;
      var more := true;
      for i := 0 to lines
        invariant InStep(x, n) && At(x, n, Idle)
      {
        more, n := ReadLine(x, n, patience);
        if !more {
          return;
        }
      }
    }
  }
}
