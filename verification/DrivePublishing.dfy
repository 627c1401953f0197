/** The messages the core thread publishes: each drive and each steering command goes out three times,
    one message per wheel on that wheel's subject.
  */
module DrivePublishing {
  import opened Drive
  import opened DriveTheorems

  datatype Message = Message(subject: nat, value: real)

  const STEPPER_SETPOINT_SUB: seq<nat> := [3000, 3010, 3020, 3030]
  const VESC_SPEED_SUB: seq<nat> := [3050, 3060, 3070, 3080]

  /** `values[i]` */
  function Wheel(q: Quad, i: nat): real
    requires i < 4
  {
    if i == 0 then q.fl else if i == 1 then q.fr else if i == 2 then q.bl else q.br
  }

  /** The first `n` messages of a round. */
  function Wheels(subjects: seq<nat>, q: Quad, n: nat): seq<Message>
    requires |subjects| == 4 && n <= 4
  {
    seq(n, i requires 0 <= i < n => Message(subjects[i], Wheel(q, i)))
  }

  function Rounds(round: seq<Message>, n: nat): seq<Message> {
    if n == 0 then [] else Rounds(round, n - 1) + round
  }

  /** What is published for a command. */
  function Messages(c: Command): seq<Message> {
    match c
    case DriveStepper(v) => Rounds(Wheels(STEPPER_SETPOINT_SUB, v, 4), 3)
    case DriveVesc(v) => Rounds(Wheels(VESC_SPEED_SUB, v, 4), 3)
    case NotifyWhenDone => []
  }

  function Published(log: seq<Entry>): seq<Message> {
    if log == [] then []
    else
      var e := log[|log| - 1];
      Published(log[..|log| - 1]) + if e.Handled? then Messages(e.c) else []
  }

  lemma PublishedAfter(log: seq<Entry>, e: Entry)
    ensures Published(log + [e]) == Published(log) + if e.Handled? then Messages(e.c) else []
  {
    assert (log + [e])[..|log|] == log;
  }

  // ---------- what the wheels were told last ----------

  /** The value published last on a subject; a controller that has heard nothing is at rest. */
  function LastOn(ms: seq<Message>, subject: nat): real {
    if ms == [] then 0.0
    else
      var m := ms[|ms| - 1];
      if m.subject == subject then m.value else LastOn(ms[..|ms| - 1], subject)
  }

  lemma LastAfter(ms: seq<Message>, m: Message, subject: nat)
    ensures LastOn(ms + [m], subject) == if m.subject == subject then m.value else LastOn(ms, subject)
  {
    assert (ms + [m])[..|ms|] == ms;
  }

  lemma {:induction false} LastInRound(ms: seq<Message>, subjects: seq<nat>, q: Quad, n: nat, subject: nat)
    requires subjects in {STEPPER_SETPOINT_SUB, VESC_SPEED_SUB} && n <= 4
    ensures forall i :: 0 <= i < n && subjects[i] == subject ==>
              LastOn(ms + Wheels(subjects, q, n), subject) == Wheel(q, i)
    ensures subject !in subjects[..n] ==> LastOn(ms + Wheels(subjects, q, n), subject) == LastOn(ms, subject)
  {
    if n == 0 {
      assert ms + Wheels(subjects, q, 0) == ms;
    } else {
      LastInRound(ms, subjects, q, n - 1, subject);
      var m := Message(subjects[n - 1], Wheel(q, n - 1));
      assert ms + Wheels(subjects, q, n) == (ms + Wheels(subjects, q, n - 1)) + [m];
      LastAfter(ms + Wheels(subjects, q, n - 1), m, subject);
      assert subjects[..n] == subjects[..n - 1] + [subjects[n - 1]];
    }
  }

  lemma {:induction false} LastInRounds(ms: seq<Message>, subjects: seq<nat>, q: Quad, n: nat, subject: nat)
    requires subjects in {STEPPER_SETPOINT_SUB, VESC_SPEED_SUB} && n > 0
    ensures var all := ms + Rounds(Wheels(subjects, q, 4), n);
            && (forall i :: 0 <= i < 4 && subjects[i] == subject ==> LastOn(all, subject) == Wheel(q, i))
            && (subject !in subjects ==> LastOn(all, subject) == LastOn(ms, subject))
  {
    var round := Wheels(subjects, q, 4);
    var before := ms + Rounds(round, n - 1);
    assert ms + Rounds(round, n) == before + round;
    assert subjects[..4] == subjects;
    LastInRound(before, subjects, q, 4, subject);
    if n == 1 {
      assert before == ms;
    } else {
      LastInRounds(ms, subjects, q, n - 1, subject);
    }
  }

  lemma LastInMessages(ms: seq<Message>, c: Command, i: nat)
    requires i < 4
    ensures LastOn(ms + Messages(c), VESC_SPEED_SUB[i])
              == if c.DriveVesc? then Wheel(c.values, i) else LastOn(ms, VESC_SPEED_SUB[i])
    ensures LastOn(ms + Messages(c), STEPPER_SETPOINT_SUB[i])
              == if c.DriveStepper? then Wheel(c.values, i) else LastOn(ms, STEPPER_SETPOINT_SUB[i])
  {
    hide Wheels, Rounds, Wheel, LastOn;
    match c
    case NotifyWhenDone => assert ms + [] == ms;
    case DriveStepper(v) =>
      LastInRounds(ms, STEPPER_SETPOINT_SUB, v, 3, VESC_SPEED_SUB[i]);
      LastInRounds(ms, STEPPER_SETPOINT_SUB, v, 3, STEPPER_SETPOINT_SUB[i]);
    case DriveVesc(v) =>
      LastInRounds(ms, VESC_SPEED_SUB, v, 3, VESC_SPEED_SUB[i]);
      LastInRounds(ms, VESC_SPEED_SUB, v, 3, STEPPER_SETPOINT_SUB[i]);
  }

  /** What was published last is what was handled last: every motor has been told the speed of its wheel
      in the last drive command, and every stepper its position in the last steering command. */
  lemma {:induction false} WheelsToldLast(log: seq<Entry>, i: nat)
    requires i < 4
    ensures LastOn(Published(log), VESC_SPEED_SUB[i]) == Wheel(LastDrive(log), i)
    ensures LastOn(Published(log), STEPPER_SETPOINT_SUB[i]) == Wheel(WheelTarget(log), i)
  {
    if log != [] {
      var init, e := log[..|log| - 1], log[|log| - 1];
      WheelsToldLast(init, i);
      hide Messages, LastOn;
      if e.Handled? {
        LastInMessages(Published(init), e.c, i);
      } else {
        assert Published(log) == Published(init);
      }
    } else {
      assert Wheel(ZERO, i) == 0.0;
    }
  }

  /** The same by subject: front left, front right, back left, back right. */
  lemma SubjectsToldLast(log: seq<Entry>)
    ensures var ms, d, p := Published(log), LastDrive(log), WheelTarget(log);
            && d == Quad(LastOn(ms, 3050), LastOn(ms, 3060), LastOn(ms, 3070), LastOn(ms, 3080))
            && p == Quad(LastOn(ms, 3000), LastOn(ms, 3010), LastOn(ms, 3020), LastOn(ms, 3030))
  {
    WheelsToldLast(log, 0);
    WheelsToldLast(log, 1);
    WheelsToldLast(log, 2);
    WheelsToldLast(log, 3);
    hide Published, LastOn, LastDrive, WheelTarget;
  }

  // ---------- how often ----------

  function CountOn(ms: seq<Message>, subject: nat): nat {
    if ms == [] then 0 else CountOn(ms[..|ms| - 1], subject) + if ms[|ms| - 1].subject == subject then 1 else 0
  }

  lemma {:induction false} CountJoin(ms: seq<Message>, ns: seq<Message>, subject: nat)
    ensures CountOn(ms + ns, subject) == CountOn(ms, subject) + CountOn(ns, subject)
  {
    if ns == [] {
      assert ms + ns == ms;
    } else {
      var init := ns[..|ns| - 1];
      CountJoin(ms, init, subject);
      assert (ms + ns)[..|ms + ns| - 1] == ms + init;
    }
  }

  /** A round has one message for each of its subjects. */
  lemma {:induction false} CountInRound(subjects: seq<nat>, q: Quad, n: nat, i: nat)
    requires |subjects| == 4 && n <= 4 && i < 4
    requires forall j, k :: 0 <= j < k < 4 ==> subjects[j] != subjects[k]
    ensures CountOn(Wheels(subjects, q, n), subjects[i]) == if i < n then 1 else 0
    ensures forall other :: other !in subjects ==> CountOn(Wheels(subjects, q, n), other) == 0
  {
    if n > 0 {
      CountInRound(subjects, q, n - 1, i);
      assert Wheels(subjects, q, n)[..n - 1] == Wheels(subjects, q, n - 1);
      assert subjects[n - 1] in subjects;
    }
  }

  lemma {:induction false} CountInRounds(round: seq<Message>, n: nat, subject: nat)
    ensures CountOn(Rounds(round, n), subject) == n * CountOn(round, subject)
  {
    if n > 0 {
      CountInRounds(round, n - 1, subject);
      CountJoin(Rounds(round, n - 1), round, subject);
    }
  }

  lemma CountInMessages(c: Command, i: nat)
    requires i < 4
    ensures CountOn(Messages(c), VESC_SPEED_SUB[i]) == if c.DriveVesc? then 3 else 0
    ensures CountOn(Messages(c), STEPPER_SETPOINT_SUB[i]) == if c.DriveStepper? then 3 else 0
  {
    if !c.NotifyWhenDone? {
      var subjects := if c.DriveVesc? then VESC_SPEED_SUB else STEPPER_SETPOINT_SUB;
      CountInRound(subjects, c.values, 4, i);
      CountInRounds(Wheels(subjects, c.values, 4), 3, VESC_SPEED_SUB[i]);
      CountInRounds(Wheels(subjects, c.values, 4), 3, STEPPER_SETPOINT_SUB[i]);
    }
  }

  function Times(log: seq<Entry>, steering: bool): nat {
    if log == [] then 0
    else
      var e := log[|log| - 1];
      Times(log[..|log| - 1], steering)
      + if e.Handled? && (if steering then e.c.DriveStepper? else e.c.DriveVesc?) then 1 else 0
  }

  /** Every motor is told each drive command three times, and every stepper each steering command. */
  lemma {:induction false} ToldThrice(log: seq<Entry>, i: nat)
    requires i < 4
    ensures CountOn(Published(log), VESC_SPEED_SUB[i]) == 3 * Times(log, false)
    ensures CountOn(Published(log), STEPPER_SETPOINT_SUB[i]) == 3 * Times(log, true)
  {
    if log != [] {
      var init, e := log[..|log| - 1], log[|log| - 1];
      ToldThrice(init, i);
      if e.Handled? {
        CountInMessages(e.c, i);
        hide Messages, CountOn;
        CountJoin(Published(init), Messages(e.c), VESC_SPEED_SUB[i]);
        CountJoin(Published(init), Messages(e.c), STEPPER_SETPOINT_SUB[i]);
      } else {
        assert Published(log) == Published(init);
      }
    }
  }
}
