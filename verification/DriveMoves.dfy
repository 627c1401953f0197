/** What the typed commands of deckard mean for the rover: where its wheels point, which way they roll
    over the ground and how fast; and what a line typed at the prompt leads to.
  */
module DriveMoves {
  import opened Drive
  import opened DriveSafety
  import opened DriveTheorems

  // ---------- over the ground ----------

  /** How fast each wheel rolls forwards. The right ones are mounted the other way around. */
  function Ground(drive: Quad): Quad {
    Quad(drive.fl, -drive.fr, drive.bl, -drive.br)
  }

  function Opposite(q: Quad): Quad {
    Quad(-q.fl, -q.fr, -q.bl, -q.br)
  }

  /** All wheels at the same angle, and the rover moves along them at `v`. */
  predicate Rolls(p: Plan, degrees: int, v: real) {
    && p.target.Aligned?
    && Near(180.0 * p.target.angle, 3.14159265 * degrees as real, 0.0000001 * degrees as real)
    && Ground(p.drive) == All(v)
  }

  predicate Near(x: real, y: real, error: real) {
    (y <= x <= y + error) || (y + error <= x <= y)
  }

  /** The wheels stand across, and the rover turns on the spot, clockwise for a positive `v`. */
  predicate Turns(p: Plan, v: real) {
    Angles(p.target) == Quad(-1.04, 1.06, 1.06, -1.04) && Ground(p.drive) == Quad(v, -v, v, -v)
  }

  /** A speed in hundredths, as the word says. */
  predicate SpeedIs(s: Speed, v: real) {
    && (v < 0.0 <==> s.negative)
    && 100.0 * (if v < 0.0 then -v else v)
       == match s.level case Hi => 9.0 case Mid => 6.0 case Lo => 3.0 case Xlo => 2.0
  }

  /** The words a key stands for. */
  function InWords(key: Key, shift: Shift): Move {
    var level := match shift case Dotted => Xlo case Lower => Lo case Upper => Mid;
    var forwards, backwards := Speed(level, false), Speed(level, true);
    match key
    case W => Straight(forwards)
    case S => Straight(backwards)
    case Q => Strafe(90, forwards)
    case E => Strafe(90, backwards)
    case D => Circle(forwards)
    case A => Circle(backwards)
  }

  /** What a move is to do, in its own words: straight and strafing moves roll along the wheels, circles turn on
      the spot, at the speed of the word and in its direction. */
  predicate AsAsked(m: Move, p: Plan)
    decreases m.Press?
  {
    var v := p.drive.fl;
    match m
    case Straight(s) => Rolls(p, 0, v) && SpeedIs(s, v)
    case Strafe(d, s) => Rolls(p, d, v) && SpeedIs(s, v)
    case Circle(s) => Turns(p, v) && SpeedIs(s, v)
    case Press(key, shift) => AsAsked(InWords(key, shift), p)
  }

  predicate InRange(m: Move) {
    m.Strafe? ==> -90 < m.degrees <= 90
  }

  lemma AngleNear(degrees: int)
    ensures Near(180.0 * Radians(degrees), 3.14159265 * degrees as real, 0.0000001 * degrees as real)
    ensures Radians(0) == 0.0
  {}

  lemma SpeedsAre(s: Speed)
    ensures SpeedIs(s, SpeedOf(s))
  {}

  lemma WordsAsAsked(m: Move)
    requires !m.Press? && Parse(m).Ok?
    ensures AsAsked(m, Parse(m).plan)
  {
    SpeedsAre(m.speed);
    AngleNear(0);
    if m.Strafe? { AngleNear(m.degrees); }
    hide SpeedIs, SpeedOf, Radians, Near;
  }

  /** Every move but a strafe beyond the range of (-90, 90] degrees is accepted, and does what it says. */
  lemma MovesAsAsked(m: Move)
    ensures Parse(m).Ok? <==> InRange(m)
    ensures Parse(m).Ok? ==> AsAsked(m, Parse(m).plan)
  {
    if m.Press? {
      KeysAreWords(m.key, m.shift);
      WordsAsAsked(InWords(m.key, m.shift));
    } else if InRange(m) {
      WordsAsAsked(m);
    }
    hide Rolls, Turns, SpeedIs, KeyPlan, Radians, SpeedOf;
  }

  /** The same move the other way. */
  function Reversed(m: Move): Move
    requires !m.Press?
  {
    m.(speed := m.speed.(negative := !m.speed.negative))
  }

  /** A word with a minus sign drives exactly opposite to the same word without it. */
  lemma MinusReverses(m: Move)
    requires !m.Press? && Parse(m).Ok?
    ensures Parse(Reversed(m)).Ok? && Parse(Reversed(m)).plan.target == Parse(m).plan.target
    ensures Parse(Reversed(m)).plan.drive == Opposite(Parse(m).plan.drive)
  {}

  /** The two command languages agree. */
  lemma KeysAreWords(key: Key, shift: Shift)
    ensures Parse(Press(key, shift)) == Parse(InWords(key, shift))
  {}

  // ---------- a line typed at the prompt ----------

  lemma Typed(w: Timing, s: State, line: Line, es: seq<Event>)
    requires s.pc.Idle? && !s.gone
    ensures Run(w, s, [Input(line)] + es) == Run(w, Read(s, line), es)
  {
    assert ([Input(line)] + es)[1..] == es;
  }

  /** From the prompt in any reachable state a move that is in range can be finished without another line:
      then the last drive sent and the position of the wheels do what was asked, and the REPL knows it drives.
      One out of range changes nothing. */
  lemma MoveTyped(w: Timing, es: seq<Event>, m: Move) returns (fs: seq<Event>)
    requires TimingOk(w) && Alive(Run(w, START, es)) && Run(w, START, es).pc.Idle?
    ensures NoInput(fs)
    ensures var s := Run(w, START, es); var t := Run(w, s, [Input(MoveLine(m))] + fs);
            if InRange(m) then
              && t.pc.Idle? && !t.isStopped && t.targetStepperPos == Angles(t.wheels)
              && AsAsked(m, Plan(t.wheels, LastDrive(Stream(t))))
            else fs == [] && t == s
  {
    var s := Run(w, START, es);
    var line := MoveLine(m);
    var s1 := Read(s, line);
    MovesAsAsked(m);
    Typed(w, s, line, []);
    RunJoin(w, START, es, [Input(line)]);
    assert [Input(line)] + [] == [Input(line)];
    fs := [];
    if InRange(m) {
      Reached(w, es + [Input(line)]);
      PlansSuit(m);
      fs := MoveCompletes(w, s1);
      Typed(w, s, line, fs);
      var t := Run(w, s1, fs);
      RunJoin(w, START, es, [Input(line)] + fs);
      PromptAgrees(w, es + ([Input(line)] + fs));
      StreamSeen(t);
      ObserverReads(Stream(t));
    }
  }

  /** What it sends: a stop, the wheel positions and the wish to be notified, and after the notification the
      drive; or, when the wheels are believed to be there already, the drive at once. */
  lemma MoveSends(w: Timing, s: State, m: Move)
    requires s.pc.Idle? && !s.gone && InRange(m)
    ensures Parse(m).Ok?
    ensures var p, read := Parse(m).plan, [Input(MoveLine(m))];
            if p.target == s.wheels then
              Run(w, s, read + [ReplStep]) == s.(queue := s.queue + [DriveVesc(p.drive)], isStopped := false)
            else
              Run(w, s, read + [ReplStep, ReplStep, ReplStep])
              == s.(queue := s.queue + [DriveVesc(ZERO), DriveStepper(Angles(p.target)), NotifyWhenDone],
                    pc := MoveWait(p))
  {
    MovesAsAsked(m);
    var p, line := Parse(m).plan, MoveLine(m);
    if p.target == s.wheels {
      Typed(w, s, line, [ReplStep]);
      One(w, Read(s, line), ReplStep);
    } else {
      Typed(w, s, line, [ReplStep, ReplStep, ReplStep]);
      var a := s.(queue := s.queue + [DriveVesc(ZERO)], pc := MoveSteer(p));
      var b := s.(queue := a.queue + [DriveStepper(Angles(p.target))], pc := MoveNotify(p));
      assert Step(w, Read(s, line), ReplStep) == a && Step(w, a, ReplStep) == b;
      var es: seq<Event> := [ReplStep, ReplStep, ReplStep];
      assert es[1..] == [ReplStep, ReplStep] && es[1..][1..] == [ReplStep];
      One(w, b, ReplStep);
      assert b.queue + [NotifyWhenDone]
          == s.queue + [DriveVesc(ZERO), DriveStepper(Angles(p.target)), NotifyWhenDone];
    }
  }

  lemma One(w: Timing, s: State, e: Event)
    ensures Run(w, s, [e]) == Step(w, s, e)
  {
    assert [e][1..] == [];
    assert Run(w, Step(w, s, e), []) == Step(w, s, e);
  }

  /** `stop` sends one zero drive and is believed, wherever the wheels are. */
  lemma StopTyped(w: Timing, s: State)
    requires s.pc.Idle? && !s.gone
    ensures Run(w, s, [Input(StopLine)] + [ReplStep])
         == s.(queue := s.queue + [DriveVesc(ZERO)], isStopped := true)
  {
    Typed(w, s, StopLine, [ReplStep]);
    One(w, Read(s, StopLine), ReplStep);
  }

  /** `quit` is refused exactly when the rover is believed to be stopped with its wheels not straight and
      the question is not answered with yes; otherwise it sends one zero drive, and the process ends. */
  lemma QuitTyped(w: Timing, s: State, sure: bool)
    requires s.pc.Idle? && !s.gone
    ensures var t := Run(w, s, [Input(QuitLine(sure))] + [ReplStep]);
            if s.isStopped && s.wheels != Aligned(0.0) && !sure then t == s
            else
              && t.pc.Ended? && t.queue == s.queue + [DriveVesc(ZERO)] && t.log == s.log
              && t.clock.exitAt.Some? && t.clock.exitAt.value <= s.clock.now + w.linger
  {
    Typed(w, s, QuitLine(sure), [ReplStep]);
    One(w, Read(s, QuitLine(sure)), ReplStep);
  }
}
