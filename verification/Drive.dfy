/** The drive protocol of deckard: the REPL thread (`cmd.rs`, `main.rs`), the core thread (`main.rs`)
    and the ctrl-C handler, which talk through a FIFO channel of commands and a channel of
    notifications.

    One event is one send, one receive, one command handled by the core thread, the resolution of a
    notification, one millisecond, or the end of the process; the threads interleave in any way the
    sleeps of the program allow. Angles and speeds are exact.
  */
module Drive {
  import opened Wrappers

  /** One value per wheel: front left, front right, back left, back right. */
  datatype Quad = Quad(fl: real, fr: real, bl: real, br: real)

  function All(v: real): Quad { Quad(v, v, v, v) }

  const ZERO := All(0.0)

  /** `WheelOrientation` */
  datatype Orientation = Aligned(angle: real) | RotateInPlace

  const ROTATE_ANGLES := Quad(-1.04, 1.06, 1.06, -1.04)

  /** The stepper positions of an orientation. */
  function Angles(o: Orientation): Quad {
    match o
    case Aligned(a) => All(a)
    case RotateInPlace => ROTATE_ANGLES
  }

  /** `NodeCommand` */
  datatype Command = DriveStepper(values: Quad) | DriveVesc(values: Quad) | NotifyWhenDone

  // ---------- the move commands ----------

  datatype Level = Hi | Mid | Lo | Xlo

  /** A `<speed>` word. */
  datatype Speed = Speed(level: Level, negative: bool)

  datatype Key = W | S | Q | E | A | D

  /** Whether a key is prefixed by a dot, in lower case or in upper case. */
  datatype Shift = Dotted | Lower | Upper

  /** The commands of `Move`. The angle of `move strafe` is in degrees. */
  datatype Move =
    | Straight(speed: Speed)
    | Strafe(degrees: int, speed: Speed)
    | Circle(speed: Speed)
    | Press(key: Key, shift: Shift)

  const PI: real := 3.1415927

  function Radians(degrees: int): real {
    (degrees as real) * PI / 180.0
  }

  function LevelOf(l: Level): (r: real)
    ensures r > 0.0
  {
    match l case Hi => 0.09 case Mid => 0.06 case Lo => 0.03 case Xlo => 0.02
  }

  /** `parse_speed` on a word it accepts. */
  function SpeedOf(s: Speed): (r: real)
    ensures r != 0.0
  {
    if s.negative then -LevelOf(s.level) else LevelOf(s.level)
  }

  function ShiftSpeed(s: Shift): (r: real)
    ensures r > 0.0
  {
    match s case Dotted => 0.02 case Lower => 0.03 case Upper => 0.06
  }

  /** Where to steer and how to drive then. */
  datatype Plan = Plan(target: Orientation, drive: Quad)

  datatype Parsed = Ok(plan: Plan) | ValueError

  function Along(speed: real): Quad { Quad(speed, -speed, speed, -speed) }

  function KeyPlan(key: Key, v: real): Plan {
    match key
    case W => Plan(Aligned(0.0), Along(v))
    case S => Plan(Aligned(0.0), Along(-v))
    case Q => Plan(Aligned(Radians(90)), Along(v))
    case E => Plan(Aligned(Radians(90)), Along(-v))
    case D => Plan(RotateInPlace, All(v))
    case A => Plan(RotateInPlace, All(-v))
  }

  /** What `Move::run` makes of a command. */
  function Parse(m: Move): Parsed {
    match m
    case Straight(s) => Ok(Plan(Aligned(0.0), Along(SpeedOf(s))))
    case Strafe(d, s) => if d > 90 || d <= -90 then ValueError else Ok(Plan(Aligned(Radians(d)), Along(SpeedOf(s))))
    case Circle(s) => Ok(Plan(RotateInPlace, All(SpeedOf(s))))
    case Press(key, shift) => Ok(KeyPlan(key, ShiftSpeed(shift)))
  }

  /** A drive that turns all wheels the way that suits the stepper positions: rotating in place only
      with the wheels in the rotation position, otherwise along parallel wheels. */
  predicate Suits(drive: Quad, pos: Quad) {
    || (drive == All(drive.fl) && pos == ROTATE_ANGLES)
    || (drive == Along(drive.fl) && pos == All(pos.fl))
  }

  predicate PlanOk(p: Plan) {
    p.drive != ZERO && Suits(p.drive, Angles(p.target))
  }

  lemma PlansSuit(m: Move)
    requires Parse(m).Ok?
    ensures PlanOk(Parse(m).plan)
  {
    assert Parse(m).plan.drive.fl != 0.0;
  }

  // ---------- the threads ----------

  /** Where the REPL thread is: between two sends, or blocked on the notification. */
  datatype Repl =
    | Idle
    | StopSend                      // Stop::run
    | MoveStop(plan: Plan)          // Move::run, before each send and the receive
    | MoveSteer(plan: Plan)
    | MoveNotify(plan: Plan)
    | MoveWait(plan: Plan)
    | MoveDrive(plan: Plan)
    | QuitSend                      // after the loop of main
    | Ended
    | Panicked                      // Help::run or Quit::run

  /** A line typed into the REPL. `Query` is the word "?": it is a keyword of `Help`, but not one the
      loop of `main` treats itself. */
  datatype Line = MoveLine(m: Move) | StopLine | QuitLine(sure: bool) | EndOfInput | Query | OtherLine

  datatype Event = Input(line: Line) | ReplStep | CoreStep | Timeout | CtrlC | Tick | Exit

  /** What the core thread does, in order. */
  datatype Entry = Handled(c: Command) | Resolved

  /** Three rounds of 19 milliseconds go with each drive or steering command. */
  const PUBLISH: nat := 57

  /** The wait before a notification is resolved. */
  const RESOLVE: nat := 3000

  /** How long the process lives after ctrl-C and after `quit`, and how long the core thread is at most
      busy receiving before it looks at the channel again. */
  datatype Timing = Timing(linger: nat, lag: nat)

  /** The process sleeps for a second before it ends, and is not two seconds late. */
  predicate TimingOk(w: Timing) {
    1000 <= w.linger < RESOLVE && w.lag > 0
  }

  /** Times in milliseconds: now, when the core thread is done publishing, when it started to wait for
      the wheels, and when the process ends. */
  datatype Clock = Clock(now: nat, freeAt: nat, notifAt: nat, exitAt: Option<nat>)

  datatype State = State(
    pc: Repl,
    wheels: Orientation,            // Rover
    isStopped: bool,
    queue: seq<Command>,            // cmd_tx .. cmd_rx
    notifs: nat,                    // notif_tx .. notif_rx
    notifyInFlight: bool,           // core thread
    targetStepperPos: Quad,
    log: seq<Entry>,
    interrupted: bool,              // ctrl-C has been pressed
    clock: Clock,
    gone: bool)                     // the process has ended

  const START := State(Idle, Aligned(0.0), true, [], 0, false, ZERO, [], false, Clock(0, 0, 0, None), false)

  function Send(s: State, c: Command, next: Repl): State {
    s.(queue := s.queue + [c], pc := next)
  }

  /** The process is to end one second from now, if not earlier. */
  function Ending(w: Timing, c: Clock): Clock {
    if c.exitAt.Some? && c.exitAt.value <= c.now + w.linger then c else c.(exitAt := Some(c.now + w.linger))
  }

  /** A line is read, and if it is a command its `run` begins. A panic of this thread ends the process
      at once. */
  function Read(s: State, line: Line): State {
    match line
    case MoveLine(m) =>
      var parsed := Parse(m);
      if parsed.ValueError? then s
      else if parsed.plan.target == s.wheels then s.(pc := MoveDrive(parsed.plan))
      else s.(pc := MoveStop(parsed.plan))
    case StopLine => s.(pc := StopSend)
    case QuitLine(sure) => if s.isStopped && s.wheels != Aligned(0.0) && !sure then s else s.(pc := QuitSend)
    case EndOfInput => s.(pc := QuitSend)
    case Query => s.(pc := Panicked, gone := true)
    case OtherLine => s
  }

  function ReplNext(w: Timing, s: State): State {
    match s.pc
    case StopSend => Send(s, DriveVesc(ZERO), Idle).(isStopped := true)
    case MoveStop(p) => Send(s, DriveVesc(ZERO), MoveSteer(p))
    case MoveSteer(p) => Send(s, DriveStepper(Angles(p.target)), MoveNotify(p))
    case MoveNotify(p) => Send(s, NotifyWhenDone, MoveWait(p))
    case MoveWait(p) =>
      if s.notifs > 0 then s.(notifs := s.notifs - 1, wheels := p.target, pc := MoveDrive(p)) else s
    case MoveDrive(p) => Send(s, DriveVesc(p.drive), Idle).(isStopped := false)
    case QuitSend => Send(s, DriveVesc(ZERO), Ended).(clock := Ending(w, s.clock))
    case Idle => s
    case Ended => s
    case Panicked => s
  }

  /** The core thread looks at the channel. */
  function Handle(s: State): State {
    var now := s.clock.now;
    if s.queue == [] then s.(clock := s.clock.(freeAt := now))
    else
      var c := s.queue[0];
      var t := s.(queue := s.queue[1..], log := s.log + [Handled(c)]);
      match c
      case DriveStepper(v) => t.(targetStepperPos := v, clock := s.clock.(freeAt := now + PUBLISH))
      case DriveVesc(_) => t.(clock := s.clock.(freeAt := now + PUBLISH))
      case NotifyWhenDone => t.(notifyInFlight := true, clock := s.clock.(freeAt := now, notifAt := now))
  }

  function Resolve(s: State): State {
    s.(notifs := s.notifs + 1, notifyInFlight := false, log := s.log + [Resolved])
  }

  function Interrupt(w: Timing, s: State): State {
    s.(queue := s.queue + [DriveVesc(ZERO)], interrupted := true, clock := Ending(w, s.clock))
  }

  /** Time passes as long as the core thread need not look at the channel and the process need not end. */
  predicate TimePasses(w: Timing, c: Clock) {
    c.now < c.freeAt + w.lag && (c.exitAt.Some? ==> c.now < c.exitAt.value)
  }

  function Step(w: Timing, s: State, e: Event): State {
    if s.gone then s
    else
      match e
      case Input(line) => if s.pc.Idle? then Read(s, line) else s
      case ReplStep => ReplNext(w, s)
      case CoreStep => if s.clock.now >= s.clock.freeAt then Handle(s) else s
      case Timeout => if s.notifyInFlight && s.clock.now >= s.clock.notifAt + RESOLVE then Resolve(s) else s
      case CtrlC => if s.interrupted then s else Interrupt(w, s)
      case Tick => if TimePasses(w, s.clock) then s.(clock := s.clock.(now := s.clock.now + 1)) else s
      case Exit => if s.clock.exitAt.Some? && s.clock.now >= s.clock.exitAt.value then s.(gone := true) else s
  }

  function Run(w: Timing, s: State, es: seq<Event>): State
    decreases es
  {
    if es == [] then s else Run(w, Step(w, s, es[0]), es[1..])
  }

  lemma {:induction false} RunJoin(w: Timing, s: State, es: seq<Event>, fs: seq<Event>)
    ensures Run(w, s, es + fs) == Run(w, Run(w, s, es), fs)
    decreases es
  {
    hide Step;
    if es == [] {
      assert es + fs == fs;
    } else {
      RunJoin(w, Step(w, s, es[0]), es[1..], fs);
      assert (es + fs)[1..] == es[1..] + fs;
    }
  }

  /** A process that has ended does nothing more. */
  lemma {:induction false} GoneForGood(w: Timing, s: State, es: seq<Event>)
    requires s.gone
    ensures Run(w, s, es) == s
    decreases es
  {
    if es != [] { GoneForGood(w, s, es[1..]); }
  }

  predicate MidMove(pc: Repl) {
    pc.MoveStop? || pc.MoveSteer? || pc.MoveNotify? || pc.MoveWait? || pc.MoveDrive?
  }

  // ---------- an observer of the core thread ----------

  /** What has been done to the rover: how it drives, where its wheels are to go, whether a steering
      command is still unresolved, and whether all this was safe. */
  datatype Seen = Seen(drive: Quad, pos: Quad, unresolved: bool, safe: bool)

  function See(o: Seen, c: Command): Seen {
    match c
    case DriveVesc(v) => o.(drive := v, safe := o.safe && (v != ZERO ==> !o.unresolved && Suits(v, o.pos)))
    case DriveStepper(p) => Seen(o.drive, p, true, o.safe && o.drive == ZERO)
    case NotifyWhenDone => o
  }

  function SeeEntry(o: Seen, e: Entry): Seen {
    match e
    case Handled(c) => See(o, c)
    case Resolved => o.(unresolved := false)
  }

  function SeenIn(log: seq<Entry>): Seen {
    if log == [] then Seen(ZERO, ZERO, false, true) else SeeEntry(SeenIn(log[..|log| - 1]), log[|log| - 1])
  }

  /** What will have been seen when the commands of `q` are handled too. */
  function Ahead(o: Seen, q: seq<Command>): Seen
    decreases q
  {
    if q == [] then o else Ahead(See(o, q[0]), q[1..])
  }

  /** What will have been seen when everything sent so far is handled. */
  function Sent(s: State): Seen {
    Ahead(SeenIn(s.log), s.queue)
  }
}
