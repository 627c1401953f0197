/** The frame-buffer bridge of the CAN converter: a fixed pool of frame buffers that the main loop
    (`main.c`, `can_common.c`) and the USB interrupt (`usbd_gs_can.c`) pass to each other.

    A state holds every place a buffer can be, and the program counter of the main loop between two
    of its interrupt-disabled sections, with the buffer the loop holds in a local variable. One
    event is one such section of the main loop, or one whole USB callback; the interrupt may come
    between any two sections. Buffers are named by their index in `msgbuf`. The number of buffers
    and of channels and the CAN driver are parameters.
  */
module Bridge {
  import opened GsUsb
  import opened Wrappers

  /** What the buffer protocol needs of a CAN driver: what `can_send` does to the frame it sends,
      `can_parse_error_status` on the previous and the new status word and the error counters, and
      `status_is_active`. */
  datatype Driver = Driver(
    sent: HostFrame -> HostFrame,
    parse: (bv32, bv32, bv32, HostFrame) -> (bool, HostFrame),
    active: bv32 -> bool)

  ghost predicate DriverOk(d: Driver) {
    && d.active(0)
    && (forall f :: MessageOf(d.sent(f)) == MessageOf(f))
    && (forall last, err, ecr, f :: ParseOk(d, last, err, ecr, f))
  }

  /** A status reading is reported in a frame of its channel that no host frame can be confused
      with, and a host that agreed with `last` agrees with `err`. */
  ghost predicate ParseOk(d: Driver, last: bv32, err: bv32, ecr: bv32, f: HostFrame) {
    var (send, g) := d.parse(last, err, ecr, f);
    && g.echoId == NOT_ECHO && g.canId & ERR_FLAG != 0
    && g.channel == f.channel
    && (if send then HostBelief(d.active(last), g) else d.active(last)) == d.active(err)
  }

  datatype Config = Config(buffers: nat, channels: nat, canfd: bool, driver: Driver)

  /** The points of the main loop between two atomic sections. */
  datatype Point =
    | SendTake | SendTry | SendBack | SendEcho            // CAN_SendFrame
    | OutTake | OutArm                                    // USBD_GS_CAN_ReceiveFromHost
    | InTake | InTransmit | InDrop                        // USBD_GS_CAN_SendToHost
    | RxCheck | RxTake | RxRead | RxBack | RxQueue        // CAN_ReceiveFrame
    | ErrCheck | ErrTake | ErrParse | ErrBack | ErrQueue  // CAN_HandleError

  /** Where the main loop is, for which channel, and what its local variables hold there. */
  datatype Pc = Pc(at: Point, ch: nat, held: Option<nat>, err: bv32)

  datatype Core = Core(
    store: seq<HostFrame>,         // msgbuf
    pool: seq<nat>,                // list_frame_pool
    fromHost: seq<seq<nat>>,       // channels[i].list_from_host
    toHost: seq<nat>,              // list_to_host
    fromHostBuf: Option<nat>,
    toHostBuf: Option<nat>,
    outArmed: bool,                // an OUT transfer into from_host_buf is armed
    inFlight: bool,                // an IN transfer of to_host_buf is under way
    suspended: bool,               // is_usb_suspend_cb
    configured: bool,              // the host has configured the device
    errOld: seq<bv32>,             // channels[i].reg_esr_old
    pc: Pc)

  /** What the peripherals answer to the main loop. */
  datatype Answer = Answer(mailboxFree: bool, rxPending: bool, rx: Option<HostFrame>, esr: bv32, ecr: bv32, now: bv32)

  datatype Event =
    | Loop(a: Answer)
    | DataIn
    | DataOut(frame: HostFrame, rxlen: nat)
    | Suspend
    | Resume
    | Configure

  // ---------- who holds a buffer ----------

  ghost function HeldCopies(x: nat, o: Option<nat>): nat {
    if o == Some(x) then 1 else 0
  }

  ghost function Copies(x: nat, q: seq<nat>): nat {
    if q == [] then 0 else (if q[0] == x then 1 else 0) + Copies(x, q[1..])
  }

  ghost function QueuedCopies(x: nat, qs: seq<seq<nat>>): nat {
    if qs == [] then 0 else Copies(x, qs[0]) + QueuedCopies(x, qs[1..])
  }

  /** How many references there are to buffer `x`, over all places. */
  ghost function References(s: Core, x: nat): nat {
    Copies(x, s.pool) + QueuedCopies(x, s.fromHost) + Copies(x, s.toHost)
    + HeldCopies(x, s.fromHostBuf) + HeldCopies(x, s.toHostBuf) + HeldCopies(x, s.pc.held)
  }

  /** Conservation: each of the `n` buffers is in exactly one place, and nothing else is in any. */
  ghost predicate Conserved(n: nat, s: Core) {
    forall x: nat :: References(s, x) == if x < n then 1 else 0
  }

  /** Transfer discipline. An OUT transfer is armed exactly when there is a buffer for it, except
      between taking that buffer and `PrepareReceive`. An IN transfer is under way exactly when
      `to_host_buf` is set, except while `SendToHost` is still deciding about it. */
  predicate TransfersOk(s: Core) {
    && (s.pc.at.OutArm? ==> s.fromHostBuf.Some? && !s.outArmed)
    && (!s.pc.at.OutArm? ==> (s.outArmed <==> s.fromHostBuf.Some?))
    && (InSending(s.pc.at) ==> s.toHostBuf.Some? && !s.inFlight)
    && (!InSending(s.pc.at) ==> (s.inFlight <==> s.toHostBuf.Some?))
  }

  predicate InSending(p: Point) {
    p.InTransmit? || p.InDrop?
  }

  predicate Holding(p: Point) {
    || p.SendTry? || p.SendBack? || p.SendEcho?
    || p.RxRead? || p.RxBack? || p.RxQueue?
    || p.ErrParse? || p.ErrBack? || p.ErrQueue?
  }

  predicate InUsb(p: Point) {
    p.OutTake? || p.OutArm? || p.InTake? || p.InTransmit? || p.InDrop?
  }

  predicate InSend(p: Point) {
    p.SendTake? || p.SendTry? || p.SendBack? || p.SendEcho?
  }

  predicate InReceive(p: Point) {
    p.RxCheck? || p.RxTake? || p.RxRead? || p.RxBack? || p.RxQueue?
  }

  predicate InError(p: Point) {
    p.ErrCheck? || p.ErrTake? || p.ErrParse? || p.ErrBack? || p.ErrQueue?
  }

  predicate PcOk(cfg: Config, pc: Pc) {
    && (!InUsb(pc.at) ==> pc.ch < cfg.channels)
    && (pc.held.Some? <==> Holding(pc.at))
  }

  ghost predicate WellFormed(cfg: Config, s: Core) {
    && |s.store| == cfg.buffers
    && |s.fromHost| == |s.errOld| == cfg.channels
    && PcOk(cfg, s.pc)
    && TransfersOk(s)
    && Conserved(cfg.buffers, s)
  }

  lemma {:induction false} CopiesOfMember(x: nat, q: seq<nat>)
    requires x in q
    ensures Copies(x, q) >= 1
  {
    if q[0] != x { CopiesOfMember(x, q[1..]); }
  }

  /** A buffer held in a single place is one of `msgbuf`. */
  lemma HeldInRange(n: nat, s: Core)
    requires Conserved(n, s)
    ensures s.pc.held.Some? ==> s.pc.held.value < n
    ensures s.fromHostBuf.Some? ==> s.fromHostBuf.value < n
    ensures s.toHostBuf.Some? ==> s.toHostBuf.value < n
  {
    if s.pc.held.Some? { assert References(s, s.pc.held.value) >= 1; }
    if s.fromHostBuf.Some? { assert References(s, s.fromHostBuf.value) >= 1; }
    if s.toHostBuf.Some? { assert References(s, s.toHostBuf.value) >= 1; }
  }

  // ---------- where the loop goes next ----------

  function At(p: Point, ch: nat): Pc {
    Pc(p, ch, None, 0)
  }

  function LoopTop(cfg: Config): Pc {
    if cfg.channels > 0 then At(SendTake, 0) else At(OutTake, 0)
  }

  function AfterSend(cfg: Config, ch: nat): Pc {
    if ch + 1 < cfg.channels then At(SendTake, ch + 1) else At(OutTake, 0)
  }

  function AfterUsb(cfg: Config): Pc {
    if cfg.channels > 0 then At(RxCheck, 0) else LoopTop(cfg)
  }

  function AfterError(cfg: Config, ch: nat): Pc {
    if ch + 1 < cfg.channels then At(RxCheck, ch + 1) else LoopTop(cfg)
  }

  // ---------- atomic sections several functions share ----------

  /** Take a buffer from the pool for `p`, or go on at `miss`. */
  function PoolTake(s: Core, p: Point, miss: Pc): Core {
    if s.pool == [] then s.(pc := miss)
    else s.(pool := s.pool[1..], pc := s.pc.(at := p, held := Some(s.pool[0])))
  }

  /** `list_add_tail_locked(held, list_frame_pool)` */
  function PoolReturn(s: Core, next: Pc): Core
    requires s.pc.held.Some?
  {
    s.(pool := s.pool + [s.pc.held.value], pc := next)
  }

  /** `list_add_tail_locked(held, list_to_host)` */
  function QueueHeld(s: Core, next: Pc): Core
    requires s.pc.held.Some?
  {
    s.(toHost := s.toHost + [s.pc.held.value], pc := next)
  }

  /** Write the held frame, which only the main loop can see, and go on at `p`. */
  function WriteHeld(s: Core, f: HostFrame, p: Point): Core
    requires s.pc.held.Some? && s.pc.held.value < |s.store|
  {
    s.(store := s.store[s.pc.held.value := f], pc := s.pc.(at := p))
  }

  // ---------- CAN_SendFrame ----------

  function TakeToSend(cfg: Config, s: Core): Core
    requires s.pc.ch < |s.fromHost|
  {
    var ch, q := s.pc.ch, s.fromHost[s.pc.ch];
    if q == [] then s.(pc := AfterSend(cfg, ch))
    else s.(fromHost := s.fromHost[ch := q[1..]], pc := s.pc.(at := SendTry, held := Some(q[0])))
  }

  function TrySend(cfg: Config, s: Core, a: Answer): Core
    requires s.pc.held.Some? && s.pc.held.value < |s.store|
  {
    if !a.mailboxFree then s.(pc := s.pc.(at := SendBack))
    else WriteHeld(s, cfg.driver.sent(s.store[s.pc.held.value]).(reserved := 0, timestamp := a.now), SendEcho)
  }

  function PutBack(cfg: Config, s: Core): Core
    requires s.pc.held.Some? && s.pc.ch < |s.fromHost|
  {
    var ch := s.pc.ch;
    s.(fromHost := s.fromHost[ch := [s.pc.held.value] + s.fromHost[ch]], pc := AfterSend(cfg, ch))
  }

  // ---------- USBD_GS_CAN_ReceiveFromHost and USBD_GS_CAN_SendToHost ----------

  function TakeForOut(s: Core): Core {
    if s.fromHostBuf.Some? || s.pool == [] then s.(pc := At(InTake, 0))
    else s.(fromHostBuf := Some(s.pool[0]), pool := s.pool[1..], pc := At(OutArm, 0))
  }

  function ArmOut(s: Core): Core {
    s.(outArmed := true, pc := At(InTake, 0))
  }

  function TakeForIn(cfg: Config, s: Core): Core {
    if s.toHostBuf.Some? || s.toHost == [] then s.(pc := AfterUsb(cfg))
    else s.(toHostBuf := Some(s.toHost[0]), toHost := s.toHost[1..], pc := At(InTransmit, 0))
  }

  function Transmit(cfg: Config, s: Core): Core {
    if s.suspended then s.(pc := At(InDrop, 0)) else s.(inFlight := true, pc := AfterUsb(cfg))
  }

  function DropIn(cfg: Config, s: Core): Core
    requires s.toHostBuf.Some?
  {
    s.(pool := [s.toHostBuf.value] + s.pool, toHostBuf := None, pc := AfterUsb(cfg))
  }

  // ---------- CAN_ReceiveFrame and CAN_HandleError ----------

  function CheckRx(s: Core, a: Answer): Core {
    s.(pc := At(if a.rxPending then RxTake else ErrCheck, s.pc.ch))
  }

  /** A message as `can_receive` and then `CAN_ReceiveFrame` write it. */
  function RxFrame(s: Core, f: HostFrame): HostFrame {
    f.(channel := s.pc.ch, echoId := NOT_ECHO, reserved := 0)
  }

  function ReadRx(s: Core, a: Answer): Core
    requires s.pc.held.Some? && s.pc.held.value < |s.store|
  {
    if a.rx.None? then s.(pc := s.pc.(at := RxBack))
    else WriteHeld(s, RxFrame(s, a.rx.value), RxQueue)
  }

  function CheckErr(cfg: Config, s: Core, a: Answer): Core {
    s.(pc := if a.rxPending then AfterError(cfg, s.pc.ch) else Pc(ErrTake, s.pc.ch, None, a.esr))
  }

  function ParseErr(cfg: Config, s: Core, a: Answer): Core
    requires s.pc.held.Some? && s.pc.held.value < |s.store| && s.pc.ch < |s.errOld|
  {
    var ch, f := s.pc.ch, s.store[s.pc.held.value].(timestamp := a.now, channel := s.pc.ch);
    var (send, g) := cfg.driver.parse(s.errOld[ch], s.pc.err, a.ecr, f);
    WriteHeld(s, g, if send then ErrQueue else ErrBack).(errOld := s.errOld[ch := s.pc.err])
  }

  // ---------- one section of each function ----------

  function SendSection(cfg: Config, s: Core, a: Answer): Core
    requires WellFormed(cfg, s) && InSend(s.pc.at)
  {
    HeldInRange(cfg.buffers, s);
    match s.pc.at
    case SendTake => TakeToSend(cfg, s)
    case SendTry => TrySend(cfg, s, a)
    case SendBack => PutBack(cfg, s)
    case SendEcho => QueueHeld(s, AfterSend(cfg, s.pc.ch))
  }

  function UsbSection(cfg: Config, s: Core): Core
    requires WellFormed(cfg, s) && InUsb(s.pc.at)
  {
    match s.pc.at
    case OutTake => TakeForOut(s)
    case OutArm => ArmOut(s)
    case InTake => TakeForIn(cfg, s)
    case InTransmit => Transmit(cfg, s)
    case InDrop => DropIn(cfg, s)
  }

  function ReceiveSection(cfg: Config, s: Core, a: Answer): Core
    requires WellFormed(cfg, s) && InReceive(s.pc.at)
  {
    HeldInRange(cfg.buffers, s);
    match s.pc.at
    case RxCheck => CheckRx(s, a)
    case RxTake => PoolTake(s, RxRead, At(ErrCheck, s.pc.ch))
    case RxRead => ReadRx(s, a)
    case RxBack => PoolReturn(s, At(ErrCheck, s.pc.ch))
    case RxQueue => QueueHeld(s, At(ErrCheck, s.pc.ch))
  }

  function ErrorSection(cfg: Config, s: Core, a: Answer): Core
    requires WellFormed(cfg, s) && InError(s.pc.at)
  {
    HeldInRange(cfg.buffers, s);
    match s.pc.at
    case ErrCheck => CheckErr(cfg, s, a)
    case ErrTake => PoolTake(s, ErrParse, AfterError(cfg, s.pc.ch))
    case ErrParse => ParseErr(cfg, s, a)
    case ErrBack => PoolReturn(s, AfterError(cfg, s.pc.ch))
    case ErrQueue => QueueHeld(s, AfterError(cfg, s.pc.ch))
  }

  function LoopStep(cfg: Config, s: Core, a: Answer): Core
    requires WellFormed(cfg, s)
  {
    if InSend(s.pc.at) then SendSection(cfg, s, a)
    else if InUsb(s.pc.at) then UsbSection(cfg, s)
    else if InReceive(s.pc.at) then ReceiveSection(cfg, s, a)
    else ErrorSection(cfg, s, a)
  }

  // ---------- the USB interrupt ----------

  /** Whether `DataOut` queues the frame it was given or receives into the same buffer again. */
  predicate Accepts(cfg: Config, f: HostFrame, rxlen: nat) {
    && rxlen >= CLASSIC_SIZE
    && f.channel < cfg.channels
    && !(cfg.canfd && f.flags & FLAG_FD != 0 && rxlen < CANFD_SIZE)
  }

  /** The frame just received goes to its channel, and the next one needs a buffer. */
  function QueueOut(s: Core, ch: nat): Core
    requires s.fromHostBuf.Some? && ch < |s.fromHost|
  {
    var t := s.(fromHost := s.fromHost[ch := s.fromHost[ch] + [s.fromHostBuf.value]]);
    if s.pool == [] then t.(fromHostBuf := None, outArmed := false)
    else t.(fromHostBuf := Some(s.pool[0]), pool := s.pool[1..])
  }

  function ReceiveOut(cfg: Config, s: Core, f: HostFrame, rxlen: nat): Core
    requires s.fromHostBuf.Some? && s.fromHostBuf.value < |s.store| && |s.fromHost| == cfg.channels
  {
    var t := s.(store := s.store[s.fromHostBuf.value := f]);
    if Accepts(cfg, f, rxlen) then QueueOut(t, f.channel) else t
  }

  function CompleteIn(s: Core): Core
    requires s.toHostBuf.Some?
  {
    s.(pool := s.pool + [s.toHostBuf.value], toHostBuf := None, inFlight := false)
  }

  /** What the hardware and the host can do (sections 5.8 and 9.1 of the USB 2.0 specification): a
      transfer completes only when it was started, and the host configures the device once, not
      before the main loop has a buffer to receive into and not while it is arming that buffer.
      What `can_receive` reads never has the error flag. */
  predicate Enabled(cfg: Config, s: Core, e: Event) {
    match e
    case Loop(a) => a.rx.Some? ==> a.rx.value.canId & ERR_FLAG == 0
    case DataIn => s.inFlight
    case DataOut(_, _) => s.configured && s.outArmed
    case Suspend => true
    case Resume => true
    case Configure => !s.configured && s.fromHostBuf.Some? && !s.pc.at.OutArm?
  }

  function Step(cfg: Config, s: Core, e: Event): Core
    requires WellFormed(cfg, s) && Enabled(cfg, s, e)
  {
    HeldInRange(cfg.buffers, s);
    match e
    case Loop(a) => LoopStep(cfg, s, a)
    case DataIn => CompleteIn(s)
    case DataOut(f, rxlen) => ReceiveOut(cfg, s, f, rxlen)
    case Suspend => s.(suspended := true)
    case Resume => s.(suspended := false)
    case Configure => s.(configured := true)
  }

  /** `main` before the loop: all buffers in the pool, in order. */
  function Init(cfg: Config, store: seq<HostFrame>): Core
    requires |store| == cfg.buffers
  {
    Core(store, seq(cfg.buffers, i => i), seq(cfg.channels, _ => []), [], None, None,
         false, false, false, false, seq(cfg.channels, _ => 0), LoopTop(cfg))
  }
}
