/** The host's belief about the error state of a channel follows the status readings the firmware
    has parsed, although `CAN_HandleError` skips readings while frames wait or the pool is empty.
  */
module BridgeErrors {
  import opened GsUsb
  import opened Wrappers
  import opened Bridge
  import opened BridgeStreams
  import opened BridgeChannels

  /** What the host believes about channel `ch` after the frames `fs`, from the belief `b`. */
  function Believes(ch: nat, b: bool, fs: seq<HostFrame>): bool
    decreases fs
  {
    if fs == [] then b
    else Believes(ch, if fs[0].channel == ch then HostBelief(b, fs[0]) else b, fs[1..])
  }

  lemma {:induction false} BelievesJoin(ch: nat, b: bool, fs: seq<HostFrame>, gs: seq<HostFrame>)
    ensures Believes(ch, b, fs + gs) == Believes(ch, Believes(ch, b, fs), gs)
    decreases fs
  {
    if fs == [] {
      assert fs + gs == gs;
    } else {
      BelievesJoin(ch, if fs[0].channel == ch then HostBelief(b, fs[0]) else b, fs[1..], gs);
      assert (fs + gs)[1..] == fs[1..] + gs;
    }
  }

  lemma BelievesOne(ch: nat, b: bool, f: HostFrame)
    ensures Believes(ch, b, [f]) == if f.channel == ch then HostBelief(b, f) else b
  {}

  /** An error frame that is parsed but not queued yet. */
  function PendingError(s: Core): seq<HostFrame> {
    if s.pc.at.ErrQueue? then HeldFrame(s) else []
  }

  /** A host with belief `b` about `ch` agrees with the last parsed reading once it has seen the
      error frame in hand. */
  predicate Agrees(cfg: Config, s: Core, ch: nat, b: bool)
    requires ch < |s.errOld|
  {
    Believes(ch, b, PendingError(s)) == cfg.driver.active(s.errOld[ch])
  }

  lemma QuietAgrees(cfg: Config, s: Core, t: Core, e: Event, ch: nat, b: bool)
    requires ch < |s.errOld| && t.errOld == s.errOld && Agrees(cfg, s, ch, b)
    requires !s.pc.at.ErrQueue? && !t.pc.at.ErrQueue? && GeneratedBy(s, e) == []
    ensures Agrees(cfg, t, ch, Believes(ch, b, GeneratedBy(s, e)))
  {}

  /** Echoes and received frames do not move the host's belief. */
  lemma QueueAgrees(cfg: Config, s: Core, a: Answer, next: Pc, ch: nat, b: bool)
    requires ch < |s.errOld| && Agrees(cfg, s, ch, b) && s.pc.held.Some? && next.held == None && !next.at.ErrQueue?
    requires Queueing(s.pc.at) && HeldTagged(s, true)
    ensures Agrees(cfg, QueueHeld(s, next), ch, Believes(ch, b, GeneratedBy(s, Loop(a))))
  {
    HeldFrameIs(s);
    BelievesOne(ch, b, FrameAt(s.store, s.pc.held.value));
  }

  lemma ParseErrAgrees(cfg: Config, s: Core, a: Answer, ch: nat, b: bool)
    requires DriverOk(cfg.driver)
    requires ch < |s.errOld| && Agrees(cfg, s, ch, b) && s.pc.at.ErrParse?
    requires s.pc.held.Some? && s.pc.held.value < |s.store| && s.pc.ch < |s.errOld|
    ensures Agrees(cfg, ParseErr(cfg, s, a), ch, b)
  {
    var f := s.store[s.pc.held.value].(timestamp := a.now, channel := s.pc.ch);
    var (send, g) := cfg.driver.parse(s.errOld[s.pc.ch], s.pc.err, a.ecr, f);
    assert ParseOk(cfg.driver, s.errOld[s.pc.ch], s.pc.err, a.ecr, f);
    assert PendingError(ParseErr(cfg, s, a)) == if send then [g] else [];
    BelievesOne(ch, b, g);
  }

  /** No reading is remembered, and no error frame is ready to be queued. */
  predicate Quiet(s: Core, t: Core) {
    t.errOld == s.errOld && !t.pc.at.ErrQueue?
  }

  lemma SendsQuiet(cfg: Config, s: Core, a: Answer)
    requires s.pc.ch < |s.fromHost| && InSend(s.pc.at)
    ensures Quiet(s, TakeToSend(cfg, s))
    ensures s.pc.held.Some? ==> Quiet(s, PutBack(cfg, s)) && Quiet(s, QueueHeld(s, AfterSend(cfg, s.pc.ch)))
    ensures s.pc.held.Some? && s.pc.held.value < |s.store| ==> Quiet(s, TrySend(cfg, s, a))
  {}

  lemma ChecksQuiet(cfg: Config, s: Core, a: Answer)
    ensures Quiet(s, CheckRx(s, a)) && Quiet(s, CheckErr(cfg, s, a))
    ensures s.pc.held.Some? && s.pc.held.value < |s.store| ==> Quiet(s, ReadRx(s, a))
  {}

  lemma PoolQuiet(s: Core, p: Point, next: Pc)
    requires !p.ErrQueue? && !next.at.ErrQueue?
    ensures Quiet(s, PoolTake(s, p, next))
    ensures s.pc.held.Some? ==> Quiet(s, PoolReturn(s, next)) && Quiet(s, QueueHeld(s, next))
  {}

  lemma SendQuiet(cfg: Config, s: Core, a: Answer)
    requires WellFormed(cfg, s) && InSend(s.pc.at)
    ensures Quiet(s, SendSection(cfg, s, a))
  {
    HeldInRange(cfg.buffers, s);
    SendsQuiet(cfg, s, a);
    hide Conserved, Quiet, TakeToSend, TrySend, PutBack, QueueHeld;
  }

  lemma UsbQuiet(cfg: Config, s: Core)
    requires WellFormed(cfg, s) && InUsb(s.pc.at)
    ensures Quiet(s, UsbSection(cfg, s))
  {
    hide Conserved;
  }

  lemma ReceiveQuiet(cfg: Config, s: Core, a: Answer)
    requires WellFormed(cfg, s) && InReceive(s.pc.at)
    ensures Quiet(s, ReceiveSection(cfg, s, a))
  {
    HeldInRange(cfg.buffers, s);
    ChecksQuiet(cfg, s, a);
    PoolQuiet(s, RxRead, At(ErrCheck, s.pc.ch));
    hide Conserved, Quiet, CheckRx, ReadRx, PoolTake, PoolReturn, QueueHeld;
  }

  lemma ErrorQuiet(cfg: Config, s: Core, a: Answer)
    requires WellFormed(cfg, s) && InError(s.pc.at) && !s.pc.at.ErrParse?
    ensures Quiet(s, ErrorSection(cfg, s, a))
  {
    ChecksQuiet(cfg, s, a);
    PoolQuiet(s, ErrParse, AfterError(cfg, s.pc.ch));
    hide Conserved, Quiet, CheckErr, PoolTake, PoolReturn, QueueHeld;
  }

  lemma SendAgrees(cfg: Config, s: Core, a: Answer, ch: nat, b: bool)
    requires WellFormed(cfg, s) && HeldTagged(s, true) && InSend(s.pc.at) && ch < cfg.channels && Agrees(cfg, s, ch, b)
    ensures |SendSection(cfg, s, a).errOld| == cfg.channels
    ensures Agrees(cfg, SendSection(cfg, s, a), ch, Believes(ch, b, GeneratedBy(s, Loop(a))))
  {
    SendQuiet(cfg, s, a);
    hide Agrees, Believes, HeldTagged, Conserved;
    if s.pc.at.SendEcho? {
      QueueAgrees(cfg, s, a, AfterSend(cfg, s.pc.ch), ch, b);
    } else {
      hide SendSection;
      QuietAgrees(cfg, s, SendSection(cfg, s, a), Loop(a), ch, b);
    }
  }

  lemma UsbAgrees(cfg: Config, s: Core, a: Answer, ch: nat, b: bool)
    requires WellFormed(cfg, s) && InUsb(s.pc.at) && ch < cfg.channels && Agrees(cfg, s, ch, b)
    ensures |UsbSection(cfg, s).errOld| == cfg.channels
    ensures Agrees(cfg, UsbSection(cfg, s), ch, Believes(ch, b, GeneratedBy(s, Loop(a))))
  {
    UsbQuiet(cfg, s);
    hide Agrees, Believes, Conserved, UsbSection;
    QuietAgrees(cfg, s, UsbSection(cfg, s), Loop(a), ch, b);
  }

  lemma ReceiveAgrees(cfg: Config, s: Core, a: Answer, ch: nat, b: bool)
    requires WellFormed(cfg, s) && HeldTagged(s, true) && InReceive(s.pc.at) && ch < cfg.channels
      && Agrees(cfg, s, ch, b)
    ensures |ReceiveSection(cfg, s, a).errOld| == cfg.channels
    ensures Agrees(cfg, ReceiveSection(cfg, s, a), ch, Believes(ch, b, GeneratedBy(s, Loop(a))))
  {
    ReceiveQuiet(cfg, s, a);
    hide Agrees, Believes, HeldTagged, Conserved;
    if s.pc.at.RxQueue? {
      QueueAgrees(cfg, s, a, At(ErrCheck, s.pc.ch), ch, b);
    } else {
      hide ReceiveSection;
      QuietAgrees(cfg, s, ReceiveSection(cfg, s, a), Loop(a), ch, b);
    }
  }

  lemma ParseSectionAgrees(cfg: Config, s: Core, a: Answer, ch: nat, b: bool)
    requires DriverOk(cfg.driver)
    requires WellFormed(cfg, s) && s.pc.at.ErrParse? && ch < cfg.channels && Agrees(cfg, s, ch, b)
    ensures |ErrorSection(cfg, s, a).errOld| == cfg.channels
    ensures Agrees(cfg, ErrorSection(cfg, s, a), ch, b)
  {
    HeldInRange(cfg.buffers, s);
    hide Agrees, Conserved, DriverOk;
    ParseErrAgrees(cfg, s, a, ch, b);
  }

  lemma QueueSectionAgrees(cfg: Config, s: Core, a: Answer, ch: nat, b: bool)
    requires WellFormed(cfg, s) && HeldTagged(s, true) && s.pc.at.ErrQueue? && ch < cfg.channels
      && Agrees(cfg, s, ch, b)
    ensures |ErrorSection(cfg, s, a).errOld| == cfg.channels
    ensures Agrees(cfg, ErrorSection(cfg, s, a), ch, Believes(ch, b, GeneratedBy(s, Loop(a))))
  {
    hide Agrees, Believes, HeldTagged, Conserved;
    QueueAgrees(cfg, s, a, AfterError(cfg, s.pc.ch), ch, b);
  }

  lemma ErrorAgrees(cfg: Config, s: Core, a: Answer, ch: nat, b: bool)
    requires DriverOk(cfg.driver)
    requires WellFormed(cfg, s) && HeldTagged(s, true) && InError(s.pc.at) && ch < cfg.channels && Agrees(cfg, s, ch, b)
    ensures |ErrorSection(cfg, s, a).errOld| == cfg.channels
    ensures Agrees(cfg, ErrorSection(cfg, s, a), ch, Believes(ch, b, GeneratedBy(s, Loop(a))))
  {
    hide Agrees, Believes, HeldTagged, Conserved, DriverOk, ErrorSection;
    if s.pc.at.ErrQueue? {
      QueueSectionAgrees(cfg, s, a, ch, b);
    } else if s.pc.at.ErrParse? {
      ParseSectionAgrees(cfg, s, a, ch, b);
      BelievesNone(ch, b);
    } else {
      ErrorQuiet(cfg, s, a);
      QuietAgrees(cfg, s, ErrorSection(cfg, s, a), Loop(a), ch, b);
    }
  }

  lemma BelievesNone(ch: nat, b: bool)
    ensures Believes(ch, b, []) == b
  {}

  lemma LoopAgrees(cfg: Config, s: Core, a: Answer, ch: nat, b: bool)
    requires DriverOk(cfg.driver)
    requires WellFormed(cfg, s) && HeldTagged(s, true) && ch < cfg.channels && Agrees(cfg, s, ch, b)
    ensures |LoopStep(cfg, s, a).errOld| == cfg.channels
    ensures Agrees(cfg, LoopStep(cfg, s, a), ch, Believes(ch, b, GeneratedBy(s, Loop(a))))
  {
    hide Agrees, Believes, HeldTagged, Conserved;
    if InSend(s.pc.at) { SendAgrees(cfg, s, a, ch, b); }
    else if InUsb(s.pc.at) { UsbAgrees(cfg, s, a, ch, b); }
    else if InReceive(s.pc.at) { ReceiveAgrees(cfg, s, a, ch, b); }
    else { ErrorAgrees(cfg, s, a, ch, b); }
  }

  /** One step keeps the host and the last parsed reading in agreement, for a host that does not
      use the number of non-echo frames itself. */
  lemma AgreementLaw(cfg: Config, s: Core, e: Event, ch: nat, b: bool)
    requires DriverOk(cfg.driver)
    requires WellFormed(cfg, s) && Tagged(s, true) && Enabled(cfg, s, e) && ch < cfg.channels && Agrees(cfg, s, ch, b)
    ensures |Step(cfg, s, e).errOld| == cfg.channels
    ensures Agrees(cfg, Step(cfg, s, e), ch, Believes(ch, b, GeneratedBy(s, e)))
  {
    hide LoopStep, Conserved;
    HeldInRange(cfg.buffers, s);
    match e
    case Loop(a) => LoopAgrees(cfg, s, a, ch, b);
    case DataIn =>
    case DataOut(f, rxlen) => DataOutAgrees(cfg, s, f, rxlen, ch, b);
    case Suspend =>
    case Resume =>
    case Configure =>
  }

  lemma DataOutAgrees(cfg: Config, s: Core, f: HostFrame, rxlen: nat, ch: nat, b: bool)
    requires Conserved(cfg.buffers, s) && Tagged(s, true) && s.fromHostBuf.Some? && s.fromHostBuf.value < |s.store|
    requires |s.fromHost| == cfg.channels && ch < |s.errOld| && Agrees(cfg, s, ch, b)
    ensures Agrees(cfg, ReceiveOut(cfg, s, f, rxlen), ch, b)
  {
    hide Conserved, References, Believes;
    var u := s.(store := s.store[s.fromHostBuf.value := f]);
    WriteOutTagged(cfg.buffers, s, f, true);
    assert PendingError(u) == PendingError(s);
    if Accepts(cfg, f, rxlen) {
      assert PendingError(QueueOut(u, f.channel)) == PendingError(u);
    }
  }
}
