/** What one step does to the streams of frames that cross the bridge: host to CAN bus, host to
    echo, and everything to the host. Each law balances what enters a stream with what leaves it.
  */
module BridgeStreams {
  import opened GsUsb
  import opened Wrappers
  import opened Bridge

  // ---------- the frames in a queue ----------

  const BLANK := HostFrame(0, 0, 0, 0, 0, 0, [], 0)

  function FrameAt(store: seq<HostFrame>, x: nat): HostFrame {
    if x < |store| then store[x] else BLANK
  }

  function Contents(store: seq<HostFrame>, q: seq<nat>): seq<HostFrame> {
    if q == [] then [] else [FrameAt(store, q[0])] + Contents(store, q[1..])
  }

  function Content(store: seq<HostFrame>, o: Option<nat>): seq<HostFrame> {
    if o.Some? then [FrameAt(store, o.value)] else []
  }

  lemma {:induction false} ContentsJoin(store: seq<HostFrame>, p: seq<nat>, q: seq<nat>)
    ensures Contents(store, p + q) == Contents(store, p) + Contents(store, q)
  {
    if p == [] {
      assert p + q == q;
    } else {
      ContentsJoin(store, p[1..], q);
      assert (p + q)[1..] == p[1..] + q;
    }
  }

  lemma ContentsPut(store: seq<HostFrame>, q: seq<nat>, x: nat)
    ensures Contents(store, q + [x]) == Contents(store, q) + [FrameAt(store, x)]
    ensures Contents(store, [x] + q) == [FrameAt(store, x)] + Contents(store, q)
  {
    ContentsJoin(store, q, [x]);
    assert Contents(store, [x]) == [FrameAt(store, x)];
    assert ([x] + q)[1..] == q;
  }

  /** Writing a buffer that is not in the queue does not change the frames in the queue. */
  lemma {:induction false} ContentsWrite(store: seq<HostFrame>, x: nat, f: HostFrame, q: seq<nat>)
    requires x < |store| && Copies(x, q) == 0
    ensures Contents(store[x := f], q) == Contents(store, q)
  {
    if q != [] {
      ContentsWrite(store, x, f, q[1..]);
    }
  }

  // ---------- streams of one channel ----------

  /** The messages of one channel, all of them or only those that can be echoes. */
  function Pick(ch: nat, all: bool, fs: seq<HostFrame>): seq<Message> {
    if fs == [] then [] else PickOne(ch, all, fs[0]) + Pick(ch, all, fs[1..])
  }

  function PickOne(ch: nat, all: bool, f: HostFrame): seq<Message> {
    if f.channel == ch && (all || f.echoId != NOT_ECHO) then [MessageOf(f)] else []
  }

  lemma {:induction false} PickJoin(ch: nat, all: bool, fs: seq<HostFrame>, gs: seq<HostFrame>)
    ensures Pick(ch, all, fs + gs) == Pick(ch, all, fs) + Pick(ch, all, gs)
  {
    if fs == [] {
      assert fs + gs == gs;
    } else {
      hide PickOne;
      PickJoin(ch, all, fs[1..], gs);
      assert (fs + gs)[1..] == fs[1..] + gs && (fs + gs)[0] == fs[0];
      Associative(PickOne(ch, all, fs[0]), Pick(ch, all, fs[1..]), Pick(ch, all, gs));
    }
  }

  // ---------- what a step puts into and takes out of the streams ----------

  datatype Outcome = Outcome(frame: HostFrame, delivered: bool)

  function HeldFrame(s: Core): seq<HostFrame> {
    Content(s.store, s.pc.held)
  }

  /** Frames `DataOut` takes from the host for good. */
  function AcceptedBy(cfg: Config, e: Event): seq<HostFrame> {
    if e.DataOut? && Accepts(cfg, e.frame, e.rxlen) then [e.frame] else []
  }

  /** Frames `can_send` takes. */
  function SentBy(s: Core, e: Event): seq<HostFrame> {
    if e.Loop? && s.pc.at.SendTry? && e.a.mailboxFree then HeldFrame(s) else []
  }

  /** A message read from the controller of a channel. */
  datatype Reception = Reception(ch: nat, message: BusMessage)

  /** What the CAN controllers hand over in one step. */
  function ReadBy(s: Core, e: Event): seq<Reception> {
    if e.Loop? && s.pc.at.RxRead? && e.a.rx.Some? then [Reception(s.pc.ch, OnBus(e.a.rx.value))] else []
  }

  predicate Queueing(p: Point) {
    p.SendEcho? || p.RxQueue? || p.ErrQueue?
  }

  /** Frames appended to `list_to_host`. */
  function GeneratedBy(s: Core, e: Event): seq<HostFrame> {
    if e.Loop? && Queueing(s.pc.at) then HeldFrame(s) else []
  }

  /** Frames that leave `to_host_buf`, delivered or dropped. */
  function LeftBy(s: Core, e: Event): seq<Outcome> {
    if s.toHostBuf.None? then []
    else if e.DataIn? then [Outcome(FrameAt(s.store, s.toHostBuf.value), true)]
    else if e.Loop? && s.pc.at.InDrop? then [Outcome(FrameAt(s.store, s.toHostBuf.value), false)]
    else []
  }

  function Frames(os: seq<Outcome>): seq<HostFrame> {
    if os == [] then [] else [os[0].frame] + Frames(os[1..])
  }

  /** Frames on their way to the host. */
  function Outgoing(s: Core): seq<HostFrame> {
    Content(s.store, s.toHostBuf) + Contents(s.store, s.toHost)
  }

  /** The frame of `CAN_SendFrame` that has not been sent, or not been queued as an echo, yet. */
  function InHand(s: Core, sent: bool): seq<HostFrame> {
    if s.pc.at.SendTry? || s.pc.at.SendBack? || (!sent && s.pc.at.SendEcho?) then HeldFrame(s) else []
  }

  /** Host frames of a channel that still wait to be sent (`sent`) or echoed. */
  function Waiting(s: Core, ch: nat, sent: bool): seq<HostFrame>
    requires ch < |s.fromHost|
  {
    InHand(s, sent) + Contents(s.store, s.fromHost[ch])
  }

  // ---------- exclusive access ----------

  lemma {:induction false} QueuedNone(x: nat, qs: seq<seq<nat>>, c: nat)
    requires c < |qs|
    ensures Copies(x, qs[c]) <= QueuedCopies(x, qs)
  {
    if c > 0 {
      QueuedNone(x, qs[1..], c - 1);
    }
  }

  /** A buffer the main loop holds, or an OUT transfer writes, is in no queue. */
  lemma Exclusive(n: nat, s: Core, x: nat)
    requires Conserved(n, s) && (s.pc.held == Some(x) || s.fromHostBuf == Some(x))
    ensures Copies(x, s.toHost) == 0 && s.toHostBuf != Some(x)
    ensures s.pc.held != s.fromHostBuf
    ensures forall c :: 0 <= c < |s.fromHost| ==> Copies(x, s.fromHost[c]) == 0
  {
    assert References(s, x) <= 1;
    forall c | 0 <= c < |s.fromHost|
      ensures Copies(x, s.fromHost[c]) == 0
    {
      QueuedNone(x, s.fromHost, c);
    }
  }

  // ---------- the stream to the host ----------

  lemma WriteHeldOutgoing(n: nat, s: Core, f: HostFrame, p: Point)
    requires Conserved(n, s) && s.pc.held.Some? && s.pc.held.value < |s.store|
    ensures Outgoing(WriteHeld(s, f, p)) == Outgoing(s)
  {
    Exclusive(n, s, s.pc.held.value);
    ContentsWrite(s.store, s.pc.held.value, f, s.toHost);
  }

  lemma QueueHeldOutgoing(s: Core, next: Pc)
    requires s.pc.held.Some?
    ensures Outgoing(QueueHeld(s, next)) == Outgoing(s) + HeldFrame(s)
  {
    ContentsPut(s.store, s.toHost, s.pc.held.value);
  }

  lemma TrySendOutgoing(cfg: Config, s: Core, a: Answer)
    requires Conserved(cfg.buffers, s) && s.pc.held.Some? && s.pc.held.value < |s.store|
    ensures Outgoing(TrySend(cfg, s, a)) == Outgoing(s)
  {
    if a.mailboxFree {
      WriteHeldOutgoing(cfg.buffers, s, cfg.driver.sent(s.store[s.pc.held.value]).(reserved := 0, timestamp := a.now),
        SendEcho);
    }
  }

  lemma ReadRxOutgoing(cfg: Config, s: Core, a: Answer)
    requires Conserved(cfg.buffers, s) && s.pc.held.Some? && s.pc.held.value < |s.store|
    ensures Outgoing(ReadRx(s, a)) == Outgoing(s)
  {
    if a.rx.Some? {
      WriteHeldOutgoing(cfg.buffers, s, RxFrame(s, a.rx.value), RxQueue);
    }
  }

  lemma ParseErrOutgoing(cfg: Config, s: Core, a: Answer)
    requires Conserved(cfg.buffers, s) && s.pc.held.Some? && s.pc.held.value < |s.store| && s.pc.ch < |s.errOld|
    ensures Outgoing(ParseErr(cfg, s, a)) == Outgoing(s)
  {
    var t := ParseErr(cfg, s, a);
    WriteHeldOutgoing(cfg.buffers, s, t.store[s.pc.held.value], t.pc.at);
  }

  lemma SendOutgoing(cfg: Config, s: Core, a: Answer)
    requires WellFormed(cfg, s) && InSend(s.pc.at)
    ensures Outgoing(SendSection(cfg, s, a)) == Outgoing(s) + GeneratedBy(s, Loop(a))
  {
    hide Conserved, Content;
    HeldInRange(cfg.buffers, s);
    match s.pc.at
    case SendTake =>
    case SendTry => TrySendOutgoing(cfg, s, a);
    case SendBack =>
    case SendEcho => QueueHeldOutgoing(s, AfterSend(cfg, s.pc.ch));
  }

  lemma NothingLeft(s: Core, t: Core, e: Event)
    requires LeftBy(s, e) == [] && Outgoing(t) == Outgoing(s)
    ensures Frames(LeftBy(s, e)) + Outgoing(t) == Outgoing(s)
  {}

  lemma TakeForInOutgoing(cfg: Config, s: Core)
    ensures Outgoing(TakeForIn(cfg, s)) == Outgoing(s)
  {
    if s.toHostBuf.None? && s.toHost != [] {
      assert TakeForIn(cfg, s).toHost == s.toHost[1..];
    }
  }

  lemma DropInOutgoing(cfg: Config, s: Core, a: Answer)
    requires s.pc.at.InDrop? && s.toHostBuf.Some?
    ensures Frames(LeftBy(s, Loop(a))) + Outgoing(DropIn(cfg, s)) == Outgoing(s)
  {}

  lemma SameOutgoing(s: Core, t: Core)
    requires t.store == s.store && t.toHostBuf == s.toHostBuf && t.toHost == s.toHost
    ensures Outgoing(t) == Outgoing(s)
  {}

  lemma UsbKeepsOutgoing(cfg: Config, s: Core)
    requires WellFormed(cfg, s) && InUsb(s.pc.at) && !s.pc.at.InDrop?
    ensures Outgoing(UsbSection(cfg, s)) == Outgoing(s)
  {
    hide Outgoing, TakeForIn, Conserved;
    match s.pc.at
    case OutTake => SameOutgoing(s, TakeForOut(s));
    case OutArm => SameOutgoing(s, ArmOut(s));
    case InTake => TakeForInOutgoing(cfg, s);
    case InTransmit => SameOutgoing(s, Transmit(cfg, s));
  }

  lemma UsbOutgoing(cfg: Config, s: Core, a: Answer)
    requires WellFormed(cfg, s) && InUsb(s.pc.at)
    ensures Frames(LeftBy(s, Loop(a))) + Outgoing(UsbSection(cfg, s)) == Outgoing(s)
  {
    hide Outgoing, Frames, Conserved;
    if s.pc.at.InDrop? {
      DropInOutgoing(cfg, s, a);
    } else {
      UsbKeepsOutgoing(cfg, s);
      hide UsbSection;
      NothingLeft(s, UsbSection(cfg, s), Loop(a));
    }
  }

  lemma ReceiveOutgoing(cfg: Config, s: Core, a: Answer)
    requires WellFormed(cfg, s) && InReceive(s.pc.at)
    ensures Outgoing(ReceiveSection(cfg, s, a)) == Outgoing(s) + GeneratedBy(s, Loop(a))
  {
    hide Content;
    HeldInRange(cfg.buffers, s);
    match s.pc.at
    case RxCheck =>
    case RxTake =>
    case RxRead => ReadRxOutgoing(cfg, s, a);
    case RxBack =>
    case RxQueue => QueueHeldOutgoing(s, At(ErrCheck, s.pc.ch));
  }

  lemma ErrorOutgoing(cfg: Config, s: Core, a: Answer)
    requires WellFormed(cfg, s) && InError(s.pc.at)
    ensures Outgoing(ErrorSection(cfg, s, a)) == Outgoing(s) + GeneratedBy(s, Loop(a))
  {
    hide Conserved, References, Copies, QueuedCopies, HeldCopies, Contents, FrameAt, Content, ParseErr;
    HeldInRange(cfg.buffers, s);
    match s.pc.at
    case ErrCheck =>
    case ErrTake =>
    case ErrParse => ParseErrOutgoing(cfg, s, a);
    case ErrBack =>
    case ErrQueue => QueueHeldOutgoing(s, AfterError(cfg, s.pc.ch));
  }

  lemma QueueOutOutgoing(s: Core, ch: nat)
    requires s.fromHostBuf.Some? && ch < |s.fromHost|
    ensures Outgoing(QueueOut(s, ch)) == Outgoing(s)
  {}

  lemma WriteOutOutgoing(n: nat, s: Core, f: HostFrame)
    requires Conserved(n, s) && s.fromHostBuf.Some? && s.fromHostBuf.value < |s.store|
    ensures Outgoing(s.(store := s.store[s.fromHostBuf.value := f])) == Outgoing(s)
  {
    Exclusive(n, s, s.fromHostBuf.value);
    ContentsWrite(s.store, s.fromHostBuf.value, f, s.toHost);
  }

  lemma DataOutOutgoing(cfg: Config, s: Core, f: HostFrame, rxlen: nat)
    requires Conserved(cfg.buffers, s) && s.fromHostBuf.Some? && s.fromHostBuf.value < |s.store|
      && |s.fromHost| == cfg.channels
    ensures Outgoing(ReceiveOut(cfg, s, f, rxlen)) == Outgoing(s)
  {
    WriteOutOutgoing(cfg.buffers, s, f);
    if Accepts(cfg, f, rxlen) {
      QueueOutOutgoing(s.(store := s.store[s.fromHostBuf.value := f]), f.channel);
    }
  }

  /** The stream to the host is a queue: what a step lets out left at the front, what it generates
      joined at the back. */
  lemma OutgoingLaw(cfg: Config, s: Core, e: Event)
    requires WellFormed(cfg, s) && Enabled(cfg, s, e)
    ensures Frames(LeftBy(s, e)) + Outgoing(Step(cfg, s, e)) == Outgoing(s) + GeneratedBy(s, e)
  {
    hide Conserved, HeldCopies, Contents, FrameAt, SendSection, ErrorSection;
    HeldInRange(cfg.buffers, s);
    match e
    case Loop(a) =>
      if InSend(s.pc.at) { SendOutgoing(cfg, s, a); }
      else if InUsb(s.pc.at) { UsbOutgoing(cfg, s, a); }
      else if InReceive(s.pc.at) { ReceiveOutgoing(cfg, s, a); }
      else { ErrorOutgoing(cfg, s, a); }
    case DataIn =>
    case DataOut(f, rxlen) => DataOutOutgoing(cfg, s, f, rxlen);
    case Suspend =>
    case Resume =>
    case Configure =>
  }
}
