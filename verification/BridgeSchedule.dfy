/** The main loop serves every channel: whatever the interrupt does and whatever is found on the way, each
    pass goes through sending, the USB part, and receiving and error handling of every channel, in turn.
  */
module BridgeSchedule {
  import opened Bridge
  import opened BridgeRuns
  import opened BridgeReports

  // ---------- the stages of a pass ----------

  /** One function call of the main loop: `CAN_SendFrame` for each channel, the USB part, and for each channel
      `CAN_ReceiveFrame` and `CAN_HandleError`. */
  function Stages(cfg: Config): nat {
    3 * cfg.channels + 1
  }

  /** Which of them the main loop is in. */
  function StageOf(cfg: Config, pc: Pc): nat {
    if InSend(pc.at) then pc.ch
    else if InUsb(pc.at) then cfg.channels
    else if InReceive(pc.at) then cfg.channels + 1 + 2 * pc.ch
    else cfg.channels + 2 + 2 * pc.ch
  }

  /** The most sections the stage can still take. */
  function Left(pc: Pc): (k: nat)
    ensures 1 <= k <= 5
  {
    match pc.at
    case SendTake => 3 case SendTry => 2 case SendBack => 1 case SendEcho => 1
    case OutTake => 5 case OutArm => 4 case InTake => 3 case InTransmit => 2 case InDrop => 1
    case RxCheck => 4 case RxTake => 3 case RxRead => 2 case RxBack => 1 case RxQueue => 1
    case ErrCheck => 4 case ErrTake => 3 case ErrParse => 2 case ErrBack => 1 case ErrQueue => 1
  }

  /** Where a stage begins; the stage after the last is the first of the next pass. */
  function Entry(cfg: Config, n: nat): Pc
    requires n <= Stages(cfg)
  {
    if n < cfg.channels then At(SendTake, n)
    else if n == cfg.channels then At(OutTake, 0)
    else if n == Stages(cfg) then LoopTop(cfg)
    else if (n - cfg.channels) % 2 == 1 then At(RxCheck, (n - cfg.channels - 1) / 2)
    else At(ErrCheck, (n - cfg.channels - 2) / 2)
  }

  /** A section stays in its stage and comes closer to its end, or is the last and begins the next stage. */
  predicate Continues(cfg: Config, pc: Pc, next: Pc)
    requires StageOf(cfg, pc) < Stages(cfg)
  {
    || (StageOf(cfg, next) == StageOf(cfg, pc) && Left(next) < Left(pc))
    || next == Entry(cfg, StageOf(cfg, pc) + 1)
  }

  lemma StageExists(cfg: Config, pc: Pc)
    requires PcOk(cfg, pc)
    ensures StageOf(cfg, pc) < Stages(cfg)
  {}

  lemma EntryOf(cfg: Config, ch: nat)
    requires ch < cfg.channels
    ensures Entry(cfg, ch) == At(SendTake, ch)
    ensures Entry(cfg, cfg.channels) == At(OutTake, 0)
    ensures Entry(cfg, cfg.channels + 1 + 2 * ch) == At(RxCheck, ch)
    ensures Entry(cfg, cfg.channels + 2 + 2 * ch) == At(ErrCheck, ch)
  {}

  lemma NextStages(cfg: Config, ch: nat)
    requires ch < cfg.channels
    ensures Entry(cfg, ch + 1) == AfterSend(cfg, ch)
    ensures Entry(cfg, cfg.channels + 2 + 2 * ch) == At(ErrCheck, ch)
    ensures Entry(cfg, cfg.channels + 3 + 2 * ch) == AfterError(cfg, ch)
  {}

  lemma AfterUsbStage(cfg: Config)
    ensures Entry(cfg, cfg.channels + 1) == AfterUsb(cfg)
  {}

  lemma EntryStage(cfg: Config, n: nat)
    requires n < Stages(cfg)
    ensures StageOf(cfg, Entry(cfg, n)) == n
  {}

  // ---------- one section ----------

  lemma SendLeads(cfg: Config, s: Core, a: Answer)
    requires WellFormed(cfg, s) && InSend(s.pc.at)
    ensures var to := SendSection(cfg, s, a).pc;
            to == AfterSend(cfg, s.pc.ch) || (InSend(to.at) && to.ch == s.pc.ch && Left(to) < Left(s.pc))
  {
    HeldInRange(cfg.buffers, s);
    hide Conserved, TransfersOk, AfterSend;
    match s.pc.at
    case SendTake => assert SendSection(cfg, s, a) == TakeToSend(cfg, s);
    case SendTry => assert SendSection(cfg, s, a) == TrySend(cfg, s, a);
    case SendBack => assert SendSection(cfg, s, a) == PutBack(cfg, s);
    case SendEcho => assert SendSection(cfg, s, a) == QueueHeld(s, AfterSend(cfg, s.pc.ch));
  }

  lemma SendContinues(cfg: Config, s: Core, a: Answer)
    requires WellFormed(cfg, s) && InSend(s.pc.at)
    ensures StageOf(cfg, s.pc) < Stages(cfg) && Continues(cfg, s.pc, SendSection(cfg, s, a).pc)
  {
    NextStages(cfg, s.pc.ch);
    SendLeads(cfg, s, a);
    hide Conserved, TransfersOk, Entry, AfterSend, SendSection, Left;
  }

  lemma UsbContinues(cfg: Config, s: Core)
    requires WellFormed(cfg, s) && InUsb(s.pc.at)
    ensures StageOf(cfg, s.pc) < Stages(cfg) && Continues(cfg, s.pc, UsbSection(cfg, s).pc)
  {
    AfterUsbStage(cfg);
    hide Conserved, Entry, AfterUsb;
  }

  /** On to another section of the same stage, or to `next`. */
  predicate Goes(pc: Pc, to: Pc, p: Point, q: Point, next: Pc) {
    to == next || (to.ch == pc.ch && (to.at == p || to.at == q))
  }

  lemma PoolGoes(s: Core, p: Point, next: Pc)
    ensures Goes(s.pc, PoolTake(s, p, next).pc, p, p, next)
    ensures s.pc.held.Some? ==> PoolReturn(s, next).pc == next && QueueHeld(s, next).pc == next
  {}

  lemma ReceiveGoes(cfg: Config, s: Core, a: Answer)
    requires s.pc.held.Some? ==> s.pc.held.value < |s.store|
    ensures Goes(s.pc, CheckRx(s, a).pc, RxTake, RxTake, At(ErrCheck, s.pc.ch))
    ensures s.pc.held.Some? ==> Goes(s.pc, ReadRx(s, a).pc, RxBack, RxQueue, At(ErrCheck, s.pc.ch))
  {}

  lemma ErrorGoes(cfg: Config, s: Core, a: Answer)
    requires (s.pc.held.Some? ==> s.pc.held.value < |s.store|) && s.pc.ch < |s.errOld|
    ensures Goes(s.pc, CheckErr(cfg, s, a).pc, ErrTake, ErrTake, AfterError(cfg, s.pc.ch))
    ensures s.pc.held.Some? ==> Goes(s.pc, ParseErr(cfg, s, a).pc, ErrBack, ErrQueue, AfterError(cfg, s.pc.ch))
  {}

  /** Where the sections of receiving and of error handling lead. */
  predicate Leads(pc: Pc, to: Pc, next: Pc) {
    match pc.at
    case RxCheck => Goes(pc, to, RxTake, RxTake, next)
    case RxTake => Goes(pc, to, RxRead, RxRead, next)
    case RxRead => Goes(pc, to, RxBack, RxQueue, next)
    case ErrCheck => Goes(pc, to, ErrTake, ErrTake, next)
    case ErrTake => Goes(pc, to, ErrParse, ErrParse, next)
    case ErrParse => Goes(pc, to, ErrBack, ErrQueue, next)
    case _ => to == next
  }

  lemma LeadsOn(cfg: Config, pc: Pc, to: Pc, next: Pc)
    requires PcOk(cfg, pc) && (InReceive(pc.at) || InError(pc.at)) && Leads(pc, to, next)
    requires StageOf(cfg, pc) < Stages(cfg) && next == Entry(cfg, StageOf(cfg, pc) + 1)
    ensures Continues(cfg, pc, to)
  {
    hide Entry;
  }

  lemma ReceiveLeads(cfg: Config, s: Core, a: Answer)
    requires WellFormed(cfg, s) && InReceive(s.pc.at)
    ensures Leads(s.pc, ReceiveSection(cfg, s, a).pc, At(ErrCheck, s.pc.ch))
  {
    HeldInRange(cfg.buffers, s);
    PoolGoes(s, RxRead, At(ErrCheck, s.pc.ch));
    ReceiveGoes(cfg, s, a);
    hide Conserved, Goes, CheckRx, ReadRx, PoolTake, PoolReturn, QueueHeld;
  }

  lemma ReceiveContinues(cfg: Config, s: Core, a: Answer)
    requires WellFormed(cfg, s) && InReceive(s.pc.at)
    ensures StageOf(cfg, s.pc) < Stages(cfg) && Continues(cfg, s.pc, ReceiveSection(cfg, s, a).pc)
  {
    NextStages(cfg, s.pc.ch);
    ReceiveLeads(cfg, s, a);
    StageExists(cfg, s.pc);
    hide Conserved, Entry, ReceiveSection, Leads, Continues;
    LeadsOn(cfg, s.pc, ReceiveSection(cfg, s, a).pc, At(ErrCheck, s.pc.ch));
  }

  lemma ErrorLeads(cfg: Config, s: Core, a: Answer)
    requires WellFormed(cfg, s) && InError(s.pc.at)
    ensures Leads(s.pc, ErrorSection(cfg, s, a).pc, AfterError(cfg, s.pc.ch))
  {
    HeldInRange(cfg.buffers, s);
    PoolGoes(s, ErrParse, AfterError(cfg, s.pc.ch));
    ErrorGoes(cfg, s, a);
    hide Conserved, TransfersOk, Goes, AfterError, CheckErr, ParseErr, PoolTake, PoolReturn, QueueHeld;
    match s.pc.at
    case ErrCheck => assert ErrorSection(cfg, s, a) == CheckErr(cfg, s, a);
    case ErrTake => assert ErrorSection(cfg, s, a) == PoolTake(s, ErrParse, AfterError(cfg, s.pc.ch));
    case ErrParse => assert ErrorSection(cfg, s, a) == ParseErr(cfg, s, a);
    case ErrBack =>
    case ErrQueue =>
  }

  lemma ErrorContinues(cfg: Config, s: Core, a: Answer)
    requires WellFormed(cfg, s) && InError(s.pc.at)
    ensures StageOf(cfg, s.pc) < Stages(cfg) && Continues(cfg, s.pc, ErrorSection(cfg, s, a).pc)
  {
    NextStages(cfg, s.pc.ch);
    ErrorLeads(cfg, s, a);
    StageExists(cfg, s.pc);
    hide Conserved, Entry, ErrorSection, AfterError, Leads, Continues;
    LeadsOn(cfg, s.pc, ErrorSection(cfg, s, a).pc, AfterError(cfg, s.pc.ch));
  }

  lemma LoopContinues(cfg: Config, s: Core, a: Answer)
    requires WellFormed(cfg, s)
    ensures StageOf(cfg, s.pc) < Stages(cfg) && Continues(cfg, s.pc, LoopStep(cfg, s, a).pc)
  {
    hide WellFormed, StageOf, Continues, SendSection, UsbSection, ReceiveSection, ErrorSection;
    if InSend(s.pc.at) { SendContinues(cfg, s, a); }
    else if InUsb(s.pc.at) { UsbContinues(cfg, s); }
    else if InReceive(s.pc.at) { ReceiveContinues(cfg, s, a); }
    else { ErrorContinues(cfg, s, a); }
  }

  // ---------- every run ----------

  /** The sections of the main loop among some events. */
  function Sections(es: seq<Event>): nat {
    if es == [] then 0 else (if es[0].Loop? then 1 else 0) + Sections(es[1..])
  }

  predicate SectionsOk(es: seq<Event>) {
    forall e :: e in es && e.Loop? ==> Section(e)
  }

  /** How many sections it can take to the beginning of stage `n`. */
  function Ahead(cfg: Config, pc: Pc, n: nat): nat
    requires StageOf(cfg, pc) < n
  {
    5 * (n - 1 - StageOf(cfg, pc)) + Left(pc)
  }

  /** The beginning of stage `n` is reached, or comes closer. */
  predicate Closer(cfg: Config, pc: Pc, next: Pc, n: nat)
    requires StageOf(cfg, pc) < n <= Stages(cfg)
  {
    next == Entry(cfg, n) || (StageOf(cfg, next) < n && Ahead(cfg, next, n) < Ahead(cfg, pc, n))
  }

  lemma ContinuesCloser(cfg: Config, pc: Pc, next: Pc, n: nat)
    requires StageOf(cfg, pc) < n <= Stages(cfg) && Continues(cfg, pc, next)
    ensures Closer(cfg, pc, next, n)
  {
    hide StageOf, Entry, Left, Stages;
    var stage := StageOf(cfg, pc);
    if next == Entry(cfg, stage + 1) && stage + 1 < n {
      EntryStage(cfg, stage + 1);
    }
  }

  lemma StepAhead(cfg: Config, r: Run, e: Event, n: nat)
    requires WellFormed(cfg, r.core) && (e.Loop? ==> Section(e)) && StageOf(cfg, r.core.pc) < n <= Stages(cfg)
    ensures var pc, next := r.core.pc, Advance(cfg, r, e).core.pc;
            if e.Loop? then Closer(cfg, pc, next, n) else next == pc
  {
    if e.Loop? {
      LoopContinues(cfg, r.core, e.a);
      ContinuesCloser(cfg, r.core.pc, LoopStep(cfg, r.core, e.a).pc, n);
      hide WellFormed, StageOf, Closer, LoopStep;
    } else {
      CallbackKeeps(cfg, r, e);
      hide WellFormed, Advance;
    }
  }

  lemma {:induction false} StageReached(cfg: Config, r: Run, es: seq<Event>, n: nat) returns (k: nat)
    requires WellFormed(cfg, r.core) && SectionsOk(es) && n <= Stages(cfg)
    requires StageOf(cfg, r.core.pc) < n && Sections(es) >= Ahead(cfg, r.core.pc, n)
    ensures 0 < k <= |es| && RunFrom(cfg, r, es[..k]).core.pc == Entry(cfg, n)
    decreases es
  {
    var e, q := es[0], Advance(cfg, r, es[0]);
    assert e in es && forall f :: f in es[1..] ==> f in es;
    StepAhead(cfg, r, e, n);
    AdvanceKeepsWellFormed(cfg, r, e);
    hide Advance, WellFormed, StageOf, Entry, Left;
    if e.Loop? && q.core.pc == Entry(cfg, n) {
      k := 1;
      assert es[..1] == [e] && [e][1..] == [];
    } else {
      k := StageReached(cfg, q, es[1..], n);
      k := k + 1;
      assert es[..k][0] == e && es[..k][1..] == es[1..][..k - 1];
    }
  }

  /** From the top of the loop, within fifteen sections for each channel and five more, and with any callbacks
      between them, the loop comes to send on every channel, to receive on it and to read its error status, to
      its USB part, and back to the top. */
  lemma EveryChannelServed(cfg: Config, r: Run, es: seq<Event>, ch: nat)
    returns (send: nat, usb: nat, receive: nat, error: nat, top: nat)
    requires WellFormed(cfg, r.core) && r.core.pc == LoopTop(cfg) && SectionsOk(es)
    requires Sections(es) >= 15 * cfg.channels + 5 && ch < cfg.channels
    ensures send <= |es| && RunFrom(cfg, r, es[..send]).core.pc == At(SendTake, ch)
    ensures usb <= |es| && RunFrom(cfg, r, es[..usb]).core.pc == At(OutTake, 0)
    ensures receive <= |es| && RunFrom(cfg, r, es[..receive]).core.pc == At(RxCheck, ch)
    ensures error <= |es| && RunFrom(cfg, r, es[..error]).core.pc == At(ErrCheck, ch)
    ensures 0 < top <= |es| && RunFrom(cfg, r, es[..top]).core.pc == LoopTop(cfg)
  {
    EntryOf(cfg, ch);
    var n := cfg.channels;
    assert es[..0] == [];
    if ch == 0 { send := 0; } else { send := StageReached(cfg, r, es, ch); }
    hide WellFormed;
    usb := StageReached(cfg, r, es, n);
    receive := StageReached(cfg, r, es, n + 1 + 2 * ch);
    error := StageReached(cfg, r, es, n + 2 + 2 * ch);
    top := StageReached(cfg, r, es, Stages(cfg));
  }
}
