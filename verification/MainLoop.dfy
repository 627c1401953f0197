/** The functions the main loop calls, with interrupts coming in after every section, and `main`.

    The peripherals answer section `k` of an execution with `env.answer(k)`, and `env.irq(k)` are the
    callbacks that come in when it is over. `n` counts the sections a function has gone through.
  */
module MainLoop {
  import opened GsUsb
  import opened Wrappers
  import opened Bridge
  import opened BridgeStreams
  import opened BridgeRuns
  import opened LinuxList
  import opened FrameLists
  import opened Firmware

  datatype Environment = Environment(answer: nat -> Answer, irq: nat -> seq<Event>)

  ghost predicate EnvironmentOk(env: Environment) {
    && (forall k: nat :: env.answer(k).rx.Some? ==> env.answer(k).rx.value.canId & ERR_FLAG == 0)
    && (forall k: nat :: OnlyCallbacks(env.irq(k)))
  }

  ghost predicate OnlyCallbacks(w: seq<Event>) {
    forall i :: 0 <= i < |w| ==> !w[i].Loop?
  }

  // ---------- the run an execution goes through ----------

  datatype Execution = Execution(env: Environment, start: Run)

  function Slot(env: Environment, k: nat): seq<Event> {
    [Loop(env.answer(k))] + env.irq(k)
  }

  /** Where `n` sections lead. */
  function After(cfg: Config, x: Execution, n: nat): (r: Run)
    requires WellFormed(cfg, x.start.core)
    ensures WellFormed(cfg, r.core)
  {
    if n == 0 then x.start else RunFrom(cfg, After(cfg, x, n - 1), Slot(x.env, n - 1))
  }

  function Trace(env: Environment, n: nat): seq<Event> {
    if n == 0 then [] else Trace(env, n - 1) + Slot(env, n - 1)
  }

  /** An execution is a run: all laws of runs hold of it. */
  lemma {:induction false} ExecutionIsRun(cfg: Config, x: Execution, n: nat)
    requires WellFormed(cfg, x.start.core)
    ensures After(cfg, x, n) == RunFrom(cfg, x.start, Trace(x.env, n))
  {
    if n > 0 {
      ExecutionIsRun(cfg, x, n - 1);
      RunJoin(cfg, x.start, Trace(x.env, n - 1), Slot(x.env, n - 1));
    }
  }

  // ---------- interrupts ----------

  lemma OneReference(n: nat, c: Core, x: nat)
    requires Conserved(n, c) && (c.pc.held == Some(x) || c.fromHostBuf == Some(x) || c.toHostBuf == Some(x))
    ensures x < n && OnNone(x, Queues(c))
  {
    assert References(c, x) <= 1;
    var qs := Queues(c);
    forall i, k | 0 <= i < |qs| && 0 <= k < |qs[i]|
      ensures qs[i][k] != x
    {
      if qs[i][k] == x {
        CopiesOfMember(x, qs[i]);
        if i >= 2 { QueuedNone(x, c.fromHost, i - 2); }
      }
    }
  }

  /** A buffer only one pointer leads to can be put on any ring. */
  lemma SingleIsLoose(hcan: Handle, c: Core, p: ListHead?, x: nat)
    requires Conserved(hcan.cfg.buffers, c) && hcan.Points(p, Some(x))
    requires c.pc.held == Some(x) || c.fromHostBuf == Some(x) || c.toHostBuf == Some(x)
    ensures hcan.lists.Loose(p, Queues(c))
  {
    OneReference(hcan.cfg.buffers, c, x);
  }

  /** `USBD_GS_CAN_DataIn`, if an IN transfer is under way. */
  method DataInCallback(hcan: Handle, ghost r: Run)
    requires hcan.Valid(r)
    modifies hcan, hcan.lists.heads, hcan.lists.nodes
    ensures hcan.Valid(Advance(hcan.cfg, r, DataIn))
    ensures Advance(hcan.cfg, r, DataIn).core.pc == r.core.pc
  {
    ghost var c := r.core;
    AdvanceKeepsWellFormed(hcan.cfg, r, DataIn);
    if hcan.inFlight {
      SingleIsLoose(hcan, c, hcan.toHostBuf, c.toHostBuf.value);
      hcan.DataIn(c);
    }
  }

  /** `USBD_GS_CAN_DataOut`, if an OUT transfer is armed. */
  method DataOutCallback(hcan: Handle, f: HostFrame, rxlen: nat, ghost r: Run)
    requires hcan.Valid(r)
    modifies hcan, hcan.lists.heads, hcan.lists.nodes, hcan.msgbuf
    ensures hcan.Valid(Advance(hcan.cfg, r, DataOut(f, rxlen)))
    ensures Advance(hcan.cfg, r, DataOut(f, rxlen)).core.pc == r.core.pc
  {
    ghost var c := r.core;
    AdvanceKeepsWellFormed(hcan.cfg, r, DataOut(f, rxlen));
    if hcan.configured && hcan.outArmed {
      SingleIsLoose(hcan, c, hcan.fromHostBuf, c.fromHostBuf.value);
      hcan.DataOut(f, rxlen, c);
    }
  }

  /** Suspend, resume and configuration. */
  method StateCallback(hcan: Handle, e: Event, ghost r: Run)
    requires hcan.Valid(r) && (e.Suspend? || e.Resume? || e.Configure?)
    modifies hcan
    ensures hcan.Valid(Advance(hcan.cfg, r, e)) && Advance(hcan.cfg, r, e).core.pc == r.core.pc
  {
    AdvanceKeepsWellFormed(hcan.cfg, r, e);
    if e.Configure? {
      if !hcan.configured && hcan.outArmed {
        hcan.configured := true;
        hcan.PrepareReceive();
      }
    } else {
      hcan.suspended := e.Suspend?;
    }
  }

  /** One callback, if the hardware and the host can cause it. */
  method Callback(hcan: Handle, e: Event, ghost r: Run) returns (ghost q: Run)
    requires hcan.Valid(r) && !e.Loop?
    modifies hcan, hcan.lists.heads, hcan.lists.nodes, hcan.msgbuf
    ensures hcan.Valid(q) && q == Advance(hcan.cfg, r, e) && q.core.pc == r.core.pc
  {
    q := Advance(hcan.cfg, r, e);
    hide Advance;
    match e
    case DataIn => DataInCallback(hcan, r);
    case DataOut(f, rxlen) => DataOutCallback(hcan, f, rxlen, r);
    case Suspend => StateCallback(hcan, e, r);
    case Resume => StateCallback(hcan, e, r);
    case Configure => StateCallback(hcan, e, r);
  }

  /** Any sequence of callbacks. */
  method Interrupt(hcan: Handle, w: seq<Event>, ghost r: Run) returns (ghost q: Run)
    requires hcan.Valid(r) && OnlyCallbacks(w)
    modifies hcan, hcan.lists.heads, hcan.lists.nodes, hcan.msgbuf
    ensures hcan.Valid(q) && q == RunFrom(hcan.cfg, r, w) && q.core.pc == r.core.pc
  {
    q := r;
    for i := 0 to |w|
      invariant hcan.Valid(q) && q == RunFrom(hcan.cfg, r, w[..i]) && q.core.pc == r.core.pc
    {
      ghost var before := q;
      q := Callback(hcan, w[i], q);
      assert w[..i + 1] == w[..i] + [w[i]];
      RunJoin(hcan.cfg, r, w[..i], [w[i]]);
      assert RunFrom(hcan.cfg, before, [w[i]]) == Advance(hcan.cfg, before, w[i]);
    }
    assert w[..|w|] == w;
  }

  /** The state the heap is in before section `k`. */
  ghost predicate InStep(hcan: Handle, x: Execution, k: nat)
    reads hcan, hcan.lists.heads, hcan.lists.nodes, hcan.msgbuf
  {
    EnvironmentOk(x.env) && WellFormed(hcan.cfg, x.start.core) && hcan.Represents(After(hcan.cfg, x, k).core)
  }

  ghost function PcAt(hcan: Handle, x: Execution, k: nat): Pc
    requires WellFormed(hcan.cfg, x.start.core)
  {
    After(hcan.cfg, x, k).core.pc
  }

  /** The main loop has finished section `k`, and the interrupts that were waiting come in. */
  method EndSection(hcan: Handle, x: Execution, k: nat)
    requires EnvironmentOk(x.env) && WellFormed(hcan.cfg, x.start.core)
    requires hcan.Represents(LoopStep(hcan.cfg, After(hcan.cfg, x, k).core, x.env.answer(k)))
    modifies hcan, hcan.lists.heads, hcan.lists.nodes, hcan.msgbuf
    ensures InStep(hcan, x, k + 1)
    ensures PcAt(hcan, x, k + 1) == LoopStep(hcan.cfg, After(hcan.cfg, x, k).core, x.env.answer(k)).pc
  {
    ghost var r, e := After(hcan.cfg, x, k), Loop(x.env.answer(k));
    AdvanceKeepsWellFormed(hcan.cfg, r, e);
    ghost var q := Interrupt(hcan, x.env.irq(k), Advance(hcan.cfg, r, e));
    RunJoin(hcan.cfg, r, [e], x.env.irq(k));
    assert RunFrom(hcan.cfg, r, [e]) == Advance(hcan.cfg, r, e);
    assert q == After(hcan.cfg, x, k + 1);
  }

  // ---------- can_common.c ----------

  method TakeSection(hcan: Handle, ch: nat, x: Execution, k: nat) returns (frameObject: ListHead?)
    requires InStep(hcan, x, k) && PcAt(hcan, x, k) == At(SendTake, ch) && ch < hcan.cfg.channels
    modifies hcan, hcan.lists.heads, hcan.lists.nodes, hcan.msgbuf
    ensures InStep(hcan, x, k + 1) && hcan.Points(frameObject, PcAt(hcan, x, k + 1).held)
    ensures var pc := PcAt(hcan, x, k + 1); if frameObject == null then pc == AfterSend(hcan.cfg, ch)
      else pc.at.SendTry? && pc.ch == ch
  {
    hide After;
    ghost var c := After(hcan.cfg, x, k).core;
    frameObject := hcan.TakeFromHost(ch, c);
    assert LoopStep(hcan.cfg, c, x.env.answer(k)) == TakeToSend(hcan.cfg, c);
    EndSection(hcan, x, k);
  }

  method TrySection(hcan: Handle, frameObject: ListHead, x: Execution, k: nat) returns (sent: bool)
    requires InStep(hcan, x, k) && PcAt(hcan, x, k).at.SendTry? && hcan.Points(frameObject, PcAt(hcan, x, k).held)
    modifies hcan, hcan.lists.heads, hcan.lists.nodes, hcan.msgbuf
    ensures InStep(hcan, x, k + 1)
      && PcAt(hcan, x, k + 1) == PcAt(hcan, x, k).(at := if sent then SendEcho else SendBack)
  {
    hide After;
    ghost var c := After(hcan.cfg, x, k).core;
    HeldInRange(hcan.cfg.buffers, c);
    sent := hcan.CanSend(frameObject, x.env.answer(k), c);
    assert LoopStep(hcan.cfg, c, x.env.answer(k)) == TrySend(hcan.cfg, c, x.env.answer(k));
    EndSection(hcan, x, k);
  }

  method PutBackSection(hcan: Handle, ch: nat, frameObject: ListHead, x: Execution, k: nat)
    requires InStep(hcan, x, k) && PcAt(hcan, x, k).at.SendBack? && PcAt(hcan, x, k).ch == ch
      && hcan.Points(frameObject, PcAt(hcan, x, k).held)
    modifies hcan, hcan.lists.heads, hcan.lists.nodes, hcan.msgbuf
    ensures InStep(hcan, x, k + 1) && PcAt(hcan, x, k + 1) == AfterSend(hcan.cfg, ch)
  {
    hide After;
    ghost var c := After(hcan.cfg, x, k).core;
    SingleIsLoose(hcan, c, frameObject, c.pc.held.value);
    hcan.PutBackFirst(ch, frameObject, c);
    assert LoopStep(hcan.cfg, c, x.env.answer(k)) == PutBack(hcan.cfg, c);
    EndSection(hcan, x, k);
  }

  /** Where the main loop goes when it has let go of a buffer. */
  function Next(cfg: Config, pc: Pc): Pc {
    if InSend(pc.at) then AfterSend(cfg, pc.ch)
    else if InReceive(pc.at) then At(ErrCheck, pc.ch)
    else AfterError(cfg, pc.ch)
  }

  /** `list_add_tail_locked(&frame_object->list, &hcan->list_to_host)` */
  method QueueSection(hcan: Handle, frameObject: ListHead, x: Execution, k: nat)
    requires InStep(hcan, x, k) && Queueing(PcAt(hcan, x, k).at) && hcan.Points(frameObject, PcAt(hcan, x, k).held)
    modifies hcan, hcan.lists.heads, hcan.lists.nodes, hcan.msgbuf
    ensures InStep(hcan, x, k + 1) && PcAt(hcan, x, k + 1) == Next(hcan.cfg, PcAt(hcan, x, k))
  {
    hide After;
    ghost var c := After(hcan.cfg, x, k).core;
    SingleIsLoose(hcan, c, frameObject, c.pc.held.value);
    hcan.QueueToHost(frameObject, c, Next(hcan.cfg, c.pc));
    assert LoopStep(hcan.cfg, c, x.env.answer(k)) == QueueHeld(c, Next(hcan.cfg, c.pc));
    EndSection(hcan, x, k);
  }

  /** `CAN_SendFrame` */
  method CanSendFrame(hcan: Handle, ch: nat, x: Execution, k: nat) returns (n: nat)
    requires InStep(hcan, x, k) && PcAt(hcan, x, k) == At(SendTake, ch) && ch < hcan.cfg.channels
    modifies hcan, hcan.lists.heads, hcan.lists.nodes, hcan.msgbuf
    ensures InStep(hcan, x, n) && PcAt(hcan, x, n) == AfterSend(hcan.cfg, ch) && n > k
  {
    hide InStep, After;
    var frameObject := TakeSection(hcan, ch, x, k);
    if frameObject == null {
      return k + 1;
    }
    var sent := TrySection(hcan, frameObject, x, k + 1);
    if !sent {
      PutBackSection(hcan, ch, frameObject, x, k + 2);
    } else {
      QueueSection(hcan, frameObject, x, k + 2);
    }
    n := k + 3;
  }

  /** A section of `CAN_ReceiveFrame` or `CAN_HandleError` that takes a buffer from the pool. */
  method PoolSection(hcan: Handle, x: Execution, k: nat) returns (frameObject: ListHead?)
    requires InStep(hcan, x, k) && (PcAt(hcan, x, k).at.RxTake? || PcAt(hcan, x, k).at.ErrTake?)
    modifies hcan, hcan.lists.heads, hcan.lists.nodes, hcan.msgbuf
    ensures InStep(hcan, x, k + 1) && hcan.Points(frameObject, PcAt(hcan, x, k + 1).held)
    ensures var pc, next := PcAt(hcan, x, k), PcAt(hcan, x, k + 1);
            if frameObject == null then next == Next(hcan.cfg, pc)
            else next.at == (if pc.at.RxTake? then RxRead else ErrParse) && next.ch == pc.ch && next.err == pc.err
  {
    hide After;
    ghost var c := After(hcan.cfg, x, k).core;
    ghost var p := if c.pc.at.RxTake? then RxRead else ErrParse;
    frameObject := hcan.TakeFromPool(c, p, Next(hcan.cfg, c.pc));
    assert LoopStep(hcan.cfg, c, x.env.answer(k)) == PoolTake(c, p, Next(hcan.cfg, c.pc));
    EndSection(hcan, x, k);
  }

  /** `list_add_tail_locked(&frame_object->list, &hcan->list_frame_pool)` */
  method ReturnSection(hcan: Handle, frameObject: ListHead, x: Execution, k: nat)
    requires InStep(hcan, x, k) && (PcAt(hcan, x, k).at.RxBack? || PcAt(hcan, x, k).at.ErrBack?)
    requires hcan.Points(frameObject, PcAt(hcan, x, k).held)
    modifies hcan, hcan.lists.heads, hcan.lists.nodes, hcan.msgbuf
    ensures InStep(hcan, x, k + 1) && PcAt(hcan, x, k + 1) == Next(hcan.cfg, PcAt(hcan, x, k))
  {
    hide After;
    ghost var c := After(hcan.cfg, x, k).core;
    SingleIsLoose(hcan, c, frameObject, c.pc.held.value);
    hcan.ReturnToPool(frameObject, c, Next(hcan.cfg, c.pc));
    assert LoopStep(hcan.cfg, c, x.env.answer(k)) == PoolReturn(c, Next(hcan.cfg, c.pc));
    EndSection(hcan, x, k);
  }

  /** `can_is_rx_pending` at the start of `CAN_ReceiveFrame` */
  method PendingSection(hcan: Handle, ch: nat, x: Execution, k: nat) returns (pending: bool)
    requires InStep(hcan, x, k) && PcAt(hcan, x, k) == At(RxCheck, ch)
    modifies hcan, hcan.lists.heads, hcan.lists.nodes, hcan.msgbuf
    ensures InStep(hcan, x, k + 1) && PcAt(hcan, x, k + 1) == At(if pending then RxTake else ErrCheck, ch)
  {
    hide After;
    ghost var c := After(hcan.cfg, x, k).core;
    pending := x.env.answer(k).rxPending;
    assert LoopStep(hcan.cfg, c, x.env.answer(k)) == CheckRx(c, x.env.answer(k));
    EndSection(hcan, x, k);
  }

  method ReadSection(hcan: Handle, ch: nat, frameObject: ListHead, x: Execution, k: nat) returns (received: bool)
    requires InStep(hcan, x, k) && PcAt(hcan, x, k).at.RxRead? && PcAt(hcan, x, k).ch == ch
      && hcan.Points(frameObject, PcAt(hcan, x, k).held)
    modifies hcan, hcan.lists.heads, hcan.lists.nodes, hcan.msgbuf
    ensures InStep(hcan, x, k + 1)
      && PcAt(hcan, x, k + 1) == PcAt(hcan, x, k).(at := if received then RxQueue else RxBack)
  {
    hide After;
    ghost var c := After(hcan.cfg, x, k).core;
    HeldInRange(hcan.cfg.buffers, c);
    received := hcan.CanReceive(frameObject, ch, x.env.answer(k), c);
    assert LoopStep(hcan.cfg, c, x.env.answer(k)) == ReadRx(c, x.env.answer(k));
    EndSection(hcan, x, k);
  }

  /** `CAN_ReceiveFrame` */
  method CanReceiveFrame(hcan: Handle, ch: nat, x: Execution, k: nat) returns (n: nat)
    requires InStep(hcan, x, k) && PcAt(hcan, x, k) == At(RxCheck, ch)
    modifies hcan, hcan.lists.heads, hcan.lists.nodes, hcan.msgbuf
    ensures InStep(hcan, x, n) && PcAt(hcan, x, n) == At(ErrCheck, ch) && n > k
  {
    hide InStep, After;
    var pending := PendingSection(hcan, ch, x, k);
    if !pending {
      return k + 1;
    }
    var frameObject := PoolSection(hcan, x, k + 1);
    if frameObject == null {
      return k + 2;
    }
    n := ReceiveInto(hcan, ch, frameObject, x, k + 2);
  }

  /** The rest of `CAN_ReceiveFrame`, with a buffer. */
  method ReceiveInto(hcan: Handle, ch: nat, frameObject: ListHead, x: Execution, k: nat) returns (n: nat)
    requires InStep(hcan, x, k) && PcAt(hcan, x, k).at.RxRead? && PcAt(hcan, x, k).ch == ch
      && hcan.Points(frameObject, PcAt(hcan, x, k).held)
    modifies hcan, hcan.lists.heads, hcan.lists.nodes, hcan.msgbuf
    ensures InStep(hcan, x, n) && PcAt(hcan, x, n) == At(ErrCheck, ch) && n > k
  {
    hide InStep, After;
    var received := ReadSection(hcan, ch, frameObject, x, k);
    if !received {
      ReturnSection(hcan, frameObject, x, k + 1);
    } else {
      QueueSection(hcan, frameObject, x, k + 1);
    }
    n := k + 2;
  }

  /** `can_is_rx_pending` and `can_get_error_status` at the start of `CAN_HandleError` */
  method StatusSection(hcan: Handle, ch: nat, x: Execution, k: nat) returns (reading: Option<bv32>)
    requires InStep(hcan, x, k) && PcAt(hcan, x, k) == At(ErrCheck, ch)
    modifies hcan, hcan.lists.heads, hcan.lists.nodes, hcan.msgbuf
    ensures InStep(hcan, x, k + 1)
    ensures PcAt(hcan, x, k + 1) == if reading.None? then AfterError(hcan.cfg, ch)
      else Pc(ErrTake, ch, None, reading.value)
  {
    hide After;
    ghost var c := After(hcan.cfg, x, k).core;
    reading := if x.env.answer(k).rxPending then None else Some(x.env.answer(k).esr);
    assert LoopStep(hcan.cfg, c, x.env.answer(k)) == CheckErr(hcan.cfg, c, x.env.answer(k));
    EndSection(hcan, x, k);
  }

  method ParseSection(hcan: Handle, ch: nat, err: bv32, frameObject: ListHead, x: Execution, k: nat)
    returns (shouldSend: bool)
    requires InStep(hcan, x, k) && hcan.Points(frameObject, PcAt(hcan, x, k).held)
    requires PcAt(hcan, x, k).at.ErrParse? && PcAt(hcan, x, k).ch == ch && PcAt(hcan, x, k).err == err
    modifies hcan, hcan.lists.heads, hcan.lists.nodes, hcan.msgbuf
    ensures InStep(hcan, x, k + 1)
      && PcAt(hcan, x, k + 1) == PcAt(hcan, x, k).(at := if shouldSend then ErrQueue else ErrBack)
  {
    hide After;
    ghost var c := After(hcan.cfg, x, k).core;
    HeldInRange(hcan.cfg.buffers, c);
    shouldSend := hcan.ParseErrorStatus(frameObject, ch, err, x.env.answer(k), c);
    assert LoopStep(hcan.cfg, c, x.env.answer(k)) == ParseErr(hcan.cfg, c, x.env.answer(k));
    EndSection(hcan, x, k);
  }

  /** `CAN_HandleError` */
  method CanHandleError(hcan: Handle, ch: nat, x: Execution, k: nat) returns (n: nat)
    requires InStep(hcan, x, k) && PcAt(hcan, x, k) == At(ErrCheck, ch)
    modifies hcan, hcan.lists.heads, hcan.lists.nodes, hcan.msgbuf
    ensures InStep(hcan, x, n) && PcAt(hcan, x, n) == AfterError(hcan.cfg, ch) && n > k
  {
    hide InStep, After;
    var reading := StatusSection(hcan, ch, x, k);
    if reading.None? {
      return k + 1;
    }
    var frameObject := PoolSection(hcan, x, k + 1);
    if frameObject == null {
      return k + 2;
    }
    n := ReportInto(hcan, ch, reading.value, frameObject, x, k + 2);
  }

  /** The rest of `CAN_HandleError`, with a buffer. */
  method ReportInto(hcan: Handle, ch: nat, err: bv32, frameObject: ListHead, x: Execution, k: nat) returns (n: nat)
    requires InStep(hcan, x, k) && hcan.Points(frameObject, PcAt(hcan, x, k).held)
    requires PcAt(hcan, x, k).at.ErrParse? && PcAt(hcan, x, k).ch == ch && PcAt(hcan, x, k).err == err
    modifies hcan, hcan.lists.heads, hcan.lists.nodes, hcan.msgbuf
    ensures InStep(hcan, x, n) && PcAt(hcan, x, n) == AfterError(hcan.cfg, ch) && n > k
  {
    hide InStep, After;
    var shouldSend := ParseSection(hcan, ch, err, frameObject, x, k);
    if shouldSend {
      QueueSection(hcan, frameObject, x, k + 1);
    } else {
      ReturnSection(hcan, frameObject, x, k + 1);
    }
    n := k + 2;
  }

  // ---------- usbd_gs_can.c ----------

  method OutSection(hcan: Handle, x: Execution, k: nat) returns (taken: bool)
    requires InStep(hcan, x, k) && PcAt(hcan, x, k).at.OutTake?
    modifies hcan, hcan.lists.heads, hcan.lists.nodes, hcan.msgbuf
    ensures InStep(hcan, x, k + 1) && PcAt(hcan, x, k + 1) == At(if taken then OutArm else InTake, 0)
  {
    hide After;
    ghost var c := After(hcan.cfg, x, k).core;
    taken := hcan.TakeForReceive(c);
    assert LoopStep(hcan.cfg, c, x.env.answer(k)) == TakeForOut(c);
    EndSection(hcan, x, k);
  }

  method ArmSection(hcan: Handle, x: Execution, k: nat)
    requires InStep(hcan, x, k) && PcAt(hcan, x, k).at.OutArm?
    modifies hcan, hcan.lists.heads, hcan.lists.nodes, hcan.msgbuf
    ensures InStep(hcan, x, k + 1) && PcAt(hcan, x, k + 1) == At(InTake, 0)
  {
    hide After;
    ghost var c := After(hcan.cfg, x, k).core;
    hcan.PrepareReceive();
    assert LoopStep(hcan.cfg, c, x.env.answer(k)) == ArmOut(c);
    EndSection(hcan, x, k);
  }

  /** `USBD_GS_CAN_ReceiveFromHost` */
  method ReceiveFromHost(hcan: Handle, x: Execution, k: nat) returns (n: nat)
    requires InStep(hcan, x, k) && PcAt(hcan, x, k).at.OutTake?
    modifies hcan, hcan.lists.heads, hcan.lists.nodes, hcan.msgbuf
    ensures InStep(hcan, x, n) && PcAt(hcan, x, n) == At(InTake, 0) && n > k
  {
    hide InStep, After;
    var taken := OutSection(hcan, x, k);
    if !taken {
      return k + 1;
    }
    ArmSection(hcan, x, k + 1);
    n := k + 2;
  }

  method InSection(hcan: Handle, x: Execution, k: nat) returns (taken: bool)
    requires InStep(hcan, x, k) && PcAt(hcan, x, k).at.InTake?
    modifies hcan, hcan.lists.heads, hcan.lists.nodes, hcan.msgbuf
    ensures InStep(hcan, x, k + 1) && PcAt(hcan, x, k + 1) == if taken then At(InTransmit, 0) else AfterUsb(hcan.cfg)
  {
    hide After;
    ghost var c := After(hcan.cfg, x, k).core;
    taken := hcan.TakeForTransmit(c);
    assert LoopStep(hcan.cfg, c, x.env.answer(k)) == TakeForIn(hcan.cfg, c);
    EndSection(hcan, x, k);
  }

  method TransmitSection(hcan: Handle, x: Execution, k: nat) returns (ok: bool)
    requires InStep(hcan, x, k) && PcAt(hcan, x, k).at.InTransmit?
    modifies hcan, hcan.lists.heads, hcan.lists.nodes, hcan.msgbuf
    ensures InStep(hcan, x, k + 1) && PcAt(hcan, x, k + 1) == if ok then AfterUsb(hcan.cfg) else At(InDrop, 0)
  {
    hide After;
    ghost var c := After(hcan.cfg, x, k).core;
    ok := hcan.SendFrame(c);
    assert LoopStep(hcan.cfg, c, x.env.answer(k)) == Transmit(hcan.cfg, c);
    EndSection(hcan, x, k);
  }

  method DropSection(hcan: Handle, x: Execution, k: nat)
    requires InStep(hcan, x, k) && PcAt(hcan, x, k).at.InDrop?
    modifies hcan, hcan.lists.heads, hcan.lists.nodes, hcan.msgbuf
    ensures InStep(hcan, x, k + 1) && PcAt(hcan, x, k + 1) == AfterUsb(hcan.cfg)
  {
    hide After;
    ghost var c := After(hcan.cfg, x, k).core;
    SingleIsLoose(hcan, c, hcan.toHostBuf, c.toHostBuf.value);
    hcan.DropTransmit(c);
    assert LoopStep(hcan.cfg, c, x.env.answer(k)) == DropIn(hcan.cfg, c);
    EndSection(hcan, x, k);
  }

  /** `USBD_GS_CAN_SendToHost` */
  method SendToHost(hcan: Handle, x: Execution, k: nat) returns (n: nat)
    requires InStep(hcan, x, k) && PcAt(hcan, x, k).at.InTake?
    modifies hcan, hcan.lists.heads, hcan.lists.nodes, hcan.msgbuf
    ensures InStep(hcan, x, n) && PcAt(hcan, x, n) == AfterUsb(hcan.cfg) && n > k
  {
    hide InStep, After;
    var taken := InSection(hcan, x, k);
    if !taken {
      return k + 1;
    }
    var ok := TransmitSection(hcan, x, k + 1);
    if ok {
      return k + 2;
    }
    DropSection(hcan, x, k + 2);
    n := k + 3;
  }

  // ---------- main.c ----------

  method SendAll(hcan: Handle, x: Execution, k: nat) returns (n: nat)
    requires InStep(hcan, x, k) && PcAt(hcan, x, k) == LoopTop(hcan.cfg)
    modifies hcan, hcan.lists.heads, hcan.lists.nodes, hcan.msgbuf
    ensures InStep(hcan, x, n) && PcAt(hcan, x, n) == At(OutTake, 0) && n >= k
  {
    hide After;
    n := k;
    var channels := hcan.cfg.channels;
    for i := 0 to channels
      invariant InStep(hcan, x, n) && n >= k
      invariant PcAt(hcan, x, n) == if i < channels then At(SendTake, i) else At(OutTake, 0)
    {
      n := CanSendFrame(hcan, i, x, n);
    }
  }

  method ReceiveAll(hcan: Handle, x: Execution, k: nat) returns (n: nat)
    requires InStep(hcan, x, k) && PcAt(hcan, x, k) == AfterUsb(hcan.cfg)
    modifies hcan, hcan.lists.heads, hcan.lists.nodes, hcan.msgbuf
    ensures InStep(hcan, x, n) && PcAt(hcan, x, n) == LoopTop(hcan.cfg) && n >= k
  {
    hide After;
    n := k;
    var channels := hcan.cfg.channels;
    for i := 0 to channels
      invariant InStep(hcan, x, n) && n >= k
      invariant PcAt(hcan, x, n) == if i < channels then At(RxCheck, i) else LoopTop(hcan.cfg)
    {
      n := CanReceiveFrame(hcan, i, x, n);
      n := CanHandleError(hcan, i, x, n);
    }
  }

  /** One pass of the endless loop in `main`. */
  method Pass(hcan: Handle, x: Execution, k: nat) returns (n: nat)
    requires InStep(hcan, x, k) && PcAt(hcan, x, k) == LoopTop(hcan.cfg)
    modifies hcan, hcan.lists.heads, hcan.lists.nodes, hcan.msgbuf
    ensures InStep(hcan, x, n) && PcAt(hcan, x, n) == LoopTop(hcan.cfg) && n > k
  {
    hide InStep, After;
    n := SendAll(hcan, x, k);
    n := ReceiveFromHost(hcan, x, n);
    n := SendToHost(hcan, x, n);
    n := ReceiveAll(hcan, x, n);
  }

  /** `INIT_LIST_HEAD` on each of `n` nodes. */
  method InitListHeads(n: nat) returns (nodes: seq<ListHead>)
    ensures |nodes| == n && Distinct(nodes)
    ensures forall k :: 0 <= k < n ==> fresh(nodes[k]) && nodes[k].entry == k && Ring(nodes[k], [])
  {
    nodes := [];
    for i := 0 to n
      invariant |nodes| == i && Distinct(nodes)
      invariant forall k :: 0 <= k < i ==>
                  fresh(nodes[k]) && allocated(nodes[k]) && nodes[k].entry == k && Ring(nodes[k], [])
    {
      var node := new ListHead(i);
      nodes := nodes + [node];
    }
  }

  ghost function CountTo(n: nat): seq<nat> {
    seq(n, i => i)
  }

  ghost function PoolOnly(n: nat, channels: nat): seq<seq<nat>> {
    [CountTo(n), []] + seq(channels, _ => [])
  }

  /** The loop of `main` that puts the buffers into the pool. */
  method FillPool(lists: FrameLists, n: nat, ghost channels: nat)
    requires |lists.nodes| == n && lists.Holds(PoolOnly(0, channels))
    modifies lists.heads, lists.nodes
    ensures lists.Holds(PoolOnly(n, channels))
  {
    for i := 0 to n
      invariant lists.Holds(PoolOnly(i, channels))
    {
      ghost var qs := PoolOnly(i, channels);
      lists.AddTail(POOL, lists.nodes[i], qs);
      assert CountTo(i) + [i] == CountTo(i + 1);
      assert PoolOnly(i + 1, channels) == qs[POOL := CountTo(i + 1)];
    }
  }

  /** The handle with nothing in its rings. */
  method NewHandle(cfg: Config, store: seq<HostFrame>) returns (hcan: Handle)
    requires |store| == cfg.buffers
    ensures hcan.cfg == cfg && hcan.Fields(Start(cfg, store).core)
    ensures hcan.lists.Holds(PoolOnly(0, cfg.channels))
    ensures fresh(hcan) && fresh(hcan.msgbuf)
    ensures forall i :: 0 <= i < |hcan.lists.heads| ==> fresh(hcan.lists.heads[i])
    ensures forall i :: 0 <= i < |hcan.lists.nodes| ==> fresh(hcan.lists.nodes[i])
  {
    var nodes := InitListHeads(cfg.buffers);
    var heads := InitListHeads(2 + cfg.channels);
    var lists := new FrameLists(nodes, heads);
    assert lists.Holds(PoolOnly(0, cfg.channels));
    hide FrameLists.Holds, PoolOnly, Distinct, Ring, WellFormed;
    var msgbuf := new HostFrame[|store|](i requires 0 <= i < |store| => store[i]);
    assert msgbuf[..] == store;
    hcan := new Handle(cfg, lists, msgbuf);
  }

  /** `main` up to its loop. */
  method Boot(cfg: Config, store: seq<HostFrame>) returns (hcan: Handle)
    requires |store| == cfg.buffers
    ensures hcan.cfg == cfg && hcan.Valid(Start(cfg, store))
    ensures fresh(hcan) && fresh(hcan.msgbuf)
    ensures forall i :: 0 <= i < |hcan.lists.heads| ==> fresh(hcan.lists.heads[i])
    ensures forall i :: 0 <= i < |hcan.lists.nodes| ==> fresh(hcan.lists.nodes[i])
  {
    hcan := NewHandle(cfg, store);
    assert |hcan.lists.nodes| == cfg.buffers;
    hide Start, Queues, PoolOnly, FrameLists.Holds, WellFormed, Handle.Fields;
    FillPool(hcan.lists, cfg.buffers, cfg.channels);
    StartQueues(cfg, store);
  }

  lemma StartQueues(cfg: Config, store: seq<HostFrame>)
    requires |store| == cfg.buffers
    ensures Queues(Start(cfg, store).core) == PoolOnly(cfg.buffers, cfg.channels)
  {}

  /** `main`, with any number of passes of its loop: the heap is in the state the step model reaches
      on the same answers and callbacks, so everything proved about runs holds of the heap. */
  method RunFirmware(cfg: Config, store: seq<HostFrame>, env: Environment, passes: nat) returns (hcan: Handle, n: nat)
    requires |store| == cfg.buffers && EnvironmentOk(env)
    ensures hcan.cfg == cfg && hcan.Valid(RunOf(cfg, store, Trace(env, n))) && n >= passes
    ensures RunOf(cfg, store, Trace(env, n)).core.pc == LoopTop(cfg)
  {
    hcan := Boot(cfg, store);
    var x := Execution(env, Start(cfg, store));
    n := 0;
    for i := 0 to passes
      invariant InStep(hcan, x, n) && PcAt(hcan, x, n) == LoopTop(cfg) && n >= i && hcan.cfg == cfg
    {
      n := Pass(hcan, x, n);
    }
    ExecutionIsRun(cfg, x, n);
  }

  /** In the heap, the rings are disjoint and hold no buffer a transfer owns: an entry of a ring is no
      other entry of any ring, and no pointer of the handle leads to it. */
  lemma RingsOwnTheirEntries(hcan: Handle, r: Run, i: nat, k: nat)
    requires hcan.Valid(r) && i < |Queues(r.core)| && k < |Queues(r.core)[i]|
    ensures var qs, nodes := Queues(r.core), hcan.lists.nodes;
            && qs[i][k] < |nodes|
            && var node := nodes[qs[i][k]];
            && hcan.fromHostBuf != node && hcan.toHostBuf != node && node !in hcan.lists.heads
            && forall j, l :: 0 <= j < |qs| && 0 <= l < |qs[j]| && (j != i || l != k) ==>
                 qs[j][l] < |nodes| && nodes[qs[j][l]] != node
  {
    var qs, lists, c := Queues(r.core), hcan.lists, r.core;
    var node := lists.nodes[qs[i][k]];
    assert lists.RingOk(i, qs[i]);
    if c.fromHostBuf.Some? { OneReference(hcan.cfg.buffers, c, c.fromHostBuf.value); }
    if c.toHostBuf.Some? { OneReference(hcan.cfg.buffers, c, c.toHostBuf.value); }
    forall j, l | 0 <= j < |qs| && 0 <= l < |qs[j]| && (j != i || l != k)
      ensures lists.nodes[qs[j][l]] != node
    {
      if j == i {
        assert Nodes(lists.nodes, qs[i])[l] != Nodes(lists.nodes, qs[i])[k];
      } else {
        assert Disjoint(qs[i], qs[j]);
      }
    }
  }
}
