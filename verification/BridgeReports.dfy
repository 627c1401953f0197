/** What becomes of one error reading: from the moment `CAN_HandleError` looks for a buffer, through
    any callbacks between its sections, to the frame it queues for the host.
  */
module BridgeReports {
  import opened GsUsb
  import opened Wrappers
  import opened Bridge
  import opened BridgeStreams
  import opened BridgeRuns
  import Bxcan
  import ErrorFrames
  import MCan

  // ---------- callbacks between two sections ----------

  predicate Callbacks(es: seq<Event>) {
    forall e :: e in es ==> !e.Loop?
  }

  /** The main loop is where it was, with the same frame in hand and the same readings remembered, and
      nothing has been sent, read or queued for the host. */
  predicate Undisturbed(r: Run, q: Run) {
    && q.core.pc == r.core.pc && q.core.errOld == r.core.errOld
    && q.past.bus == r.past.bus && q.past.read == r.past.read && q.past.generated == r.past.generated
    && (r.core.pc.held.Some? ==>
      FrameAt(q.core.store, r.core.pc.held.value) == FrameAt(r.core.store, r.core.pc.held.value))
  }

  lemma CallbackKeeps(cfg: Config, r: Run, e: Event)
    requires WellFormed(cfg, r.core) && !e.Loop?
    ensures Undisturbed(r, Advance(cfg, r, e))
  {
    if e.DataOut? && Enabled(cfg, r.core, e) {
      HeldInRange(cfg.buffers, r.core);
      Exclusive(cfg.buffers, r.core, r.core.fromHostBuf.value);
    }
    hide WellFormed, Conserved, Copies, QueuedCopies, References;
  }

  lemma {:induction false} CallbacksKeep(cfg: Config, r: Run, es: seq<Event>)
    requires WellFormed(cfg, r.core) && Callbacks(es)
    ensures Undisturbed(r, RunFrom(cfg, r, es))
    decreases es
  {
    if es != [] {
      assert es[0] in es && forall e :: e in es[1..] ==> e in es;
      CallbackKeeps(cfg, r, es[0]);
      AdvanceKeepsWellFormed(cfg, r, es[0]);
      hide Advance, WellFormed;
      CallbacksKeep(cfg, Advance(cfg, r, es[0]), es[1..]);
    }
  }

  // ---------- the sections of CAN_HandleError ----------

  /** A step of the main loop. */
  predicate Section(e: Event) {
    e.Loop? && (e.a.rx.Some? ==> e.a.rx.value.canId & ERR_FLAG == 0)
  }

  /** A section that sends, reads, queues and drops nothing. */
  predicate NothingPasses(s: Core, e: Event) {
    && e.Loop? && !Queueing(s.pc.at) && !s.pc.at.InDrop?
    && (s.pc.at.SendTry? ==> !e.a.mailboxFree) && (s.pc.at.RxRead? ==> e.a.rx.None?)
  }

  lemma PastStays(cfg: Config, r: Run, e: Event)
    requires WellFormed(cfg, r.core) && Section(e) && NothingPasses(r.core, e)
    ensures Advance(cfg, r, e).past == r.past
  {
    hide WellFormed, Step;
  }

  /** The buffer taken from the pool. */
  lemma TakeSection(cfg: Config, r: Run, e: Event)
    requires WellFormed(cfg, r.core) && r.core.pc.at.ErrTake? && Section(e)
    ensures Advance(cfg, r, e).past.generated == r.past.generated
    ensures Advance(cfg, r, e).core == PoolTake(r.core, ErrParse, AfterError(cfg, r.core.pc.ch))
  {
    hide Conserved, TransfersOk;
    assert InError(r.core.pc.at) && GeneratedBy(r.core, e) == [];
  }

  /** The frame `can_parse_error_status` finds in the buffer. */
  function Found(s: Core, now: bv32): HostFrame
    requires s.pc.held.Some?
  {
    FrameAt(s.store, s.pc.held.value).(timestamp := now, channel := s.pc.ch)
  }

  lemma ParseSection(cfg: Config, r: Run, e: Event)
    requires WellFormed(cfg, r.core) && r.core.pc.at.ErrParse? && Section(e)
    ensures r.core.pc.held.Some?
    ensures var s, t := r.core, Advance(cfg, r, e).core;
            var (send, g) := cfg.driver.parse(s.errOld[s.pc.ch], s.pc.err, e.a.ecr, Found(s, e.a.now));
            && t.pc == s.pc.(at := if send then ErrQueue else ErrBack) && FrameAt(t.store, s.pc.held.value) == g
            && t.errOld == s.errOld[s.pc.ch := s.pc.err]
            && Advance(cfg, r, e).past.generated == r.past.generated
  {
    HeldInRange(cfg.buffers, r.core);
    hide Conserved, TransfersOk;
    assert InError(r.core.pc.at) && ErrorSection(cfg, r.core, e.a) == ParseErr(cfg, r.core, e.a);
    assert GeneratedBy(r.core, e) == [];
  }

  lemma QueueSection(cfg: Config, r: Run, e: Event)
    requires WellFormed(cfg, r.core) && (r.core.pc.at.ErrQueue? || r.core.pc.at.ErrBack?) && Section(e)
    ensures r.core.pc.held.Some?
    ensures var s, q := r.core, Advance(cfg, r, e);
            && q.past.generated == r.past.generated
              + (if s.pc.at.ErrQueue? then [FrameAt(s.store, s.pc.held.value)] else [])
            && q.core.pc == AfterError(cfg, s.pc.ch) && q.core.errOld == s.errOld
  {
    hide Conserved, TransfersOk;
    assert InError(r.core.pc.at);
  }

  // ---------- one reading ----------

  /** The three sections of `CAN_HandleError` that follow the reading of the status, with callbacks
      between them: take a buffer, write the frame, queue it or give the buffer back. */
  datatype Handling = Handling(take: Event, es: seq<Event>, parse: Event, fs: seq<Event>, put: Event)

  predicate HandlingOk(h: Handling) {
    Section(h.take) && Callbacks(h.es) && Section(h.parse) && Callbacks(h.fs) && Section(h.put)
  }

  function EventsOf(h: Handling): seq<Event> {
    ([h.take] + h.es) + (([h.parse] + h.fs) + [h.put])
  }

  /** What the driver makes of the reading, in the first buffer of the pool. */
  function Parsed(cfg: Config, s: Core, h: Handling): (bool, HostFrame)
    requires s.pool != [] && s.pc.ch < |s.errOld| && h.parse.Loop?
  {
    var f := FrameAt(s.store, s.pool[0]).(timestamp := h.parse.a.now, channel := s.pc.ch);
    cfg.driver.parse(s.errOld[s.pc.ch], s.pc.err, h.parse.a.ecr, f)
  }

  lemma ThenCallbacks(cfg: Config, r: Run, e: Event, es: seq<Event>)
    requires WellFormed(cfg, r.core) && Callbacks(es)
    ensures WellFormed(cfg, Advance(cfg, r, e).core)
    ensures Undisturbed(Advance(cfg, r, e), RunFrom(cfg, r, [e] + es))
  {
    AdvanceKeepsWellFormed(cfg, r, e);
    CallbacksKeep(cfg, Advance(cfg, r, e), es);
    assert ([e] + es)[1..] == es;
    hide Undisturbed, Advance, WellFormed;
  }

  /** With a buffer in the pool the reading is parsed and remembered, and what is queued for the host is
      the error frame if there is anything worth sending, and nothing otherwise. */
  lemma ReadingReported(cfg: Config, r: Run, h: Handling)
    requires WellFormed(cfg, r.core) && r.core.pc.at.ErrTake? && HandlingOk(h) && r.core.pool != []
    ensures var s, q := r.core, RunFrom(cfg, r, EventsOf(h)); var (send, g) := Parsed(cfg, s, h);
            && q.past.generated == r.past.generated + (if send then [g] else [])
            && q.core.errOld == s.errOld[s.pc.ch := s.pc.err] && q.core.pc == AfterError(cfg, s.pc.ch)
  {
    TakeSection(cfg, r, h.take);
    ThenCallbacks(cfg, r, h.take, h.es);
    var r1 := RunFrom(cfg, r, [h.take] + h.es);
    hide WellFormed, Advance;
    ParseSection(cfg, r1, h.parse);
    ThenCallbacks(cfg, r1, h.parse, h.fs);
    var r2 := RunFrom(cfg, r1, [h.parse] + h.fs);
    QueueSection(cfg, r2, h.put);
    ThenCallbacks(cfg, r2, h.put, []);
    assert [h.put] + [] == [h.put];
    RunJoin(cfg, r, [h.take] + h.es, ([h.parse] + h.fs) + [h.put]);
    RunJoin(cfg, r1, [h.parse] + h.fs, [h.put]);
  }

  /** Without one it is forgotten: the status that was remembered before stays, and no frame is written. */
  lemma ReadingForgotten(cfg: Config, r: Run, e: Event)
    requires WellFormed(cfg, r.core) && r.core.pc.at.ErrTake? && Section(e) && r.core.pool == []
    ensures var q := Advance(cfg, r, e);
            && q.core == r.core.(pc := AfterError(cfg, r.core.pc.ch))
            && q.past.generated == r.past.generated
  {
    TakeSection(cfg, r, e);
  }

  /** The status is read only when no message is pending: `CAN_HandleError` takes this channel's status word
      and keeps it until it has looked for a buffer. */
  lemma StatusRead(cfg: Config, r: Run, check: Event, es: seq<Event>)
    requires WellFormed(cfg, r.core) && r.core.pc.at.ErrCheck? && Section(check) && Callbacks(es)
    ensures var s, ch := r.core, r.core.pc.ch;
            if check.a.rxPending then Advance(cfg, r, check) == Run(s.(pc := AfterError(cfg, ch)), r.past)
            else
              var q := RunFrom(cfg, r, [check] + es);
              && q.core.pc == Pc(ErrTake, ch, None, check.a.esr) && q.core.errOld == s.errOld
              && q.past.generated == r.past.generated
  {
    StatusSection(cfg, r, check);
    hide Advance, WellFormed;
    ThenCallbacks(cfg, r, check, es);
  }

  lemma StatusSection(cfg: Config, r: Run, e: Event)
    requires WellFormed(cfg, r.core) && r.core.pc.at.ErrCheck? && Section(e)
    ensures var s, ch := r.core, r.core.pc.ch;
            var next := if e.a.rxPending then AfterError(cfg, ch) else Pc(ErrTake, ch, None, e.a.esr);
            Advance(cfg, r, e) == Run(s.(pc := next), r.past)
  {
    PastStays(cfg, r, e);
    hide Conserved, TransfersOk;
  }

  // ---------- protocol errors ----------

  /** What is queued next names the protocol error with this number, in an error frame of channel `ch`; for
      number 0, which is none, it need not be queued. */
  predicate Reports(r: Run, q: Run, ch: nat, code: bv32) {
    var before, after, n := r.past.generated, q.past.generated, |r.past.generated|;
    if after == before then code == 0
    else
      && |after| == n + 1 && after[..n] == before
      && IsErrorFrame(after[n]) && after[n].channel == ch && |after[n].data| >= 8
      && ErrorFrames.CodeIn(after[n]) == code
  }

  /** bxCAN. `CAN_HandleError` has overwritten the last error code before it looks for a buffer. With a
      buffer, the frame queued for the host names exactly the protocol error of the status word, bits 4 to 6,
      and none in bus-off; without one it is forgotten. */
  lemma BxcanProtocolError(cfg: Config, r: Run, h: Handling)
    requires WellFormed(cfg, r.core) && cfg.driver == Bxcan.DRIVER && r.core.pc.at.ErrTake? && HandlingOk(h)
    ensures var s, ch, err := r.core, r.core.pc.ch, r.core.pc.err;
            if s.pool != []
            then Reports(r, RunFrom(cfg, r, EventsOf(h)), ch,
                         if err & 4 != 0 then 0 else ErrorFrames.Named((err >> 4) & 7))
            else Advance(cfg, r, h.take).core == s.(pc := AfterError(cfg, ch))
  {
    var s := r.core;
    if s.pool != [] {
      ReadingReported(cfg, r, h);
      var f := FrameAt(s.store, s.pool[0]).(timestamp := h.parse.a.now, channel := s.pc.ch);
      Bxcan.FrameSays(s.errOld[s.pc.ch], s.pc.err, f);
      hide Bxcan.Parse, ErrorFrames.CodeIn, WellFormed;
    } else {
      ReadingForgotten(cfg, r, h.take);
    }
  }

  /** M_CAN: the same with bits 0 to 2 of its status word, in bus-off too. */
  lemma MCanProtocolError(cfg: Config, r: Run, h: Handling)
    requires WellFormed(cfg, r.core) && cfg.driver == MCan.DRIVER && r.core.pc.at.ErrTake? && HandlingOk(h)
    ensures var s, ch, err := r.core, r.core.pc.ch, r.core.pc.err;
            if s.pool != [] then Reports(r, RunFrom(cfg, r, EventsOf(h)), ch, ErrorFrames.Named(err & 7))
            else Advance(cfg, r, h.take).core == s.(pc := AfterError(cfg, ch))
  {
    var s := r.core;
    if s.pool != [] {
      ReadingReported(cfg, r, h);
      var f := FrameAt(s.store, s.pool[0]).(timestamp := h.parse.a.now, channel := s.pc.ch);
      MCan.FrameSays(s.errOld[s.pc.ch], s.pc.err, h.parse.a.ecr, f);
      hide MCan.Parse, ErrorFrames.CodeIn, WellFormed;
    } else {
      ReadingForgotten(cfg, r, h.take);
    }
  }

  // ---------- error frames that are sent as FD frames ----------

  /** An error frame of M_CAN is an FD frame, and so sent in a packet with 64 data bytes, exactly when the
      frame that was in the buffer before was one. */
  lemma ErrorFrameIsFdIff(cfg: Config, r: Run, h: Handling, timestamps: bool)
    requires WellFormed(cfg, r.core) && cfg.driver == MCan.DRIVER && r.core.pc.at.ErrTake? && HandlingOk(h)
    requires r.core.pool != [] && Parsed(cfg, r.core, h).0
    ensures var gs := RunFrom(cfg, r, EventsOf(h)).past.generated;
            && |gs| == |r.past.generated| + 1 && IsErrorFrame(gs[|gs| - 1])
            && (IsFd(gs[|gs| - 1]) <==> IsFd(FrameAt(r.core.store, r.core.pool[0])))
            && (cfg.canfd ==>
                 (PacketLength(true, timestamps, gs[|gs| - 1]) >= CANFD_SIZE
                  <==> IsFd(FrameAt(r.core.store, r.core.pool[0]))))
  {
    var s := r.core;
    ReadingReported(cfg, r, h);
    var f := FrameAt(s.store, s.pool[0]).(timestamp := h.parse.a.now, channel := s.pc.ch);
    MCan.FrameSays(s.errOld[s.pc.ch], s.pc.err, h.parse.a.ecr, f);
    hide WellFormed, MCan.Parse, ErrorFrames.CodeIn;
  }
}
