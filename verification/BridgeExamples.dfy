/** A run of the bridge, step by step: a host sends one FD frame, the frame is echoed and collected, and
    the next thing to report is an error.
  */
module BridgeExamples {
  import opened GsUsb
  import opened Wrappers
  import opened Bridge
  import opened BridgeRuns
  import opened BridgeReports
  import MCan

  /** One channel, two buffers, CAN-FD. */
  const SMALL := Config(2, 1, true, MCan.DRIVER)

  /** Nothing received; the controller reports `esr`. */
  function Quiet(esr: bv32): Event {
    Loop(Answer(true, false, None, esr, 0, 0))
  }

  /** Something received. */
  const PENDING := Loop(Answer(true, true, None, 0, 0, 0))

  lemma Loops(r: Run, e: Event)
    requires WellFormed(SMALL, r.core) && Section(e)
    ensures WellFormed(SMALL, Advance(SMALL, r, e).core)
    ensures Advance(SMALL, r, e).core == LoopStep(SMALL, r.core, e.a)
  {
    AdvanceKeepsWellFormed(SMALL, r, e);
  }

  lemma LoopsThrice(r: Run, e: Event, f: Event, g: Event)
    requires WellFormed(SMALL, r.core) && Section(e) && Section(f) && Section(g)
    ensures var s := LoopStep(SMALL, r.core, e.a);
            && WellFormed(SMALL, s)
            && WellFormed(SMALL, LoopStep(SMALL, s, f.a))
            && RunFrom(SMALL, r, [e, f, g]).core == LoopStep(SMALL, LoopStep(SMALL, s, f.a), g.a)
  {
    hide WellFormed, LoopStep;
    Loops(r, e);
    Loops(Advance(SMALL, r, e), f);
    Loops(Advance(SMALL, Advance(SMALL, r, e), f), g);
    RunsOn(r, e, [f, g]);
    RunsOn(Advance(SMALL, r, e), f, [g]);
    RunsOn(Advance(SMALL, Advance(SMALL, r, e), f), g, []);
    assert [e] + [f, g] == [e, f, g] && [f] + [g] == [f, g] && [g] + [] == [g];
  }

  lemma RunsOn(r: Run, e: Event, es: seq<Event>)
    requires WellFormed(SMALL, r.core)
    ensures WellFormed(SMALL, Advance(SMALL, r, e).core)
    ensures RunFrom(SMALL, r, [e] + es) == RunFrom(SMALL, Advance(SMALL, r, e), es)
  {
    AdvanceKeepsWellFormed(SMALL, r, e);
    hide WellFormed, Advance;
    assert ([e] + es)[1..] == es;
  }

  /** The first buffer is armed to receive into. */
  lemma Arms(r: Run, store: seq<HostFrame>)
    requires WellFormed(SMALL, r.core)
    requires r.core == Core(store, [0, 1], [[]], [], None, None, false, false, false, false, [0], At(SendTake, 0))
    ensures RunFrom(SMALL, r, [Quiet(0), Quiet(0), Quiet(0)]).core
         == Core(store, [1], [[]], [], Some(0), None, true, false, false, false, [0], At(InTake, 0))
  {
    LoopsThrice(r, Quiet(0), Quiet(0), Quiet(0));
    hide WellFormed;
  }

  /** The device is configured, and a frame comes in. */
  lemma Accepted(r: Run, store: seq<HostFrame>, f: HostFrame)
    requires WellFormed(SMALL, r.core) && |store| == 2 && f.channel == 0
    requires r.core == Core(store, [1], [[]], [], Some(0), None, true, false, false, false, [0], At(InTake, 0))
    ensures RunFrom(SMALL, r, [Configure, DataOut(f, CANFD_SIZE)]).core
         == Core([f, store[1]], [], [[0]], [], Some(1), None, true, false, false, true, [0], At(InTake, 0))
  {
    RunsOn(r, Configure, [DataOut(f, CANFD_SIZE)]);
    var q := Advance(SMALL, r, Configure);
    RunsOn(q, DataOut(f, CANFD_SIZE), []);
    assert [Configure] + [DataOut(f, CANFD_SIZE)] == [Configure, DataOut(f, CANFD_SIZE)];
    assert [DataOut(f, CANFD_SIZE)] + [] == [DataOut(f, CANFD_SIZE)];
    hide WellFormed;
    var t := Advance(SMALL, q, DataOut(f, CANFD_SIZE)).core;
    assert t.store == [f, store[1]] && t.fromHost[0] == [0] && t.fromHost == [[0]];
  }

  /** The pass ends without anything to receive or report. */
  lemma PassEnds(r: Run, store: seq<HostFrame>)
    requires WellFormed(SMALL, r.core)
    requires r.core == Core(store, [], [[0]], [], Some(1), None, true, false, false, true, [0], At(InTake, 0))
    ensures RunFrom(SMALL, r, [Quiet(0), Quiet(0), PENDING]).core
         == Core(store, [], [[0]], [], Some(1), None, true, false, false, true, [0], At(SendTake, 0))
  {
    LoopsThrice(r, Quiet(0), Quiet(0), PENDING);
    hide WellFormed;
  }

  /** The frame is sent and queued as its echo. */
  lemma Echoed(r: Run, store: seq<HostFrame>)
    requires WellFormed(SMALL, r.core) && |store| == 2
    requires r.core == Core(store, [], [[0]], [], Some(1), None, true, false, false, true, [0], At(SendTake, 0))
    ensures RunFrom(SMALL, r, [Quiet(0), Quiet(0), Quiet(0)]).core
         == Core([store[0].(reserved := 0, timestamp := 0), store[1]], [], [[]], [0], Some(1), None,
                 true, false, false, true, [0], At(OutTake, 0))
  {
    LoopsThrice(r, Quiet(0), Quiet(0), Quiet(0));
    hide WellFormed;
    var t := RunFrom(SMALL, r, [Quiet(0), Quiet(0), Quiet(0)]).core;
    assert t.store == [store[0].(reserved := 0, timestamp := 0), store[1]] && t.fromHost[0] == [] && t.fromHost == [[]];
  }

  /** The echo is transmitted. */
  lemma Transmitted(r: Run, store: seq<HostFrame>)
    requires WellFormed(SMALL, r.core)
    requires r.core == Core(store, [], [[]], [0], Some(1), None, true, false, false, true, [0], At(OutTake, 0))
    ensures RunFrom(SMALL, r, [Quiet(0), Quiet(0), Quiet(0)]).core
         == Core(store, [], [[]], [], Some(1), Some(0), true, true, false, true, [0], At(RxCheck, 0))
  {
    LoopsThrice(r, Quiet(0), Quiet(0), Quiet(0));
    hide WellFormed;
  }

  /** It is collected, and the controller turns out to be error passive. */
  lemma Collected(r: Run, store: seq<HostFrame>)
    requires WellFormed(SMALL, r.core)
    requires r.core == Core(store, [], [[]], [], Some(1), Some(0), true, true, false, true, [0], At(RxCheck, 0))
    ensures RunFrom(SMALL, r, [DataIn, Quiet(0), Quiet(0x20)]).core
         == Core(store, [0], [[]], [], Some(1), None, true, false, false, true, [0], Pc(ErrTake, 0, None, 0x20))
  {
    RunsOn(r, DataIn, [Quiet(0), Quiet(0x20)]);
    var q := Advance(SMALL, r, DataIn);
    RunsOn(q, Quiet(0), [Quiet(0x20)]);
    var t := Advance(SMALL, q, Quiet(0));
    Loops(q, Quiet(0));
    RunsOn(t, Quiet(0x20), []);
    Loops(t, Quiet(0x20));
    assert [DataIn] + [Quiet(0), Quiet(0x20)] == [DataIn, Quiet(0), Quiet(0x20)];
    assert [Quiet(0)] + [Quiet(0x20)] == [Quiet(0), Quiet(0x20)] && [Quiet(0x20)] + [] == [Quiet(0x20)];
    hide WellFormed;
  }

  function Boot(): seq<Event> {
    [Quiet(0), Quiet(0), Quiet(0)]
  }

  /** All of it. */
  function OneFrame(f: HostFrame): seq<Event> {
    (Boot() + [Configure, DataOut(f, CANFD_SIZE)])
      + ([Quiet(0), Quiet(0), PENDING] + (Boot() + (Boot() + [DataIn, Quiet(0), Quiet(0x20)])))
  }

  lemma OneFrameState(store: seq<HostFrame>, f: HostFrame)
    requires |store| == 2 && f.channel == 0
    ensures RunOf(SMALL, store, OneFrame(f)).core
         == Core([f.(reserved := 0, timestamp := 0), store[1]], [0], [[]], [], Some(1), None,
                 true, false, false, true, [0], Pc(ErrTake, 0, None, 0x20))
  {
    var r0, g := Start(SMALL, store), f.(reserved := 0, timestamp := 0);
    hide WellFormed;
    assert r0.core == Core(store, [0, 1], [[]], [], None, None, false, false, false, false, [0], At(SendTake, 0));
    Arms(r0, store);
    var r1 := RunFrom(SMALL, r0, Boot());
    Accepted(r1, store, f);
    var r2 := RunFrom(SMALL, r1, [Configure, DataOut(f, CANFD_SIZE)]);
    PassEnds(r2, [f, store[1]]);
    var r3 := RunFrom(SMALL, r2, [Quiet(0), Quiet(0), PENDING]);
    Echoed(r3, [f, store[1]]);
    var r4 := RunFrom(SMALL, r3, Boot());
    Transmitted(r4, [g, store[1]]);
    var r5 := RunFrom(SMALL, r4, Boot());
    Collected(r5, [g, store[1]]);
    hide RunFrom;
    var last := [DataIn, Quiet(0), Quiet(0x20)];
    RunJoin(SMALL, r4, Boot(), last);
    RunJoin(SMALL, r3, Boot(), Boot() + last);
    RunJoin(SMALL, r2, [Quiet(0), Quiet(0), PENDING], Boot() + (Boot() + last));
    RunJoin(SMALL, r0, Boot(), [Configure, DataOut(f, CANFD_SIZE)]);
    var first := Boot() + [Configure, DataOut(f, CANFD_SIZE)];
    RunJoin(SMALL, r0, first, [Quiet(0), Quiet(0), PENDING] + (Boot() + (Boot() + last)));
  }

  /** After one FD frame from the host, the error frame that tells of the passive state is an FD frame. */
  lemma ErrorFrameSentAsFd(store: seq<HostFrame>, f: HostFrame, h: Handling, timestamps: bool)
    requires |store| == 2 && f.channel == 0 && IsFd(f) && HandlingOk(h)
    ensures var gs := RunOf(SMALL, store, OneFrame(f) + EventsOf(h)).past.generated;
            && |gs| > 0 && IsErrorFrame(gs[|gs| - 1]) && IsFd(gs[|gs| - 1])
            && PacketLength(SMALL.canfd, timestamps, gs[|gs| - 1]) >= CANFD_SIZE
  {
    OneFrameState(store, f);
    var r := RunOf(SMALL, store, OneFrame(f));
    assert MCan.ReportOf(0, 0x20, h.parse.a.ecr).passive;
    hide WellFormed, RunFrom, EventsOf;
    ErrorFrameIsFdIff(SMALL, r, h, timestamps);
    RunJoin(SMALL, Start(SMALL, store), OneFrame(f), EventsOf(h));
  }
}
