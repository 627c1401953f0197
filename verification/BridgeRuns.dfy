/** The laws of one step, summed over every run: every sequence of events from the initial state.
    An event that the hardware or the host cannot cause in a state is skipped.
  */
module BridgeRuns {
  import opened GsUsb
  import opened Wrappers
  import opened Bridge
  import opened BridgeSafety
  import opened BridgeStreams
  import opened BridgeChannels
  import opened BridgeErrors

  /** What happened so far, in order. */
  datatype History = History(
    accepted: seq<HostFrame>,    // taken from the host by DataOut
    bus: seq<HostFrame>,         // taken by can_send
    read: seq<Reception>,        // read from the CAN controllers
    generated: seq<HostFrame>,   // appended to list_to_host
    left: seq<Outcome>)          // left to_host_buf, delivered to the host or dropped

  datatype Run = Run(core: Core, past: History)

  function Advance(cfg: Config, r: Run, e: Event): Run
    requires WellFormed(cfg, r.core)
  {
    if !Enabled(cfg, r.core, e) then r
    else
      var s, h := r.core, r.past;
      Run(Step(cfg, s, e), History(h.accepted + AcceptedBy(cfg, e), h.bus + SentBy(s, e), h.read + ReadBy(s, e),
                                   h.generated + GeneratedBy(s, e), h.left + LeftBy(s, e)))
  }

  lemma AdvanceKeepsWellFormed(cfg: Config, r: Run, e: Event)
    requires WellFormed(cfg, r.core)
    ensures WellFormed(cfg, Advance(cfg, r, e).core)
  {
    if Enabled(cfg, r.core, e) {
      StepKeepsWellFormed(cfg, r.core, e);
    }
  }

  function RunFrom(cfg: Config, r: Run, es: seq<Event>): (q: Run)
    requires WellFormed(cfg, r.core)
    ensures WellFormed(cfg, q.core)
    decreases es
  {
    if es == [] then r
    else
      AdvanceKeepsWellFormed(cfg, r, es[0]);
      RunFrom(cfg, Advance(cfg, r, es[0]), es[1..])
  }

  lemma {:induction false} RunJoin(cfg: Config, r: Run, es: seq<Event>, fs: seq<Event>)
    requires WellFormed(cfg, r.core)
    ensures RunFrom(cfg, r, es + fs) == RunFrom(cfg, RunFrom(cfg, r, es), fs)
    decreases es
  {
    if es == [] {
      assert es + fs == fs;
    } else {
      AdvanceKeepsWellFormed(cfg, r, es[0]);
      RunJoin(cfg, Advance(cfg, r, es[0]), es[1..], fs);
      assert (es + fs)[1..] == es[1..] + fs;
    }
  }

  function Start(cfg: Config, store: seq<HostFrame>): (r: Run)
    requires |store| == cfg.buffers
    ensures WellFormed(cfg, r.core)
  {
    InitWellFormed(cfg, store);
    Run(Init(cfg, store), History([], [], [], [], []))
  }

  function RunOf(cfg: Config, store: seq<HostFrame>, es: seq<Event>): (r: Run)
    requires |store| == cfg.buffers
    ensures WellFormed(cfg, r.core)
  {
    RunFrom(cfg, Start(cfg, store), es)
  }

  // ---------- transfers ----------

  /** The callbacks never meet a missing buffer, and nothing is armed twice. */
  lemma TransferDiscipline(cfg: Config, store: seq<HostFrame>, es: seq<Event>, e: Event)
    requires |store| == cfg.buffers
    ensures var s := RunOf(cfg, store, es).core;
            && TransfersOk(s)
            && (Enabled(cfg, s, DataIn) ==> s.toHostBuf.Some?)
            && (e.DataOut? && Enabled(cfg, s, e) ==> s.fromHostBuf.Some?)
            && (s.pc.at.OutArm? ==> !s.outArmed && s.fromHostBuf.Some?)
            && (s.pc.at.InTransmit? ==> !s.inFlight && s.toHostBuf.Some?)
  {}

  // ---------- the invariant of a run ----------

  predicate Polite(r: Run) {
    forall f :: f in r.past.accepted ==> f.echoId != NOT_ECHO
  }

  ghost predicate FifoHolds(r: Run) {
    Frames(r.past.left) + Outgoing(r.core) == r.past.generated
  }

  /** In channel `ch`: accepted == passed on ++ still waiting. */
  ghost predicate ChannelHolds(r: Run, ch: nat, sent: bool)
    requires ch < |r.core.fromHost|
  {
    Pick(ch, sent, r.past.accepted)
    == Pick(ch, sent, if sent then r.past.bus else r.past.generated) + Pick(ch, sent, Waiting(r.core, ch, sent))
  }

  ghost predicate AgreementHolds(cfg: Config, r: Run, ch: nat)
    requires ch < |r.core.errOld|
  {
    Polite(r) ==> Agrees(cfg, r.core, ch, Believes(ch, true, r.past.generated))
  }

  ghost predicate Holds(cfg: Config, r: Run)
    requires WellFormed(cfg, r.core)
  {
    && Tagged(r.core, false)
    && (Polite(r) ==> Tagged(r.core, true))
    && FifoHolds(r)
    && (forall ch, sent :: 0 <= ch < cfg.channels ==> ChannelHolds(r, ch, sent))
    && (forall ch :: 0 <= ch < cfg.channels ==> AgreementHolds(cfg, r, ch))
  }

  lemma {:induction false} FramesJoin(os: seq<Outcome>, qs: seq<Outcome>)
    ensures Frames(os + qs) == Frames(os) + Frames(qs)
  {
    if os == [] {
      assert os + qs == qs;
    } else {
      FramesJoin(os[1..], qs);
      assert (os + qs)[1..] == os[1..] + qs && (os + qs)[0] == os[0];
      Associative([os[0].frame], Frames(os[1..]), Frames(qs));
    }
  }

  lemma FifoStep(cfg: Config, r: Run, e: Event)
    requires WellFormed(cfg, r.core) && Enabled(cfg, r.core, e) && FifoHolds(r)
    ensures FifoHolds(Advance(cfg, r, e))
  {
    OutgoingLaw(cfg, r.core, e);
    FramesJoin(r.past.left, LeftBy(r.core, e));
    Associative(Frames(r.past.left), Frames(LeftBy(r.core, e)), Outgoing(Step(cfg, r.core, e)));
    Associative(Frames(r.past.left), Outgoing(r.core), GeneratedBy(r.core, e));
  }

  lemma ChannelStep(cfg: Config, r: Run, e: Event, ch: nat, sent: bool)
    requires DriverOk(cfg.driver) && WellFormed(cfg, r.core) && Enabled(cfg, r.core, e)
    requires ch < cfg.channels && Tagged(r.core, false) && ChannelHolds(r, ch, sent)
    requires |Step(cfg, r.core, e).fromHost| == cfg.channels
    ensures ChannelHolds(Advance(cfg, r, e), ch, sent)
  {
    var s, t, h := r.core, Step(cfg, r.core, e), r.past;
    ChannelLaw(cfg, s, e, ch, sent);
    var past := if sent then h.bus else h.generated;
    PickJoin(ch, sent, h.accepted, AcceptedBy(cfg, e));
    PickJoin(ch, sent, past, Passed(s, e, sent));
    Associative(Pick(ch, sent, past), Pick(ch, sent, Waiting(s, ch, sent)), Pick(ch, sent, AcceptedBy(cfg, e)));
    Associative(Pick(ch, sent, past), Pick(ch, sent, Passed(s, e, sent)), Pick(ch, sent, Waiting(t, ch, sent)));
  }

  lemma AgreementStep(cfg: Config, r: Run, e: Event, ch: nat)
    requires DriverOk(cfg.driver) && WellFormed(cfg, r.core) && Enabled(cfg, r.core, e)
    requires ch < cfg.channels && (Polite(r) ==> Tagged(r.core, true)) && AgreementHolds(cfg, r, ch)
    requires |Step(cfg, r.core, e).errOld| == cfg.channels
    ensures AgreementHolds(cfg, Advance(cfg, r, e), ch)
  {
    if Polite(Advance(cfg, r, e)) {
      assert Polite(r);
      BelievesJoin(ch, true, r.past.generated, GeneratedBy(r.core, e));
      AgreementLaw(cfg, r.core, e, ch, Believes(ch, true, r.past.generated));
    }
  }

  lemma TagsStep(cfg: Config, r: Run, e: Event)
    requires DriverOk(cfg.driver) && WellFormed(cfg, r.core) && Enabled(cfg, r.core, e)
    requires Tagged(r.core, false) && (Polite(r) ==> Tagged(r.core, true))
    ensures Tagged(Step(cfg, r.core, e), false)
    ensures Polite(Advance(cfg, r, e)) ==> Tagged(Step(cfg, r.core, e), true)
  {
    StepKeepsTags(cfg, r.core, e, false);
    if Polite(Advance(cfg, r, e)) {
      assert Polite(r);
      assert forall f :: f in AcceptedBy(cfg, e) ==> f in Advance(cfg, r, e).past.accepted;
      assert e.DataOut? && Accepts(cfg, e.frame, e.rxlen) ==> e.frame in AcceptedBy(cfg, e);
      StepKeepsTags(cfg, r.core, e, true);
    }
  }

  lemma AdvanceHolds(cfg: Config, r: Run, e: Event)
    requires DriverOk(cfg.driver) && WellFormed(cfg, r.core) && Holds(cfg, r)
    requires WellFormed(cfg, Advance(cfg, r, e).core)
    ensures Holds(cfg, Advance(cfg, r, e))
  {
    if Enabled(cfg, r.core, e) {
      TagsStep(cfg, r, e);
      FifoStep(cfg, r, e);
      forall ch, sent | 0 <= ch < cfg.channels
        ensures ChannelHolds(Advance(cfg, r, e), ch, sent)
      {
        ChannelStep(cfg, r, e, ch, sent);
      }
      forall ch | 0 <= ch < cfg.channels
        ensures AgreementHolds(cfg, Advance(cfg, r, e), ch)
      {
        AgreementStep(cfg, r, e, ch);
      }
    }
  }

  lemma {:induction false} RunHolds(cfg: Config, r: Run, es: seq<Event>)
    requires DriverOk(cfg.driver) && WellFormed(cfg, r.core) && Holds(cfg, r)
    ensures Holds(cfg, RunFrom(cfg, r, es))
    decreases es
  {
    if es != [] {
      AdvanceKeepsWellFormed(cfg, r, es[0]);
      AdvanceHolds(cfg, r, es[0]);
      RunHolds(cfg, Advance(cfg, r, es[0]), es[1..]);
    }
  }

  lemma StartHolds(cfg: Config, store: seq<HostFrame>)
    requires DriverOk(cfg.driver) && |store| == cfg.buffers
    ensures Holds(cfg, Start(cfg, store))
  {
    var r := Start(cfg, store);
    assert forall ch :: 0 <= ch < cfg.channels ==> r.core.fromHost[ch] == [];
  }
}
