/** LED sequences and blinking (`src/led.c`). */
module Led {
  import opened Wrappers
  import opened Ticks

  /** `led_seq_step_t` */
  datatype SeqStep = SeqStep(state: bv8, timeIn10ms: nat)

  /** How long a step is shown, in milliseconds. */
  function DeltaOf(s: SeqStep): nat {
    if 10 * s.timeIn10ms > 0x7FFF_FFFF then 0x7FFF_FFFF else 10 * s.timeIn10ms
  }

  datatype Mode = ModeOff | ModeNormal | ModeWarn | ModeError | ModeSequence

  const LED_UPDATE_INTERVAL: nat := 10

  // ---------- playing a sequence ----------

  type Sequence = seq<SeqStep>

  /** The steps after the first are looked at until one takes no time. */
  predicate EndsAt(s: Sequence, t: nat) {
    0 < t < |s| && s[t].timeIn10ms == 0 && forall i :: 0 < i < t ==> s[i].timeIn10ms > 0
  }

  ghost predicate Terminated(s: Sequence) {
    exists t: nat :: EndsAt(s, t)
  }

  /** `sequence_step`, `seq_num_repeat`, and whether `sequence` is still set. */
  datatype Player = Player(step: nat, left: int, playing: bool)

  /** What an update of the sequence does to the player when the current step is over; nothing comes
      out when it reads past the sequence. */
  function Due(s: Sequence, p: Player): Option<Player> {
    if !p.playing then Some(p)
    else if p.step + 1 >= |s| then None
    else if s[p.step + 1].timeIn10ms > 0 then Some(p.(step := p.step + 1))
    else if p.left != 0 then Some(Player(0, if p.left > 0 then p.left - 1 else p.left, true))
    else Some(Player(p.step + 1, 0, false))
  }

  /** The player after `k` such updates. */
  function After(s: Sequence, repeat: int, k: nat): Option<Player> {
    if k == 0 then Some(Player(0, repeat, true))
    else if After(s, repeat, k - 1).None? then None
    else Due(s, After(s, repeat, k - 1).value)
  }

  /** The first `k` updates read no step past the sequence. */
  predicate StaysInside(s: Sequence, repeat: int, k: nat) {
    After(s, repeat, k).Some?
  }

  /** The step shown and the rounds completed after `k` updates of a sequence of `t` steps. */
  lemma RoundStep(k: nat, t: nat)
    requires t > 0
    ensures (k + 1) % t == if k % t + 1 == t then 0 else k % t + 1
    ensures (k + 1) / t == if k % t + 1 == t then k / t + 1 else k / t
  {
    var q, r := k / t, k % t;
    assert k == t * q + r;
    if r + 1 == t {
      DivModIs(k + 1, t, q + 1, 0);
    } else {
      DivModIs(k + 1, t, q, r + 1);
    }
  }

  lemma DivModIs(x: nat, t: nat, q: nat, r: nat)
    requires t > 0 && r < t && x == t * q + r
    ensures x / t == q && x % t == r
  {
    var d := x / t - q;
    assert x == t * (x / t) + x % t;
    assert t * d == r - x % t;
    assert d >= 1 ==> t * d >= t;
    assert d <= -1 ==> t * d <= -1 * t;
  }

  lemma RoundsGrow(k: nat, t: nat, n: nat)
    requires t > 0
    ensures k < (n + 1) * t <==> k / t <= n
  {
    assert k == t * (k / t) + k % t;
    if k / t <= n {
      assert t * (k / t) <= t * n;
    } else {
      assert t * (k / t) >= t * (n + 1);
    }
  }

  /** A sequence that ends at step `t` is played round by round, each step in turn. With a count of
      `n` it is played `n + 1` times and then stops for good; with a negative count it never stops. */
  lemma {:induction false} Playback(s: Sequence, t: nat, repeat: int, k: nat)
    requires EndsAt(s, t)
    ensures After(s, repeat, k) == Some(
              if repeat < 0 then Player(k % t, repeat, true)
              else if k < (repeat + 1) * t then Player(k % t, repeat - k / t, true)
              else Player(t, 0, false))
  {
    if repeat >= 0 { RoundsGrow(k, t, repeat); }
    if k > 0 {
      Playback(s, t, repeat, k - 1);
      RoundStep(k - 1, t);
      if repeat >= 0 { RoundsGrow(k - 1, t, repeat); }
    } else {
      DivModIs(0, t, 0, 0);
    }
  }

  lemma {:induction false} RunsOff(s: Sequence, repeat: int, k: nat)
    requires k < |s| && forall i :: 0 < i < |s| ==> s[i].timeIn10ms > 0
    ensures After(s, repeat, k) == Some(Player(k, repeat, true))
  {
    if k > 0 { RunsOff(s, repeat, k - 1); }
  }

  lemma FirstEnd(s: Sequence, i: nat) returns (t: nat)
    requires 0 < i < |s| && s[i].timeIn10ms == 0
    ensures EndsAt(s, t) && t <= i
  {
    t := 1;
    while s[t].timeIn10ms > 0
      invariant 0 < t <= i
      invariant forall j :: 0 < j < t ==> s[j].timeIn10ms > 0
      decreases i - t
    {
      t := t + 1;
    }
  }

  /** Every read stays inside the sequence exactly when a step after the first takes no time. */
  lemma ReadsStayInsideIff(s: Sequence, repeat: int)
    requires s != []
    ensures (forall k: nat :: StaysInside(s, repeat, k)) <==> Terminated(s)
  {
    if i :| 0 < i < |s| && s[i].timeIn10ms == 0 {
      var t := FirstEnd(s, i);
      forall k: nat
        ensures StaysInside(s, repeat, k)
      {
        Playback(s, t, repeat, k);
      }
    } else {
      RunsOff(s, repeat, |s| - 1);
      var k: nat := |s|;
      assert !StaysInside(s, repeat, k);
      assert !Terminated(s);
    }
  }

  /** A step that is shown from `from` on is over at an update after ten milliseconds for each unit of its
      byte, and not before; that is so for the next 24 days. */
  lemma StepLasts(s: SeqStep, from: int, now: int)
    requires s.timeIn10ms < 256 && from <= now < from + TWO_31
    ensures IsPassed(TickOf(now), TickOf(TickOf(from) + DeltaOf(s))) <==> now >= from + 10 * s.timeIn10ms
  {
    TickPlus(from, DeltaOf(s));
    PassedAgreesIff(now, from + 10 * s.timeIn10ms);
  }

  // ---------- blinking ----------

  /** `led_state_t`, and whether the LED is lit. */
  datatype Blinker = Blinker(request: bool, onUntil: Tick, offUntil: Tick, lit: bool)

  predicate MayStart(b: Blinker, now: Tick) {
    IsPassed(now, b.onUntil) && IsPassed(now, b.offUntil)
  }

  /** `led_trx_blinker` */
  function Blink(b: Blinker, now: Tick): Blinker {
    if MayStart(b, now) then b.(offUntil := TickOf(now + 30), onUntil := TickOf(now + 45)) else b
  }

  /** `led_update_normal_mode` */
  function Normal(b: Blinker, now: Tick): Blinker {
    var c := if b.request then Blink(b.(request := false), now) else b;
    c.(lit := IsPassed(now, c.offUntil))
  }

  /** One accepted update: at which time, and whether there was traffic since the last one. */
  datatype Poll = Poll(time: int, traffic: bool)

  function PollStep(b: Blinker, p: Poll): Blinker {
    Normal(b.(request := b.request || p.traffic), TickOf(p.time))
  }

  predicate StartsAt(b: Blinker, p: Poll) {
    (b.request || p.traffic) && MayStart(b, TickOf(p.time))
  }

  /** The last blink started at time `s`. */
  predicate Started(b: Blinker, s: int) {
    b.onUntil == TickOf(s + 45) && b.offUntil == TickOf(s + 30)
  }

  lemma TickPlus(t: int, n: int)
    ensures TickOf(TickOf(t) + n) == TickOf(t + n)
  {
    var q := t / TWO_32;
    assert t + n == TickOf(t) + n + TWO_32 * q;
    ModMultiple(TickOf(t) + n, q);
  }

  /** Whatever traffic there is, no blink starts less than 45 ticks after the last one; for the first
      30 of them the LED is dark, then lit. */
  lemma BlinkRule(b: Blinker, s: int, p: Poll)
    requires Started(b, s) && p.time >= s
    ensures StartsAt(b, p) ==> p.time >= s + 45 && Started(PollStep(b, p), p.time) && !PollStep(b, p).lit
    ensures !StartsAt(b, p) ==>
              && Started(PollStep(b, p), s)
              && (PollStep(b, p).lit <==> IsPassed(TickOf(p.time), TickOf(s + 30)))
    ensures p.time < s + 30 ==> !PollStep(b, p).lit
    ensures s + 30 <= p.time < s + 45 ==> PollStep(b, p).lit
  {
    TickPlus(p.time, 30);
    TickPlus(p.time, 45);
    PassedAgreesIff(p.time, s + 30);
    PassedAgreesIff(p.time, s + 45);
    PassedAgreesIff(p.time, p.time + 30);
  }

  predicate InOrder(s: int, ps: seq<Poll>)
    decreases ps
  {
    ps == [] || (ps[0].time >= s && InOrder(ps[0].time, ps[1..]))
  }

  function PollAll(b: Blinker, ps: seq<Poll>): Blinker
    decreases ps
  {
    if ps == [] then b else PollAll(PollStep(b, ps[0]), ps[1..])
  }

  /** The times blinks start at. */
  function Starts(b: Blinker, ps: seq<Poll>): seq<int>
    decreases ps
  {
    if ps == [] then []
    else (if StartsAt(b, ps[0]) then [ps[0].time] else []) + Starts(PollStep(b, ps[0]), ps[1..])
  }

  function LastStart(s: int, ts: seq<int>): int {
    if ts == [] then s else ts[|ts| - 1]
  }

  predicate SpacedBy45(s: int, ts: seq<int>) {
    forall i :: 0 <= i < |ts| ==> ts[i] >= (if i == 0 then s else ts[i - 1]) + 45
  }

  lemma SpacedCons(s: int, t: int, ts: seq<int>)
    requires t >= s + 45 && SpacedBy45(t, ts)
    ensures SpacedBy45(s, [t] + ts) && LastStart(s, [t] + ts) == LastStart(t, ts)
  {
    var us := [t] + ts;
    forall i | 0 <= i < |us|
      ensures us[i] >= (if i == 0 then s else us[i - 1]) + 45
    {
      if i > 0 {
        assert ts[i - 1] >= (if i - 1 == 0 then t else ts[i - 2]) + 45;
      }
    }
  }

  /** Over any run of updates after a blink, however long and with whatever traffic, blinks start at
      least 45 ticks apart, and the state always tells the last start. */
  lemma {:induction false} BlinksApartSince(b: Blinker, s: int, from: int, ps: seq<Poll>)
    requires Started(b, s) && from >= s && InOrder(from, ps)
    ensures SpacedBy45(s, Starts(b, ps)) && Started(PollAll(b, ps), LastStart(s, Starts(b, ps)))
    decreases ps
  {
    if ps != [] {
      hide PollStep, StartsAt, Started;
      BlinkRule(b, s, ps[0]);
      var c, s1 := PollStep(b, ps[0]), if StartsAt(b, ps[0]) then ps[0].time else s;
      BlinksApartSince(c, s1, ps[0].time, ps[1..]);
      if StartsAt(b, ps[0]) {
        SpacedCons(s, ps[0].time, Starts(c, ps[1..]));
      } else {
        assert [] + Starts(c, ps[1..]) == Starts(c, ps[1..]);
      }
    }
  }

  /** The state `led_init` leaves, and every one up to the first blink. */
  predicate NeverStarted(b: Blinker) {
    b.onUntil == 0 && b.offUntil == 0
  }

  lemma FirstStart(b: Blinker, p: Poll)
    requires NeverStarted(b)
    ensures if StartsAt(b, p) then Started(PollStep(b, p), p.time) else NeverStarted(PollStep(b, p))
  {
    TickPlus(p.time, 30);
    TickPlus(p.time, 45);
  }

  /** From boot, over any run of updates, however long and with whatever traffic, any two blinks start at
      least 45 ticks apart. */
  lemma {:induction false} BlinksApart(b: Blinker, from: int, ps: seq<Poll>)
    requires NeverStarted(b) && InOrder(from, ps)
    ensures var ts := Starts(b, ps); forall i :: 1 <= i < |ts| ==> ts[i] >= ts[i - 1] + 45
    decreases ps
  {
    if ps != [] {
      FirstStart(b, ps[0]);
      hide PollStep, StartsAt, Started;
      var c := PollStep(b, ps[0]);
      if StartsAt(b, ps[0]) {
        BlinksApartSince(c, ps[0].time, ps[0].time, ps[1..]);
        SpacedCons(ps[0].time - 45, ps[0].time, Starts(c, ps[1..]));
      } else {
        BlinksApart(c, ps[0].time, ps[1..]);
        assert [] + Starts(c, ps[1..]) == Starts(c, ps[1..]);
      }
    }
  }

  /** How long after a blink traffic is still answered and the LED still shown as it should be: with
      `d` ticks since the last start, exactly when `d - 30` and `d - 45` are an even number of half
      ranges. So both are right for the first 2^31 + 30 ticks and then wrong. */
  lemma AnsweredIff(b: Blinker, s: int, p: Poll)
    requires Started(b, s) && p.time >= s + 45 && p.traffic
    ensures StartsAt(b, p) <==> Halves(p.time - s - 30) % 2 == 0 && Halves(p.time - s - 45) % 2 == 0
    ensures p.time < s + TWO_31 + 30 ==> StartsAt(b, p)
    ensures p.time == s + TWO_31 + 30 ==> !StartsAt(b, p) && !PollStep(b, p).lit
  {
    PassedAgreesIff(p.time, s + 30);
    PassedAgreesIff(p.time, s + 45);
    BlinkRule(b, s, p);
  }

  /** The updates with traffic since the one before. */
  function Busy(ps: seq<Poll>): nat {
    if ps == [] then 0 else (if ps[0].traffic then 1 else 0) + Busy(ps[1..])
  }

  /** A request is used up by the next update: without traffic there is no blink, and there are never more
      blinks than updates with traffic and the request there was at first. */
  lemma {:induction false} BlinksAreAsked(b: Blinker, ps: seq<Poll>)
    ensures |Starts(b, ps)| <= (if b.request then 1 else 0) + Busy(ps)
    ensures ps != [] ==> !PollAll(b, ps).request
    decreases ps
  {
    if ps != [] {
      var c := PollStep(b, ps[0]);
      assert !c.request;
      BlinksAreAsked(c, ps[1..]);
      if ps[1..] == [] { assert PollAll(b, ps) == c; }
      hide StartsAt, PollStep;
    }
  }

  /** The next update after one is at least ten milliseconds later, and not kept waiting longer. */
  lemma UpdatesApart(now: int, later: int)
    requires now <= later < now + TWO_31
    ensures IsPassed(TickOf(later), TickOf(TickOf(now) + LED_UPDATE_INTERVAL)) <==> later >= now + 10
  {
    TickPlus(now, LED_UPDATE_INTERVAL);
    PassedAgreesIff(later, now + 10);
  }

  // ---------- the LEDs ----------

  class LedState {
    const isActiveHigh: bool
    var pin: bool
    var blinkRequest: bool
    var onUntil: Tick
    var offUntil: Tick

    constructor (isActiveHigh: bool)
      ensures this.isActiveHigh == isActiveHigh && !blinkRequest && onUntil == 0 && offUntil == 0
    {
      this.isActiveHigh, pin, blinkRequest, onUntil, offUntil := isActiveHigh, false, false, 0, 0;
    }

    function Value(): Blinker
      reads this
    {
      Blinker(blinkRequest, onUntil, offUntil, pin == isActiveHigh)
    }

    /** `led_set` */
    method Set(state: bool)
      modifies this`pin
      ensures Value() == old(Value()).(lit := state)
    {
      pin := if !isActiveHigh then !state else state;
    }

    /** `led_trx_blinker` */
    method TrxBlinker(now: Tick)
      modifies this`onUntil, this`offUntil
      ensures Value() == Blink(old(Value()), now)
    {
      if IsPassed(now, onUntil) && IsPassed(now, offUntil) {
        offUntil := TickOf(now + 30);
        onUntil := TickOf(now + 45);
      }
    }

    /** `led_update_normal_mode` */
    method UpdateNormal(now: Tick)
      modifies this
      ensures Value() == Normal(old(Value()), now)
    {
      if blinkRequest {
        blinkRequest := false;
        TrxBlinker(now);
      }
      Set(IsPassed(now, offUntil));
    }
  }

  /** The `next_update` all channels share. */
  class UpdateClock {
    var nextUpdate: Tick

    constructor ()
      ensures nextUpdate == 0
    {
      nextUpdate := 0;
    }
  }

  class LedData {
    var mode: Mode
    var sequence: Option<Sequence>
    var sequenceStep: nat
    var tSequenceNext: Tick
    var seqNumRepeat: int
    const rx: LedState
    const tx: LedState

    constructor (rx: LedState, tx: LedState)
      ensures this.rx == rx && this.tx == tx && mode.ModeOff? && sequence.None?
    {
      this.rx, this.tx := rx, tx;
      mode, sequence, sequenceStep, tSequenceNext, seqNumRepeat := ModeOff, None, 0, 0, 0;
    }

    ghost function PlayerOf(): Player
      reads this
    {
      Player(sequenceStep, seqNumRepeat, sequence.Some?)
    }

    /** The sequence can be played on without reading past it. */
    ghost predicate CanPlay()
      reads this
    {
      sequence.Some? ==>
        exists t: nat :: EndsAt(sequence.value, t) && sequenceStep < t
    }

    /** No mode that `led_update` asserts against. */
    predicate ModeOk()
      reads this
    {
      mode.ModeOff? || mode.ModeNormal? || mode.ModeSequence?
    }

    ghost predicate Valid()
      reads this
    {
      rx != tx && CanPlay() && ModeOk()
    }

    /** `led_set_sequence_step` at `tick` */
    method SetSequenceStep(stepNum: nat, tick: Tick) returns (delta: nat)
      requires rx != tx && sequence.Some? && stepNum < |sequence.value|
      modifies this`sequenceStep, this`tSequenceNext, rx`pin, tx`pin
      ensures sequenceStep == stepNum && delta == DeltaOf(sequence.value[stepNum])
      ensures tSequenceNext == TickOf(tick + delta)
      ensures rx.Value().lit == (sequence.value[stepNum].state & 1 != 0)
        && tx.Value().lit == (sequence.value[stepNum].state & 2 != 0)
    {
      var step := sequence.value[stepNum];
      sequenceStep := stepNum;
      rx.Set(step.state & 1 != 0);
      tx.Set(step.state & 2 != 0);
      delta := 10 * step.timeIn10ms;
      if delta > 0x7FFF_FFFF {
        delta := 0x7FFF_FFFF;
      }
      tSequenceNext := TickOf(tick + delta);
    }

    /** `led_update_sequence`, which reads the tick counter up to three times. */
    method UpdateSequence(now: Tick, tick1: Tick, tick2: Tick)
      requires Valid()
      modifies this`sequence, this`sequenceStep, this`tSequenceNext, this`seqNumRepeat, rx`pin, tx`pin
      ensures Valid() && (sequence == old(sequence) || sequence.None?)
      ensures if old(sequence.None? || !IsPassed(now, tSequenceNext)) then
                PlayerOf() == old(PlayerOf()) && tSequenceNext == old(tSequenceNext)
              else Due(old(sequence.value), old(PlayerOf())) == Some(PlayerOf())
      ensures old(sequence.Some? && IsPassed(now, tSequenceNext)) && sequence.Some? ==>
                tSequenceNext ==
                  TickOf((if sequenceStep == 0 then tick2 else now) + DeltaOf(sequence.value[sequenceStep]))
    {
      if sequence == None {
        return;
      }
      if IsPassed(now, tSequenceNext) {
        ghost var s := sequence.value;
        ghost var t: nat :| EndsAt(s, t) && sequenceStep < t;
        sequenceStep := sequenceStep + 1;
        var delta := SetSequenceStep(sequenceStep, tick1);
        if delta > 0 {
          tSequenceNext := TickOf(now + delta);
          assert EndsAt(s, t) && sequenceStep < t;
        } else {
          if seqNumRepeat != 0 {
            if seqNumRepeat > 0 {
              seqNumRepeat := seqNumRepeat - 1;
            }
            var first := SetSequenceStep(0, tick2);
            assert EndsAt(s, t) && sequenceStep < t;
          } else {
            sequence := None;
          }
        }
      }
    }

    /** `led_update` */
    method Update(clock: UpdateClock, now: Tick, tick1: Tick, tick2: Tick)
      requires Valid()
      modifies this`sequence, this`sequenceStep, this`tSequenceNext, this`seqNumRepeat, rx, tx, clock
      ensures Valid()
      ensures if !old(IsPassed(now, clock.nextUpdate)) then
                PlayerOf() == old(PlayerOf()) && rx.Value() == old(rx.Value()) && tx.Value() == old(tx.Value())
              else
                && clock.nextUpdate == TickOf(now + LED_UPDATE_INTERVAL)
                && (mode.ModeOff? ==> !rx.Value().lit && !tx.Value().lit)
                && (mode.ModeNormal? ==>
                     rx.Value() == Normal(old(rx.Value()), now) && tx.Value() == Normal(old(tx.Value()), now))
                && (!mode.ModeSequence? ==> PlayerOf() == old(PlayerOf()) && sequence == old(sequence))
                && (mode.ModeSequence? && old(sequence.Some? && IsPassed(now, tSequenceNext)) ==>
                      Due(old(sequence.value), old(PlayerOf())) == Some(PlayerOf()))
                && (mode.ModeSequence? && !old(sequence.Some? && IsPassed(now, tSequenceNext)) ==>
                     PlayerOf() == old(PlayerOf()))
      ensures sequence == old(sequence) || sequence.None?
    {
      if !IsPassed(now, clock.nextUpdate) {
        return;
      }
      clock.nextUpdate := TickOf(now + LED_UPDATE_INTERVAL);
      match mode
      case ModeOff =>
        rx.Set(false);
        tx.Set(false);
      case ModeNormal =>
        rx.UpdateNormal(now);
        tx.UpdateNormal(now);
      case ModeSequence =>
        UpdateSequence(now, tick1, tick2);
      case ModeWarn => assert false;
      case ModeError => assert false;
    }

    /** `led_set_mode` */
    method SetMode(m: Mode, clock: UpdateClock, now: Tick, tick1: Tick, tick2: Tick)
      requires Valid() && (m.ModeOff? || m.ModeNormal? || m.ModeSequence?)
      modifies this, rx, tx, clock
      ensures Valid() && mode == m && (sequence == old(sequence) || sequence.None?)
      ensures !m.ModeSequence? ==> PlayerOf() == old(PlayerOf()) && sequence == old(sequence)
      ensures m.ModeOff? && old(IsPassed(now, clock.nextUpdate)) ==> !rx.Value().lit && !tx.Value().lit
    {
      mode := m;
      Update(clock, now, tick1, tick2);
    }

    /** `led_run_sequence` */
    method RunSequence(s: Sequence, numRepeat: int, tick: Tick, clock: UpdateClock, now: Tick, tick1: Tick, tick2: Tick)
      requires Valid() && Terminated(s)
      modifies this, rx, tx, clock
      ensures Valid() && mode.ModeSequence? && (sequence == Some(s) || sequence.None?)
      ensures exists k: nat :: k <= 1 && After(s, numRepeat, k) == Some(PlayerOf())
    {
      ghost var t: nat :| EndsAt(s, t);
      mode := ModeSequence;
      sequence := Some(s);
      seqNumRepeat := numRepeat;
      var delta := SetSequenceStep(0, tick);
      assert EndsAt(s, t) && sequenceStep < t;
      assert After(s, numRepeat, 0) == Some(PlayerOf());
      assert After(s, numRepeat, 1) == Due(s, PlayerOf());
      Update(clock, now, tick1, tick2);
      assert After(s, numRepeat, 0) == Some(PlayerOf()) || After(s, numRepeat, 1) == Some(PlayerOf());
    }

    /** `led_indicate_trx` */
    method IndicateTrx(led: LedState)
      modifies led`blinkRequest
      ensures led.Value() == old(led.Value()).(request := true)
    {
      led.blinkRequest := true;
    }
  }
}
