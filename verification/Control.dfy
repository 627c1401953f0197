/** The control endpoint of the converter (`USBD_GS_CAN_Config_Request`, `USBD_GS_CAN_EP0_RxReady`) and
    suspend, as far as they set up the channels.
  */
module Control {
  import opened Wrappers
  import opened BitTiming
  import opened Led

  /** `enum gs_usb_breq`; `Finished` is the 0xFF a finished request is marked with. */
  datatype Request =
    | HostFormat | Bittiming | SetMode | BtConst | DeviceConfig | Timestamp | Identify
    | DataBittiming | BtConstExt | SetTermination | GetTermination | Unknown | Finished

  /** `USBD_SetupReqTypedef` */
  datatype Setup = Setup(request: Request, value: nat, length: nat)

  /** `ep0_buf`, read in each of the ways a request can read it. */
  datatype Payload = Payload(timing: Timing, mode: bv32, flags: bv32, identify: bv32, termination: bv32)

  /** The parts of `can_data_t` that requests set. */
  datatype Channel = Channel(
    enabled: bool, flags: bv32, timing: Timing, dataTiming: Timing, terminated: bool,
    ledMode: Mode, sequence: Option<Sequence>, repeat: int)

  datatype Config = Config(canfd: bool, canTerminate: bool, btc: Limits, dbtc: Limits)

  datatype Reply = Sends | Receives | Stalls

  // ---------- requests that take or give data ----------

  predicate PerDevice(r: Request) {
    r.HostFormat? || r.DeviceConfig?
  }

  const EP0_BUF_SIZE: nat := 20

  /** The length of the data of a request, if it is a request at all. */
  function LengthOf(cfg: Config, r: Request): Option<nat> {
    match r
    case HostFormat => Some(4)
    case Bittiming => Some(20)
    case SetMode => Some(8)
    case BtConst => Some(40)
    case DeviceConfig => Some(12)
    case Timestamp => Some(4)
    case Identify => Some(4)
    case DataBittiming => if cfg.canfd then Some(20) else None
    case BtConstExt => if cfg.canfd then Some(72) else None
    case SetTermination => if cfg.canTerminate then Some(4) else None
    case GetTermination => if cfg.canTerminate then Some(4) else None
    case Unknown => None
    case Finished => None
  }

  predicate FromHost(r: Request) {
    r.HostFormat? || r.Bittiming? || r.SetMode? || r.Identify? || r.DataBittiming? || r.SetTermination?
  }

  /** What the host is answered. */
  function ReplyTo(cfg: Config, channels: nat, s: Setup): Reply {
    if !PerDevice(s.request) && s.value >= channels then Stalls
    else if LengthOf(cfg, s.request).None? || s.length < LengthOf(cfg, s.request).value then Stalls
    else if !FromHost(s.request) then Sends
    else if s.length > EP0_BUF_SIZE then Stalls
    else Receives
  }

  // ---------- what a request does to a channel ----------

  /** `led_identify_seq` */
  const IDENTIFY: Sequence := [SeqStep(1, 10), SeqStep(2, 10), SeqStep(0, 0)]

  function Disabled(c: Channel): Channel {
    c.(enabled := false, ledMode := ModeOff)
  }

  function Enabled(c: Channel, flags: bv32): Channel {
    c.(enabled := true, flags := flags, ledMode := ModeNormal)
  }

  /** A received request, on its channel. */
  function Applied(cfg: Config, r: Request, p: Payload, c: Channel): Channel {
    match r
    case Bittiming => if CheckBittimingOk(cfg.btc, p.timing) then c.(timing := p.timing) else c
    case SetMode => if p.mode == 0 then Disabled(c) else if p.mode == 1 then Enabled(c, p.flags) else c
    case Identify =>
      if p.identify != 0 then c.(ledMode := ModeSequence, sequence := Some(IDENTIFY), repeat := -1)
      else c.(ledMode := if c.enabled then ModeNormal else ModeOff)
    case DataBittiming => if CheckBittimingOk(cfg.dbtc, p.timing) then c.(dataTiming := p.timing) else c
    case SetTermination => if cfg.canTerminate then c.(terminated := p.termination == 1) else c
    case _ => c
  }

  /** Whether `EP0_RxReady` follows the channel pointer. */
  predicate Follows(r: Request) {
    r.Bittiming? || r.SetMode? || r.Identify? || r.DataBittiming? || r.SetTermination?
  }

  /** Whether `EP0_RxReady` leaves early, with the request still set. */
  predicate Refused(cfg: Config, r: Request, p: Payload) {
    || (r.Bittiming? && !CheckBittimingOk(cfg.btc, p.timing))
    || (r.DataBittiming? && !CheckBittimingOk(cfg.dbtc, p.timing))
  }

  // ---------- the state and its steps ----------

  datatype State = State(channels: seq<Channel>, last: Setup)

  datatype Event = OnSetup(s: Setup) | OnData(p: Payload) | OnSuspend

  function ConfigRequest(cfg: Config, st: State, s: Setup): State {
    if ReplyTo(cfg, |st.channels|, s).Receives? then st.(last := s) else st
  }

  /** Nothing comes out when a missing channel is followed. */
  function RxReady(cfg: Config, st: State, p: Payload): Option<State> {
    var r, ch := st.last.request, st.last.value;
    var done := if Refused(cfg, r, p) then st.last else st.last.(request := Finished);
    if !Follows(r) then Some(st.(last := done))
    else if ch >= |st.channels| then None
    else Some(State(st.channels[ch := Applied(cfg, r, p, st.channels[ch])], done))
  }

  function SuspendAll(cs: seq<Channel>): seq<Channel> {
    seq(|cs|, i requires 0 <= i < |cs| => Disabled(cs[i]))
  }

  function Step(cfg: Config, st: State, e: Event): Option<State> {
    match e
    case OnSetup(s) => Some(ConfigRequest(cfg, st, s))
    case OnData(p) => RxReady(cfg, st, p)
    case OnSuspend => Some(st.(channels := SuspendAll(st.channels)))
  }

  function Run(cfg: Config, st: State, es: seq<Event>): Option<State>
    decreases es
  {
    if es == [] then Some(st)
    else if Step(cfg, st, es[0]).None? then None
    else Run(cfg, Step(cfg, st, es[0]).value, es[1..])
  }

  // ---------- what every run keeps ----------

  /** The LED tells whether the channel is enabled, unless a sequence is playing; no mode `led_update`
      asserts against is ever set. */
  predicate LedTells(c: Channel) {
    match c.ledMode
    case ModeOff => !c.enabled
    case ModeNormal => c.enabled
    case ModeSequence => c.sequence.Some?
    case ModeWarn => false
    case ModeError => false
  }

  predicate Timed(cfg: Config, c: Channel) {
    CheckBittimingOk(cfg.btc, c.timing) && (cfg.canfd ==> CheckBittimingOk(cfg.dbtc, c.dataTiming))
  }

  ghost predicate Playable(c: Channel) {
    c.sequence.Some? ==> Terminated(c.sequence.value)
  }

  ghost predicate ChannelOk(cfg: Config, c: Channel) {
    LedTells(c) && Timed(cfg, c) && Playable(c)
  }

  ghost predicate Inv(cfg: Config, st: State) {
    && (Follows(st.last.request) ==> st.last.value < |st.channels|)
    && (st.last.request.DataBittiming? ==> cfg.canfd)
    && forall i :: 0 <= i < |st.channels| ==> ChannelOk(cfg, st.channels[i])
  }

  lemma IdentifyEnds()
    ensures EndsAt(IDENTIFY, 2)
  {}

  lemma AppliedOk(cfg: Config, r: Request, p: Payload, c: Channel)
    requires ChannelOk(cfg, c)
    ensures ChannelOk(cfg, Applied(cfg, r, p, c))
  {
    IdentifyEnds();
  }

  lemma StepKeeps(cfg: Config, st: State, e: Event)
    requires Inv(cfg, st)
    ensures Step(cfg, st, e).Some? && Inv(cfg, Step(cfg, st, e).value)
  {
    if e.OnData? && Follows(st.last.request) {
      AppliedOk(cfg, st.last.request, e.p, st.channels[st.last.value]);
    }
  }

  /** In every run of requests, data and suspends: no missing channel is followed, every channel has a
      bit timing that was checked, and the LED of each channel tells whether it is enabled. */
  lemma {:induction false} NeverFaults(cfg: Config, st: State, es: seq<Event>)
    requires Inv(cfg, st)
    ensures Run(cfg, st, es).Some? && Inv(cfg, Run(cfg, st, es).value)
    decreases es
  {
    if es != [] {
      StepKeeps(cfg, st, es[0]);
      NeverFaults(cfg, Step(cfg, st, es[0]).value, es[1..]);
    }
  }

  /** `USBD_GS_CAN_Config_Request` without its check against a missing channel. */
  function UncheckedRequest(cfg: Config, st: State, s: Setup): State {
    if ReplyTo(cfg, s.value + 1, s).Receives? then st.(last := s) else st
  }

  /** The check is needed: in any state a run can reach, a device without it follows a missing channel
      exactly after a request that is received, is for a channel and names none that is there; the
      device with the check never does. */
  lemma CheckNeededIff(cfg: Config, st: State, s: Setup, p: Payload)
    requires Inv(cfg, st)
    ensures RxReady(cfg, UncheckedRequest(cfg, st, s), p).None?
       <==> s.value >= |st.channels| && !PerDevice(s.request) && FromHost(s.request) &&
            LengthOf(cfg, s.request).Some? && LengthOf(cfg, s.request).value <= s.length <= EP0_BUF_SIZE
    ensures RxReady(cfg, ConfigRequest(cfg, st, s), p).Some?
  {
    StepKeeps(cfg, st, OnSetup(s));
    StepKeeps(cfg, ConfigRequest(cfg, st, s), OnData(p));
  }

  /** A timing request goes through, and only to its channel, exactly when the device can take it and
      the timing is within the limits. */
  lemma TimingTakesEffectIff(cfg: Config, st: State, s: Setup, p: Payload)
    requires Inv(cfg, st) && s.request.Bittiming? && s.value < |st.channels|
    requires st.last.request.Finished? && p.timing != st.channels[s.value].timing
    ensures var t := Run(cfg, st, [OnSetup(s), OnData(p)]);
            && t.Some?
            && (t.value.channels == st.channels[s.value := st.channels[s.value].(timing := p.timing)]
                <==> s.length == 20 && CheckBittimingOk(cfg.btc, p.timing))
            && (t.value.channels == st.channels <==> !(s.length == 20 && CheckBittimingOk(cfg.btc, p.timing)))
  {
    var a := ConfigRequest(cfg, st, s);
    assert Run(cfg, a, [OnData(p)]) == Step(cfg, a, OnData(p)) by {
      if Step(cfg, a, OnData(p)).Some? {
        assert Run(cfg, Step(cfg, a, OnData(p)).value, []) == Step(cfg, a, OnData(p));
      }
    }
    assert [OnSetup(s), OnData(p)][1..] == [OnData(p)];
    var c, d := st.channels[s.value], st.channels[s.value].(timing := p.timing);
    assert c != d;
    assert st.channels[s.value := d][s.value] == d;
    assert st.channels[s.value := c] == st.channels;
  }

  lemma {:induction false} RunJoin(cfg: Config, st: State, es: seq<Event>, fs: seq<Event>)
    requires Run(cfg, st, es).Some?
    ensures Run(cfg, st, es + fs) == Run(cfg, Run(cfg, st, es).value, fs)
    decreases es
  {
    if es == [] {
      assert es + fs == fs;
    } else {
      RunJoin(cfg, Step(cfg, st, es[0]).value, es[1..], fs);
      assert (es + fs)[1..] == es[1..] + fs;
    }
  }

  /** A request from the host that the device can take, with its data. */
  lemma Exchange(cfg: Config, st: State, s: Setup, p: Payload)
    requires ReplyTo(cfg, |st.channels|, s).Receives? && Follows(s.request)
    ensures s.value < |st.channels|
    ensures var t := Run(cfg, st, [OnSetup(s), OnData(p)]);
            t.Some? && t.value.channels == st.channels[s.value := Applied(cfg, s.request, p, st.channels[s.value])]
  {
    var a := ConfigRequest(cfg, st, s);
    var b := RxReady(cfg, a, p).value;
    assert [OnSetup(s), OnData(p)][1..] == [OnData(p)] && [OnData(p)][1..] == [];
    assert Run(cfg, b, []) == Some(b);
    assert Run(cfg, a, [OnData(p)]) == Some(b);
  }

  /** From a timing request and a start request to the register of a bxCAN controller: the channel runs
      with the timing and in the mode the host asked for, exactly when the jump width is not zero. */
  lemma StartsAsAskedIff(cfg: Config, st: State, s: Setup, p: Payload, s2: Setup, p2: Payload)
    requires cfg.btc == BXCAN && s.value == s2.value < |st.channels|
    requires s.request.Bittiming? && s.length == 20 && CheckBittimingOk(BXCAN, p.timing)
    requires s2.request.SetMode? && 8 <= s2.length <= EP0_BUF_SIZE && p2.mode == 1
    ensures var t := Run(cfg, st, [OnSetup(s), OnData(p)] + [OnSetup(s2), OnData(p2)]);
            && t.Some? && |t.value.channels| == |st.channels|
            && var c := t.value.channels[s.value];
            && c.enabled && c.ledMode.ModeNormal?
            && (Decode(BtrOf(c.timing, c.flags)) == Requested(p.timing, p2.flags) <==> p.timing.sjw != 0)
  {
    Exchange(cfg, st, s, p);
    var a := Run(cfg, st, [OnSetup(s), OnData(p)]).value;
    Exchange(cfg, a, s2, p2);
    RunJoin(cfg, st, [OnSetup(s), OnData(p)], [OnSetup(s2), OnData(p2)]);
    TimingPreservedIff(p.timing, p2.flags);
  }

  // ---------- started and reset ----------

  /** The requests whose data the device takes: with at least the size of the struct and at most its buffer,
      for a channel there is or for the device as a whole. */
  predicate Received(cfg: Config, channels: nat, s: Setup) {
    match s.request
    case HostFormat => 4 <= s.length <= 20
    case Bittiming => s.value < channels && s.length == 20
    case SetMode => s.value < channels && 8 <= s.length <= 20
    case Identify => s.value < channels && 4 <= s.length <= 20
    case DataBittiming => s.value < channels && s.length == 20 && cfg.canfd
    case SetTermination => s.value < channels && 4 <= s.length <= 20 && cfg.canTerminate
    case _ => false
  }

  /** The requests the device answers with data: asking for at least the size of the struct. */
  predicate Answered(cfg: Config, channels: nat, s: Setup) {
    match s.request
    case DeviceConfig => s.length >= 12
    case BtConst => s.value < channels && s.length >= 40
    case Timestamp => s.value < channels && s.length >= 4
    case BtConstExt => s.value < channels && s.length >= 72 && cfg.canfd
    case GetTermination => s.value < channels && s.length >= 4 && cfg.canTerminate
    case _ => false
  }

  /** Every other request stalls. */
  lemma ReceivedIff(cfg: Config, channels: nat, s: Setup)
    ensures ReplyTo(cfg, channels, s)
         == if Received(cfg, channels, s) then Receives else if Answered(cfg, channels, s) then Sends else Stalls
  {}

  /** A start, reset or other mode request, in the fields of the channels: mode 0 takes the channel off the bus
      and darkens its LEDs, mode 1 puts it on the bus with the flags asked for, any other mode does nothing; all
      else stays. */
  lemma ModeRequestDoes(cfg: Config, st: State, s: Setup, p: Payload)
    requires s.request.SetMode? && s.value < |st.channels| && 8 <= s.length <= 20
    ensures var t := Run(cfg, st, [OnSetup(s), OnData(p)]);
            && t.Some? && |t.value.channels| == |st.channels|
            && (forall i :: 0 <= i < |st.channels| && i != s.value ==> t.value.channels[i] == st.channels[i])
            && var c, d := st.channels[s.value], t.value.channels[s.value];
            && d == c.(enabled := d.enabled, ledMode := d.ledMode, flags := d.flags)
            && (p.mode == 0 ==> !d.enabled && d.ledMode.ModeOff? && d.flags == c.flags)
            && (p.mode == 1 ==> d.enabled && d.ledMode.ModeNormal? && d.flags == p.flags)
            && (p.mode > 1 ==> d == c)
  {
    Exchange(cfg, st, s, p);
  }

  /** A suspend takes every channel off the bus and darkens its LEDs; all else stays. */
  lemma SuspendDoes(cfg: Config, st: State)
    ensures var t := Run(cfg, st, [OnSuspend]);
            && t.Some? && t.value.last == st.last && |t.value.channels| == |st.channels|
            && forall i :: 0 <= i < |st.channels| ==>
                 var c, d := st.channels[i], t.value.channels[i];
                 !d.enabled && d.ledMode.ModeOff? && d == c.(enabled := false, ledMode := d.ledMode)
  {
    var t := Step(cfg, st, OnSuspend).value;
    assert [OnSuspend][1..] == [] && Run(cfg, t, []) == Some(t);
  }

  /** The channel whose start or reset request awaits its data. */
  function Awaited(s: Setup): Option<nat> {
    if s.request.SetMode? then Some(s.value) else None
  }

  function AwaitedNext(cfg: Config, channels: nat, awaited: Option<nat>, e: Event): Option<nat> {
    match e
    case OnSetup(s) => if Received(cfg, channels, s) then Awaited(s) else awaited
    case OnData(_) => None
    case OnSuspend => awaited
  }

  /** What an event tells channel `ch`: to start, to stop, or neither. */
  function OrderIn(awaited: Option<nat>, ch: nat, e: Event): seq<bool> {
    match e
    case OnSetup(_) => []
    case OnData(p) => if awaited == Some(ch) && p.mode <= 1 then [p.mode == 1] else []
    case OnSuspend => [false]
  }

  /** All that a run of events tells it: the starts, and the resets and suspends, that reach it. */
  function Orders(cfg: Config, channels: nat, awaited: Option<nat>, ch: nat, es: seq<Event>): seq<bool>
    decreases es
  {
    if es == [] then []
    else
      var next := AwaitedNext(cfg, channels, awaited, es[0]);
      OrderIn(awaited, ch, es[0]) + Orders(cfg, channels, next, ch, es[1..])
  }

  function LastOr(orders: seq<bool>, before: bool): bool {
    if orders == [] then before else orders[|orders| - 1]
  }

  lemma OrderStep(cfg: Config, st: State, e: Event, ch: nat)
    requires Inv(cfg, st) && ch < |st.channels|
    ensures var t, a := Step(cfg, st, e), Awaited(st.last);
            && t.Some? && |t.value.channels| == |st.channels|
            && Awaited(t.value.last) == AwaitedNext(cfg, |st.channels|, a, e)
            && t.value.channels[ch].enabled == LastOr(OrderIn(a, ch, e), st.channels[ch].enabled)
  {
    if e.OnSetup? { ReceivedIff(cfg, |st.channels|, e.s); }
    hide CheckBittimingOk;
  }

  lemma LastOrJoin(a: seq<bool>, b: seq<bool>, before: bool)
    ensures LastOr(a + b, before) == LastOr(b, LastOr(a, before))
  {}

  /** In every run a channel is on the bus exactly when the last start, reset or suspend that reached it was a
      start, and as at first when none did. */
  lemma {:induction false} EnabledIffStarted(cfg: Config, st: State, es: seq<Event>, ch: nat)
    requires Inv(cfg, st) && ch < |st.channels|
    ensures var t := Run(cfg, st, es);
            && t.Some? && |t.value.channels| == |st.channels|
            && t.value.channels[ch].enabled
               == LastOr(Orders(cfg, |st.channels|, Awaited(st.last), ch, es), st.channels[ch].enabled)
    decreases es
  {
    if es != [] {
      OrderStep(cfg, st, es[0], ch);
      StepKeeps(cfg, st, es[0]);
      var t, n, a := Step(cfg, st, es[0]).value, |st.channels|, Awaited(st.last);
      hide Inv, Step, OrderIn, Received;
      EnabledIffStarted(cfg, t, es[1..], ch);
      LastOrJoin(OrderIn(a, ch, es[0]), Orders(cfg, n, AwaitedNext(cfg, n, a, es[0]), ch, es[1..]),
        st.channels[ch].enabled);
    }
  }

  /** An identify request lights the two LEDs of its channel in turn, 100 milliseconds each, until it is told
      otherwise; ending it shows whether the channel is on the bus. */
  lemma IdentifyAlternates(cfg: Config, st: State, s: Setup, p: Payload, k: nat)
    requires s.request.Identify? && s.value < |st.channels| && 4 <= s.length <= 20
    ensures var t := Run(cfg, st, [OnSetup(s), OnData(p)]);
            && t.Some? && |t.value.channels| == |st.channels|
            && (forall i :: 0 <= i < |st.channels| && i != s.value ==> t.value.channels[i] == st.channels[i])
            && var c, d := st.channels[s.value], t.value.channels[s.value];
            && d.enabled == c.enabled && d.flags == c.flags && d.timing == c.timing && d.dataTiming == c.dataTiming
            && d.terminated == c.terminated
            && (p.identify == 0 ==> d.ledMode == if c.enabled then ModeNormal else ModeOff)
            && (p.identify != 0 ==>
                  && d.ledMode.ModeSequence? && d.sequence.Some?
                  && var shown := After(d.sequence.value, d.repeat, k);
                  && shown.Some? && shown.value.playing && shown.value.step < |d.sequence.value|
                  && var step := d.sequence.value[shown.value.step];
                  && DeltaOf(step) == 100
                  && (step.state & 1 != 0 <==> k % 2 == 0) && (step.state & 2 != 0 <==> k % 2 == 1))
  {
    Exchange(cfg, st, s, p);
    IdentifyEnds();
    Playback(IDENTIFY, 2, -1, k);
  }

  /** The other two requests for a channel change nothing else of it and nothing of the others. */
  lemma DataRequestDoes(cfg: Config, st: State, s: Setup, p: Payload)
    requires s.value < |st.channels|
    requires (s.request.DataBittiming? && cfg.canfd && s.length == 20)
          || (s.request.SetTermination? && cfg.canTerminate && 4 <= s.length <= 20)
    ensures var t := Run(cfg, st, [OnSetup(s), OnData(p)]); var c := st.channels[s.value];
            && t.Some?
            && t.value.channels == st.channels[s.value :=
                 if s.request.SetTermination? then c.(terminated := p.termination == 1)
                 else if CheckBittimingOk(cfg.dbtc, p.timing) then c.(dataTiming := p.timing) else c]
  {
    Exchange(cfg, st, s, p);
  }

  // ---------- in place ----------

  class UsbControl {
    const cfg: Config
    const channels: array<Channel>
    var lastSetupRequest: Setup

    /** The device after `main` has set it up. */
    constructor (cfg: Config, timings: seq<Timing>)
      requires forall i :: 0 <= i < |timings| ==>
                 CheckBittimingOk(cfg.btc, timings[i]) && (cfg.canfd ==> CheckBittimingOk(cfg.dbtc, timings[i]))
      ensures this.cfg == cfg && Inv(cfg, Value()) && |Value().channels| == |timings| && fresh(channels)
      ensures forall i :: 0 <= i < |timings| ==> !channels[i].enabled && channels[i].timing == timings[i]
    {
      this.cfg := cfg;
      channels := new Channel[|timings|](i requires 0 <= i < |timings| =>
        Channel(false, 0, timings[i], timings[i], false, ModeOff, None, 0));
      lastSetupRequest := Setup(HostFormat, 0, 0);
    }

    function Value(): State
      reads this, channels
    {
      State(channels[..], lastSetupRequest)
    }

    /** `USBD_GS_CAN_Config_Request` */
    method HandleSetup(s: Setup) returns (reply: Reply)
      modifies this`lastSetupRequest
      ensures reply == ReplyTo(cfg, channels.Length, s) && Value() == ConfigRequest(cfg, old(Value()), s)
    {
      if !PerDevice(s.request) && s.value >= channels.Length {
        return Stalls;
      }
      var len := LengthOf(cfg, s.request);
      if len == None {
        return Stalls;
      }
      if s.length < len.value {
        return Stalls;
      }
      if !FromHost(s.request) {
        return Sends;
      }
      if s.length > EP0_BUF_SIZE {
        return Stalls;
      }
      lastSetupRequest := s;
      reply := Receives;
    }

    /** A start or reset request. */
    method StartOrReset(ch: nat, p: Payload)
      requires ch < channels.Length
      modifies channels
      ensures channels[..] == old(channels[..])[ch := Applied(cfg, SetMode, p, old(channels[ch]))]
      ensures p.mode == 0 ==> channels[ch] == old(channels[ch]).(enabled := false, ledMode := ModeOff)
      ensures p.mode == 1 ==>
                channels[ch] == old(channels[ch]).(enabled := true, flags := p.flags, ledMode := ModeNormal)
      ensures p.mode > 1 ==> channels[ch] == old(channels[ch])
    {
      if p.mode == 0 {
        channels[ch] := channels[ch].(enabled := false);
        channels[ch] := channels[ch].(ledMode := ModeOff);
      } else if p.mode == 1 {
        channels[ch] := channels[ch].(enabled := true, flags := p.flags);
        channels[ch] := channels[ch].(ledMode := ModeNormal);
      }
    }

    /** `USBD_GS_CAN_EP0_RxReady` */
    method HandleData(p: Payload)
      requires Inv(cfg, Value())
      modifies this`lastSetupRequest, channels
      ensures RxReady(cfg, old(Value()), p) == Some(Value()) && Inv(cfg, Value())
      ensures old(lastSetupRequest.request.SetMode?) && p.mode <= 1 ==>
                var ch := old(lastSetupRequest.value);
                && ch < channels.Length && (channels[ch].enabled <==> p.mode == 1)
                && channels[ch].ledMode == if p.mode == 1 then ModeNormal else ModeOff
    {
      StepKeeps(cfg, Value(), OnData(p));
      assert Follows(lastSetupRequest.request) ==> lastSetupRequest.value < channels.Length;
      hide Inv, CheckBittimingOk;
      ghost var before := Value();
      var req, ch := lastSetupRequest.request, lastSetupRequest.value;
      match req {
        case Bittiming =>
          if !CheckBittimingOk(cfg.btc, p.timing) {
            assert channels[..] == channels[..][ch := channels[ch]];
            return;
          }
          channels[ch] := channels[ch].(timing := p.timing);
        case SetMode => StartOrReset(ch, p);
        case Identify =>
          if p.identify != 0 {
            channels[ch] := channels[ch].(ledMode := ModeSequence, sequence := Some(IDENTIFY), repeat := -1);
          } else {
            channels[ch] := channels[ch].(ledMode := if channels[ch].enabled then ModeNormal else ModeOff);
          }
        case DataBittiming =>
          if !CheckBittimingOk(cfg.dbtc, p.timing) {
            assert channels[..] == channels[..][ch := channels[ch]];
            return;
          }
          channels[ch] := channels[ch].(dataTiming := p.timing);
        case SetTermination =>
          if cfg.canTerminate {
            channels[ch] := channels[ch].(terminated := p.termination == 1);
          }
        case _ =>
      }
      lastSetupRequest := lastSetupRequest.(request := Finished);
      if Follows(req) {
        assert channels[..] == before.channels[ch := Applied(cfg, req, p, before.channels[ch])];
      }
    }

    /** `USBD_GS_CAN_SuspendCallback` */
    method Suspend()
      modifies channels
      ensures Value() == old(Value()).(channels := SuspendAll(old(Value().channels)))
      ensures forall i :: 0 <= i < channels.Length ==> !channels[i].enabled && channels[i].ledMode.ModeOff?
    {
      for i := 0 to channels.Length
        invariant forall j :: 0 <= j < i ==> channels[j] == Disabled(old(channels[j]))
        invariant forall j :: i <= j < channels.Length ==> channels[j] == old(channels[j])
      {
        channels[i] := channels[i].(enabled := false);
        channels[i] := channels[i].(ledMode := ModeOff);
      }
      assert channels[..] == SuspendAll(old(Value().channels));
    }
  }
}
