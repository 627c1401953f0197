/** What the gs_usb host driver and the firmware exchange: host frames, and what the host
    concludes from the error frames among them (`include/gs_usb.h`).
  */
module GsUsb {

  /** `struct gs_host_frame`. `data` is the payload union, 8 bytes or 64 for CAN-FD buffers. */
  datatype HostFrame = HostFrame(
    echoId: bv32, canId: bv32, dlc: bv8, channel: nat, flags: bv8, reserved: bv8,
    data: seq<bv8>, timestamp: bv32)

  /** `echo_id` of every frame that is not the echo of a host frame. */
  const NOT_ECHO: bv32 := 0xFFFF_FFFF

  const FLAG_FD: bv8 := 2
  const FLAG_BRS: bv8 := 4
  const FLAG_ESI: bv8 := 8

  const ERR_FLAG: bv32 := 0x2000_0000

  const ERR_DLC: bv8 := 8
  const ERR_CRTL: bv32 := 0x04
  const ERR_PROT: bv32 := 0x08
  const ERR_ACK: bv32 := 0x20
  const ERR_BUSOFF: bv32 := 0x40

  const CRTL_WARNING: bv8 := 0x0C  // RX_WARNING | TX_WARNING
  const CRTL_PASSIVE: bv8 := 0x30  // RX_PASSIVE | TX_PASSIVE
  const CRTL_ACTIVE: bv8 := 0x40

  const PROT_FORM: bv8 := 0x02
  const PROT_STUFF: bv8 := 0x04
  const PROT_BIT0: bv8 := 0x08
  const PROT_BIT1: bv8 := 0x10
  const PROT_LOC_CRC_SEQ: bv8 := 0x08

  /** `struct_size(frame, classic_can, 1)` and `struct_size(frame, canfd, 1)` */
  const CLASSIC_SIZE := 20
  const CANFD_SIZE := 76

  predicate IsFd(f: HostFrame) {
    f.flags & FLAG_FD != 0
  }

  /** The length of a frame in a packet, without padding: header, data, and a timestamp to the host if
      asked for. `USBD_GS_CAN_SendFrame` makes packets of this length. */
  function PacketLength(canfd: bool, timestamps: bool, f: HostFrame): (n: nat)
    ensures n == 12 + (if canfd && IsFd(f) then 64 else 8) + (if timestamps then 4 else 0)
  {
    (if canfd && IsFd(f) then CANFD_SIZE else CLASSIC_SIZE) + if timestamps then 4 else 0
  }

  /** The message a frame stands for. Sending it out and echoing it back may change only the
      flags, the reserved byte and the timestamp. */
  datatype Message = Message(echoId: bv32, canId: bv32, dlc: bv8, channel: nat, data: seq<bv8>)

  function MessageOf(f: HostFrame): Message {
    Message(f.echoId, f.canId, f.dlc, f.channel, f.data)
  }

  /** What a frame says about the message on the bus. */
  datatype BusMessage = BusMessage(canId: bv32, dlc: bv8, data: seq<bv8>, flags: bv8, timestamp: bv32)

  function OnBus(f: HostFrame): BusMessage {
    BusMessage(f.canId, f.dlc, f.data, f.flags, f.timestamp)
  }

  // CAN_EFF_FLAG and CAN_RTR_FLAG

  predicate Extended(id: bv32) { id & 0x8000_0000 != 0 }

  predicate Remote(id: bv32) { id & 0x4000_0000 != 0 }

  function MarkExtended(id: bv32): bv32 { id | 0x8000_0000 }

  function MarkRemote(id: bv32): bv32 { id | 0x4000_0000 }

  /** The identifier bits that go over the bus, 29 or 11 of them. */
  function BusId(id: bv32): bv32 {
    if Extended(id) then id & 0x1FFF_FFFF else id & 0x7FF
  }

  predicate IdentifierFits(identifier: bv32, extended: bool) {
    identifier & (if extended then 0xE000_0000 else 0xFFFF_F800) == 0
  }

  function WithExtended(id: bv32, b: bv32): bv32 { b | (id & 0x8000_0000) }

  function WithRemote(id: bv32, b: bv32): bv32 { b | (id & 0x4000_0000) }

  /** `b` with the two format flags of `id`. */
  function WithFormat(id: bv32, b: bv32): bv32 {
    WithRemote(id, WithExtended(id, b))
  }

  /** What is left of an identifier that went over the bus. */
  function NormalisedId(id: bv32): bv32 {
    WithFormat(id, BusId(id))
  }

  function MarkedExtended(id: bv32, extended: bool): bv32 {
    if extended then MarkExtended(id) else id
  }

  function MarkedRemote(id: bv32, remote: bool): bv32 {
    if remote then MarkRemote(id) else id
  }

  function Formatted(identifier: bv32, extended: bool, remote: bool): bv32 {
    MarkedRemote(MarkedExtended(identifier, extended), remote)
  }

  lemma FlagCopied(id: bv32, x: bv32)
    ensures Extended(id) ==> x | (id & 0x8000_0000) == MarkExtended(x)
    ensures !Extended(id) ==> x | (id & 0x8000_0000) == x
    ensures Remote(id) ==> x | (id & 0x4000_0000) == MarkRemote(x)
    ensures !Remote(id) ==> x | (id & 0x4000_0000) == x
  {}

  lemma ExtendedCopied(id: bv32, x: bv32)
    ensures WithExtended(id, x) == MarkedExtended(x, Extended(id))
  {
    FlagCopied(id, x);
    hide Extended, Remote, MarkExtended, MarkRemote;
  }

  lemma RemoteCopied(id: bv32, x: bv32)
    ensures WithRemote(id, x) == MarkedRemote(x, Remote(id))
  {
    FlagCopied(id, x);
    hide Extended, Remote, MarkExtended, MarkRemote;
  }

  lemma BothFlagsCopied(id: bv32, b: bv32)
    ensures Formatted(b, Extended(id), Remote(id)) == WithFormat(id, b)
  {
    hide Extended, Remote, MarkedExtended, MarkedRemote, WithExtended, WithRemote;
    ExtendedCopied(id, b);
    RemoteCopied(id, WithExtended(id, b));
  }

  predicate IsErrorFrame(f: HostFrame) {
    f.echoId == NOT_ECHO && f.canId & ERR_FLAG != 0
  }

  predicate HasControl(f: HostFrame, bits: bv8) {
    f.canId & ERR_CRTL != 0 && |f.data| > 1 && f.data[1] & bits != 0
  }

  predicate ReportsInactive(f: HostFrame) {
    f.canId & ERR_BUSOFF != 0 || HasControl(f, CRTL_PASSIVE)
  }

  /** The host's belief that the controller is error active (section 8, Fault Confinement, of the
      Bosch CAN 2.0 specification, Part B), updated by one frame. */
  function HostBelief(active: bool, f: HostFrame): bool {
    if !IsErrorFrame(f) then active
    else if ReportsInactive(f) then false
    else if HasControl(f, CRTL_ACTIVE) then true
    else active
  }
}
