/** The ten typed frames and the raw fallback, with their payload layout (package frame). */
module Frames {
  import opened Results
  import opened Wire

  const TYPE_DATA: uint8 := 0x0
  const TYPE_HEADERS: uint8 := 0x1
  const TYPE_PRIORITY: uint8 := 0x2
  const TYPE_RST_STREAM: uint8 := 0x3
  const TYPE_SETTINGS: uint8 := 0x4
  const TYPE_PUSH_PROMISE: uint8 := 0x5
  const TYPE_PING: uint8 := 0x6
  const TYPE_GOAWAY: uint8 := 0x7
  const TYPE_WINDOW_UPDATE: uint8 := 0x8
  const TYPE_CONTINUATION: uint8 := 0x9

  const FLAG_ACK: uint8 := 0x1
  const FLAG_END_STREAM: uint8 := 0x1
  const FLAG_END_HEADERS: uint8 := 0x4
  const FLAG_PADDED: uint8 := 0x8
  const FLAG_PRIORITY: uint8 := 0x20

  const SETTING_HEADER_TABLE_SIZE: uint16 := 0x1
  const SETTING_ENABLE_PUSH: uint16 := 0x2
  const SETTING_INITIAL_WINDOW_SIZE: uint16 := 0x4

  const SETTING_ENTRY_LENGTH := 6
  const PRIORITY_LENGTH := 5
  const GOAWAY_MIN_LENGTH := 8
  const PING_LENGTH := 8

  type PingData = d: bytes | |d| == PING_LENGTH witness [0, 0, 0, 0, 0, 0, 0, 0]

  datatype Header = Header(length: uint32, typ: uint8, flags: uint8, streamID: uint32)

  datatype PriorityParam = PriorityParam(exclusive: bool, streamDep: uint32, weight: uint8)

  datatype Setting = Setting(id: uint16, value: uint32)

  datatype Frame =
    | DataFrame(header: Header, padLength: uint8, data: bytes)
    | HeadersFrame(header: Header, padLength: uint8, priority: Option<PriorityParam>, block: bytes)
    | PriorityFrame(header: Header, param: PriorityParam)
    | RSTStreamFrame(header: Header, errorCode: uint32)
    | SettingsFrame(header: Header, settings: seq<Setting>)
    | PushPromiseFrame(header: Header, padLength: uint8, promisedStreamID: uint32, block: bytes)
    | PingFrame(header: Header, pingData: PingData)
    | GoAwayFrame(header: Header, lastStreamID: uint32, errorCode: uint32, debugData: bytes)
    | WindowUpdateFrame(header: Header, increment: uint32)
    | ContinuationFrame(header: Header, block: bytes)
    | RawFrame(header: Header, payload: bytes)

  // ---------------------------------------------------------------- payload layout

  function Zeros(n: nat): (z: bytes)
    ensures |z| == n && forall i :: 0 <= i < n ==> z[i] == 0
  {
    seq(n, _ => 0)
  }

  /** RFC 9113, section 6.1: the pad length goes first, the padding itself last. */
  function Pad(padded: bool, padLength: uint8, body: bytes): bytes {
    if padded then [padLength] + body + Zeros(padLength) else body
  }

  datatype Unpadded = Unpadded(padLength: uint8, body: bytes)

  function Unpad(padded: bool, payload: bytes): Option<Unpadded> {
    if !padded then Some(Unpadded(0, payload))
    else if |payload| == 0 || |payload| < 1 + payload[0] as int then None
    else Some(Unpadded(payload[0], payload[1..|payload| - payload[0] as int]))
  }

  function PriorityBytes(p: PriorityParam): (r: bytes)
    ensures |r| == PRIORITY_LENGTH
  {
    AppendUint32([], Low31(p.streamDep) + if p.exclusive then 0x8000_0000 else 0) + [p.weight]
  }

  function PriorityOf(src: bytes): PriorityParam
    requires |src| == PRIORITY_LENGTH
  {
    var dep := ReadUint32(src[..4]).value;
    PriorityParam(dep >= 0x8000_0000, Low31(dep), src[4])
  }

  const NO_PRIORITY := PriorityParam(false, 0, 0)

  /** The priority fields of a HEADERS payload: five octets with the flag, none without it. */
  function PriorityField(flags: uint8, priority: Option<PriorityParam>): bytes {
    if !HasFlag(flags, FLAG_PRIORITY) then []
    else PriorityBytes(if priority.Some? then priority.value else NO_PRIORITY)
  }

  function SettingBytes(s: Setting): (r: bytes)
    ensures |r| == SETTING_ENTRY_LENGTH
  {
    AppendUint32(AppendUint16([], s.id), s.value)
  }

  function SettingOf(src: bytes): Setting
    requires |src| == SETTING_ENTRY_LENGTH
  {
    Setting(ReadUint16(src[..2]).value, ReadUint32(src[2..]).value)
  }

  function SettingsBytes(settings: seq<Setting>): bytes {
    if settings == [] then []
    else SettingsBytes(settings[..|settings| - 1]) + SettingBytes(settings[|settings| - 1])
  }

  function SettingsOf(src: bytes): seq<Setting> {
    if |src| < SETTING_ENTRY_LENGTH then []
    else SettingsOf(src[..|src| - SETTING_ENTRY_LENGTH]) + [SettingOf(src[|src| - SETTING_ENTRY_LENGTH..])]
  }

  /** `len % 6 == 0`: the payload is a whole number of settings entries. */
  predicate WholeEntries(len: nat) {
    len % 6 == 0
  }

  function Payload(f: Frame): bytes {
    var flags := f.header.flags;
    match f
    case DataFrame(_, pad, data) => Pad(HasFlag(flags, FLAG_PADDED), pad, data)
    case HeadersFrame(_, pad, priority, block) =>
      Pad(HasFlag(flags, FLAG_PADDED), pad, PriorityField(flags, priority) + block)
    case PriorityFrame(_, param) => PriorityBytes(param)
    case RSTStreamFrame(_, code) => AppendUint32([], code)
    case SettingsFrame(_, settings) => SettingsBytes(settings)
    case PushPromiseFrame(_, pad, promised, block) =>
      Pad(HasFlag(flags, FLAG_PADDED), pad, AppendUint32([], Low31(promised)) + block)
    case PingFrame(_, data) => data
    case GoAwayFrame(_, last, code, debug) => AppendUint32(AppendUint32([], Low31(last)), code) + debug
    case WindowUpdateFrame(_, increment) => AppendUint32([], Low31(increment))
    case ContinuationFrame(_, block) => block
    case RawFrame(_, payload) => payload
  }

  // ---------------------------------------------------------------- payload parsing

  function ParseData(h: Header, p: bytes): Option<Frame> {
    var u :- Unpad(HasFlag(h.flags, FLAG_PADDED), p);
    Some(DataFrame(h, u.padLength, u.body))
  }

  function ParseHeaders(h: Header, p: bytes): Option<Frame> {
    var u :- Unpad(HasFlag(h.flags, FLAG_PADDED), p);
    if !HasFlag(h.flags, FLAG_PRIORITY) then Some(HeadersFrame(h, u.padLength, None, u.body))
    else if |u.body| < PRIORITY_LENGTH then None
    else Some(HeadersFrame(h, u.padLength, Some(PriorityOf(u.body[..PRIORITY_LENGTH])), u.body[PRIORITY_LENGTH..]))
  }

  function ParsePushPromise(h: Header, p: bytes): Option<Frame> {
    var u :- Unpad(HasFlag(h.flags, FLAG_PADDED), p);
    var promised :- ReadUint32(u.body);
    Some(PushPromiseFrame(h, u.padLength, Low31(promised), u.body[4..]))
  }

  function ParsePriority(h: Header, p: bytes): Option<Frame> {
    if |p| != PRIORITY_LENGTH then None else Some(PriorityFrame(h, PriorityOf(p)))
  }

  function ParseSettings(h: Header, p: bytes): Option<Frame> {
    if !WholeEntries(|p|) then None else Some(SettingsFrame(h, SettingsOf(p)))
  }

  function ParsePing(h: Header, p: bytes): Option<Frame> {
    if |p| != PING_LENGTH then None else Some(PingFrame(h, p))
  }

  function ParseGoAway(h: Header, p: bytes): Option<Frame> {
    if |p| < GOAWAY_MIN_LENGTH then None
    else Some(GoAwayFrame(h, Low31(ReadUint32(p[..4]).value), ReadUint32(p[4..8]).value, p[8..]))
  }

  function ParseWindowUpdate(h: Header, p: bytes): Option<Frame> {
    if |p| != 4 then None else Some(WindowUpdateFrame(h, Low31(ReadUint32(p).value)))
  }

  function ParseRSTStream(h: Header, p: bytes): Option<Frame> {
    if |p| != 4 then None else Some(RSTStreamFrame(h, ReadUint32(p).value))
  }

  /** `Unmarshal`: a length check, then one parser for each type; unknown types stay raw. */
  function ParseFrame(h: Header, p: bytes): Option<Frame> {
    if ToUint32(|p|) != h.length then None
    else if h.typ == TYPE_DATA then ParseData(h, p)
    else if h.typ == TYPE_HEADERS then ParseHeaders(h, p)
    else if h.typ == TYPE_PRIORITY then ParsePriority(h, p)
    else if h.typ == TYPE_SETTINGS then ParseSettings(h, p)
    else if h.typ == TYPE_PUSH_PROMISE then ParsePushPromise(h, p)
    else if h.typ == TYPE_PING then ParsePing(h, p)
    else if h.typ == TYPE_GOAWAY then ParseGoAway(h, p)
    else if h.typ == TYPE_WINDOW_UPDATE then ParseWindowUpdate(h, p)
    else if h.typ == TYPE_CONTINUATION then Some(ContinuationFrame(h, p))
    else if h.typ == TYPE_RST_STREAM then ParseRSTStream(h, p)
    else Some(RawFrameFromParts(h, p))
  }

  function RawFrameFromParts(h: Header, p: bytes): Frame {
    RawFrame(h.(length := ToUint32(|p|)), p)
  }

  // ---------------------------------------------------------------- the nine-octet header

  function MarshalHeader(h: Header): (r: Option<bytes>)
    ensures r.Some? <==> h.length <= MAX_UINT24
    ensures r.Some? ==> |r.value| == FRAME_HEADER_LENGTH
  {
    var out :- AppendUint24([], h.length);
    Some(AppendUint32(out + [h.typ, h.flags], Low31(h.streamID)))
  }

  function ParseHeader(src: bytes): (r: Option<Header>)
    ensures r.Some? <==> |src| == FRAME_HEADER_LENGTH
    ensures r.Some? ==> r.value.length <= MAX_UINT24
  {
    if |src| != FRAME_HEADER_LENGTH then None
    else Some(Header(ReadUint24(src[..3]).value, src[3], src[4], Low31(ReadUint32(src[5..]).value)))
  }

  /** Typed frames recompute the length field; a raw frame sends the one it holds. */
  function WireHeader(f: Frame): Header {
    if f.RawFrame? then f.header else f.header.(length := ToUint32(|Payload(f)|))
  }

  function Marshal(f: Frame): (r: Option<bytes>)
    ensures r.Some? <==> WireHeader(f).length <= MAX_UINT24
    ensures r.Some? ==> |r.value| == FRAME_HEADER_LENGTH + |Payload(f)|
  {
    var head :- MarshalHeader(WireHeader(f));
    Some(head + Payload(f))
  }
}
