/**
  Where every octet of a frame goes, by position and in the numbers of RFC 9113 (sections 4.1 and 6.1 to
  6.10), with no reference to the parsers.
 */
module FrameLayout {
  import opened Wire
  import opened Frames
  import opened Hpack

  lemma StandardNumbers()
    ensures TYPE_DATA == 0x0 && TYPE_HEADERS == 0x1 && TYPE_PRIORITY == 0x2 && TYPE_RST_STREAM == 0x3
    ensures TYPE_SETTINGS == 0x4 && TYPE_PUSH_PROMISE == 0x5 && TYPE_PING == 0x6 && TYPE_GOAWAY == 0x7
    ensures TYPE_WINDOW_UPDATE == 0x8 && TYPE_CONTINUATION == 0x9
    ensures FLAG_ACK == 0x1 && FLAG_END_STREAM == 0x1 && FLAG_END_HEADERS == 0x4
    ensures FLAG_PADDED == 0x8 && FLAG_PRIORITY == 0x20
    ensures SETTING_HEADER_TABLE_SIZE == 0x1 && SETTING_ENABLE_PUSH == 0x2 && SETTING_INITIAL_WINDOW_SIZE == 0x4
    ensures FRAME_HEADER_LENGTH == 9 && MAX_UINT24 == 16777215 && MAX_UINT32 == 4294967295
    ensures INITIAL_HEADER_TABLE_SIZE == 4096
  {
  }

  lemma FlagOfHalf(flags: uint8, mask: uint8)
    requires mask > 1
    ensures HasFlag(flags, mask) <==> HasFlag(flags / 2, mask / 2)
  {
  }

  lemma Digit0(v: uint8)
    ensures HasFlag(v, 0x1) <==> v % 2 == 1
  {
  }

  lemma Digit1(v: uint8)
    ensures HasFlag(v, 0x2) <==> v / 2 % 2 == 1
  {
    hide HasFlag;
    FlagOfHalf(v, 0x2);
    Digit0(v / 2);
  }

  lemma Digit2(v: uint8)
    ensures HasFlag(v, 0x4) <==> v / 4 % 2 == 1
  {
    hide HasFlag;
    FlagOfHalf(v, 0x4);
    Digit1(v / 2);
  }

  lemma Digit3(v: uint8)
    ensures HasFlag(v, 0x8) <==> v / 8 % 2 == 1
  {
    hide HasFlag;
    FlagOfHalf(v, 0x8);
    Digit2(v / 2);
  }

  lemma Digit4(v: uint8)
    ensures HasFlag(v, 0x10) <==> v / 16 % 2 == 1
  {
    hide HasFlag;
    FlagOfHalf(v, 0x10);
    Digit3(v / 2);
  }

  lemma Digit5(v: uint8)
    ensures HasFlag(v, 0x20) <==> v / 32 % 2 == 1
  {
    hide HasFlag;
    FlagOfHalf(v, 0x20);
    Digit4(v / 2);
  }

  lemma Digit6(v: uint8)
    ensures HasFlag(v, 0x40) <==> v / 64 % 2 == 1
  {
    hide HasFlag;
    FlagOfHalf(v, 0x40);
    Digit5(v / 2);
  }

  lemma Digit7(v: uint8)
    ensures HasFlag(v, 0x80) <==> v / 128 % 2 == 1
  {
    hide HasFlag;
    FlagOfHalf(v, 0x80);
    Digit6(v / 2);
  }

  /** `HasFlag` asks for one binary digit. */
  lemma FlagIsDigit(flags: uint8)
    ensures HasFlag(flags, 0x1) <==> flags % 2 == 1
    ensures HasFlag(flags, 0x2) <==> flags / 2 % 2 == 1
    ensures HasFlag(flags, 0x4) <==> flags / 4 % 2 == 1
    ensures HasFlag(flags, 0x8) <==> flags / 8 % 2 == 1
    ensures HasFlag(flags, 0x10) <==> flags / 16 % 2 == 1
    ensures HasFlag(flags, 0x20) <==> flags / 32 % 2 == 1
    ensures HasFlag(flags, 0x40) <==> flags / 64 % 2 == 1
    ensures HasFlag(flags, 0x80) <==> flags / 128 % 2 == 1
  {
    hide HasFlag;
    Digit0(flags);
    Digit1(flags);
    Digit2(flags);
    Digit3(flags);
    Digit4(flags);
    Digit5(flags);
    Digit6(flags);
    Digit7(flags);
  }

  // ---------------------------------------------------------------- numbers in place

  function BigEndian16(p: bytes, i: nat): int
    requires i + 2 <= |p|
  {
    p[i] as int * 0x100 + p[i + 1] as int
  }

  function BigEndian24(p: bytes, i: nat): int
    requires i + 3 <= |p|
  {
    p[i] as int * 0x1_0000 + p[i + 1] as int * 0x100 + p[i + 2] as int
  }

  function BigEndian32(p: bytes, i: nat): int
    requires i + 4 <= |p|
  {
    p[i] as int * 0x100_0000 + p[i + 1] as int * 0x1_0000 + p[i + 2] as int * 0x100 + p[i + 3] as int
  }

  lemma Written32(v: uint32, front: bytes, back: bytes)
    ensures BigEndian32(front + AppendUint32([], v) + back, |front|) == v
    ensures (front + AppendUint32([], v) + back)[|front|] == v / 0x100_0000
  {
    WriteDigits(v);
  }

  /** The nine octets of a frame header. */
  lemma HeaderOctets(h: Header)
    requires h.length <= 0xff_ffff
    ensures var b := MarshalHeader(h).value;
      && |b| == 9
      && BigEndian24(b, 0) == h.length && b[3] == h.typ && b[4] == h.flags
      && BigEndian32(b, 5) == h.streamID % 0x8000_0000
  {
    WriteDigits(h.length);
    WriteDigits(Low31(h.streamID));
  }

  // ---------------------------------------------------------------- padding

  /** `body` after the pad length, if there is one, and zeros after it. */
  predicate Laid(padded: bool, pad: uint8, body: bytes, p: bytes) {
    if padded then
      && |p| == 1 + |body| + pad as int && p[0] == pad && p[1..1 + |body|] == body
      && forall i :: 1 + |body| <= i < |p| ==> p[i] == 0
    else p == body
  }

  lemma PadIsLaid(padded: bool, pad: uint8, body: bytes)
    ensures Laid(padded, pad, body, Pad(padded, pad, body))
  {
  }

  predicate Padded(f: Frame) {
    f.header.flags / 8 % 2 == 1
  }

  // ---------------------------------------------------------------- payloads

  /** Five octets: the exclusive bit on top of the dependency, then the weight. */
  predicate PriorityLaid(p: bytes, i: nat, param: PriorityParam) {
    && i + 5 <= |p|
    && BigEndian32(p, i) == param.streamDep % 0x8000_0000 + (if param.exclusive then 0x8000_0000 else 0)
    && p[i + 4] == param.weight
  }

  lemma PriorityIsLaid(param: PriorityParam, back: bytes)
    ensures PriorityLaid(PriorityBytes(param) + back, 0, param)
  {
    var dep: uint32 := Low31(param.streamDep) + if param.exclusive then 0x8000_0000 else 0;
    var p := PriorityBytes(param) + back;
    Written32(dep, [], [param.weight] + back);
    assert p == [] + AppendUint32([], dep) + ([param.weight] + back);
  }

  /** Six octets an entry: identifier, value. */
  predicate SettingsLaid(p: bytes, settings: seq<Setting>) {
    && |p| == 6 * |settings|
    && forall i :: 0 <= i < |settings| ==>
         BigEndian16(p, 6 * i) == settings[i].id && BigEndian32(p, 6 * i + 2) == settings[i].value
  }

  lemma SettingIsLaid(front: bytes, s: Setting)
    ensures BigEndian16(front + SettingBytes(s), |front|) == s.id
    ensures BigEndian32(front + SettingBytes(s), |front| + 2) == s.value
  {
    WriteDigits(s.value);
  }

  lemma {:induction false} SettingsAreLaid(settings: seq<Setting>)
    ensures SettingsLaid(SettingsBytes(settings), settings)
  {
    if settings != [] {
      hide SettingBytes;
      var n := |settings| - 1;
      var front, p := SettingsBytes(settings[..n]), SettingsBytes(settings);
      SettingsAreLaid(settings[..n]);
      SettingIsLaid(front, settings[n]);
      forall i | 0 <= i < |settings|
        ensures BigEndian16(p, 6 * i) == settings[i].id && BigEndian32(p, 6 * i + 2) == settings[i].value
      {
        if i < n {
          assert settings[..n][i] == settings[i];
          assert forall j :: 0 <= j < |front| ==> p[j] == front[j];
        }
      }
    }
  }

  /** The octets a HEADERS frame carries before padding: priority fields exactly with the flag, then the block. */
  predicate HeadersBody(f: Frame, body: bytes)
    requires f.HeadersFrame?
  {
    if f.header.flags / 32 % 2 == 1 then
      && |body| == 5 + |f.block| && body[5..] == f.block
      && PriorityLaid(body, 0, if f.priority.Some? then f.priority.value else PriorityParam(false, 0, 0))
    else body == f.block
  }

  lemma HeadersAreLaid(f: Frame)
    requires f.HeadersFrame?
    ensures exists body :: HeadersBody(f, body) && Laid(Padded(f), f.padLength, body, Payload(f))
  {
    FlagIsDigit(f.header.flags);
    hide HasFlag, PriorityBytes, PriorityLaid;
    var body := PriorityField(f.header.flags, f.priority) + f.block;
    PadIsLaid(Padded(f), f.padLength, body);
    PriorityIsLaid(if f.priority.Some? then f.priority.value else PriorityParam(false, 0, 0), f.block);
    assert [] + f.block == f.block;
    assert HeadersBody(f, body);
  }

  /** The promised id, its top bit clear, then the block. */
  predicate PromiseBody(f: Frame, body: bytes)
    requires f.PushPromiseFrame?
  {
    |body| == 4 + |f.block| && BigEndian32(body, 0) == f.promisedStreamID % 0x8000_0000 && body[4..] == f.block
  }

  lemma PromiseIsLaid(f: Frame)
    requires f.PushPromiseFrame?
    ensures exists body :: PromiseBody(f, body) && Laid(Padded(f), f.padLength, body, Payload(f))
  {
    FlagIsDigit(f.header.flags);
    var front := AppendUint32([], Low31(f.promisedStreamID));
    var body := front + f.block;
    Written32(Low31(f.promisedStreamID), [], f.block);
    assert body == [] + front + f.block;
    hide HasFlag, AppendUint32;
    PadIsLaid(Padded(f), f.padLength, body);
    assert PromiseBody(f, body);
  }

  /** Every payload by position. */
  ghost predicate PayloadLaid(f: Frame, p: bytes) {
    match f
    case DataFrame(_, pad, data) => Laid(Padded(f), pad, data, p)
    case HeadersFrame(_, pad, _, _) => exists body :: HeadersBody(f, body) && Laid(Padded(f), pad, body, p)
    case PriorityFrame(_, param) => |p| == 5 && PriorityLaid(p, 0, param)
    case RSTStreamFrame(_, code) => |p| == 4 && BigEndian32(p, 0) == code
    case SettingsFrame(_, settings) => SettingsLaid(p, settings)
    case PushPromiseFrame(_, pad, _, _) => exists body :: PromiseBody(f, body) && Laid(Padded(f), pad, body, p)
    case PingFrame(_, data) => |p| == 8 && p == data
    case GoAwayFrame(_, last, code, debug) =>
      && |p| == 8 + |debug| && BigEndian32(p, 0) == last % 0x8000_0000 && BigEndian32(p, 4) == code
      && p[8..] == debug
    case WindowUpdateFrame(_, increment) => |p| == 4 && BigEndian32(p, 0) == increment % 0x8000_0000
    case ContinuationFrame(_, block) => p == block
    case RawFrame(_, payload) => p == payload
  }

  lemma GoAwayIsLaid(f: Frame)
    requires f.GoAwayFrame?
    ensures PayloadLaid(f, Payload(f))
  {
    WriteDigits(Low31(f.lastStreamID));
    WriteDigits(f.errorCode);
  }

  /** All payloads are laid out as RFC 9113 draws them. */
  lemma PayloadIsLaid(f: Frame)
    ensures PayloadLaid(f, Payload(f))
  {
    match f
    case DataFrame(h, pad, data) =>
      FlagIsDigit(h.flags);
      hide HasFlag;
      PadIsLaid(Padded(f), pad, data);
    case HeadersFrame(_, _, _, _) => HeadersAreLaid(f);
    case PriorityFrame(_, param) =>
      PriorityIsLaid(param, []);
      assert PriorityBytes(param) + [] == PriorityBytes(param);
    case RSTStreamFrame(_, code) => WriteDigits(code);
    case SettingsFrame(_, settings) => SettingsAreLaid(settings);
    case PushPromiseFrame(_, _, _, _) => PromiseIsLaid(f);
    case GoAwayFrame(_, _, _, _) => GoAwayIsLaid(f);
    case WindowUpdateFrame(_, increment) => WriteDigits(Low31(increment));
    case _ =>
  }

  lemma WiredLength(f: Frame)
    requires |Payload(f)| <= 0xff_ffff && (f.RawFrame? ==> f.header.length == |f.payload|)
    ensures WireHeader(f) == f.header.(length := |Payload(f)|)
  {
    hide HasFlag, Pad, PriorityField, PriorityBytes, SettingsBytes, AppendUint32, Low31;
  }

  /** What is sent: nine octets of header that tell the payload's length, and the payload. */
  lemma FrameIsLaid(f: Frame)
    requires Marshal(f).Some? && |Payload(f)| <= 0xff_ffff && (f.RawFrame? ==> f.header.length == |f.payload|)
    ensures var b := Marshal(f).value;
      && |b| == 9 + |Payload(f)|
      && BigEndian24(b, 0) == |b| - 9 && b[3] == f.header.typ && b[4] == f.header.flags
      && BigEndian32(b, 5) == f.header.streamID % 0x8000_0000
      && PayloadLaid(f, b[9..])
  {
    hide PayloadLaid, MarshalHeader, Payload;
    HeaderOctets(WireHeader(f));
    PayloadIsLaid(f);
    var b, head := Marshal(f).value, MarshalHeader(WireHeader(f)).value;
    WiredLength(f);
    assert b[9..] == Payload(f);
    assert forall i :: 0 <= i < 9 ==> b[i] == head[i];
  }

  // ---------------------------------------------------------------- which payloads are accepted

  /** There is room for the pad length, `front` octets after it, and as much padding as it says. */
  predicate Roomy(flags: uint8, p: bytes, front: nat) {
    if flags / 8 % 2 == 1 then |p| >= 1 && 1 + front + p[0] as int <= |p| else front <= |p|
  }

  /** Nothing but lengths is checked: not the padding's octets, no reserved bit, no value. */
  predicate Acceptable(h: Header, p: bytes) {
    if h.typ == 0x0 then Roomy(h.flags, p, 0)
    else if h.typ == 0x1 then Roomy(h.flags, p, if h.flags / 32 % 2 == 1 then 5 else 0)
    else if h.typ == 0x2 then |p| == 5
    else if h.typ == 0x3 then |p| == 4
    else if h.typ == 0x4 then |p| % 6 == 0
    else if h.typ == 0x5 then Roomy(h.flags, p, 4)
    else if h.typ == 0x6 then |p| == 8
    else if h.typ == 0x7 then |p| >= 8
    else if h.typ == 0x8 then |p| == 4
    else true
  }

  lemma AcceptedExactly(h: Header, p: bytes)
    ensures ParseFrame(h, p).Some? <==> |p| % 0x1_0000_0000 == h.length && Acceptable(h, p)
  {
    FlagIsDigit(h.flags);
    hide HasFlag, SettingsOf, PriorityOf, Low31;
    AcceptedLengths(h, p);
    PaddedAccepted(h, p);
    hide ParseData, ParseHeaders, ParsePushPromise, ParsePriority, ParseSettings, ParsePing, ParseGoAway;
    hide ParseWindowUpdate, ParseRSTStream, Roomy, RawFrameFromParts;
  }

  lemma AcceptedLengths(h: Header, p: bytes)
    ensures ParsePriority(h, p).Some? <==> |p| == 5
    ensures ParseRSTStream(h, p).Some? <==> |p| == 4
    ensures ParseSettings(h, p).Some? <==> |p| % 6 == 0
    ensures ParsePing(h, p).Some? <==> |p| == 8
    ensures ParseGoAway(h, p).Some? <==> |p| >= 8
    ensures ParseWindowUpdate(h, p).Some? <==> |p| == 4
  {
    hide SettingsOf, PriorityOf, Low31;
  }

  lemma PaddedAccepted(h: Header, p: bytes)
    ensures ParseData(h, p).Some? <==> Roomy(h.flags, p, 0)
    ensures ParseHeaders(h, p).Some? <==> Roomy(h.flags, p, if h.flags / 32 % 2 == 1 then 5 else 0)
    ensures ParsePushPromise(h, p).Some? <==> Roomy(h.flags, p, 4)
  {
    FlagIsDigit(h.flags);
    hide HasFlag, PriorityOf, Low31;
  }
}
