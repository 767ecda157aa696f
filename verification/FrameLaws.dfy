/**
  Printing and parsing one frame are inverse up to a canonical form: parsing a printed frame gives
  its canonical form, and printing a parsed payload gives the payload with its padding zeroed and
  its reserved bits cleared.
 */
module FrameLaws {
  import opened Results
  import opened Wire
  import opened Frames

  predicate PaddedType(typ: uint8) {
    typ == TYPE_DATA || typ == TYPE_HEADERS || typ == TYPE_PUSH_PROMISE
  }

  predicate KnownType(typ: uint8) {
    typ <= TYPE_CONTINUATION
  }

  /** The header type a frame value must carry to be parsed back as the same kind of frame. */
  predicate WellTyped(f: Frame) {
    match f
    case DataFrame(h, _, _) => h.typ == TYPE_DATA
    case HeadersFrame(h, _, _, _) => h.typ == TYPE_HEADERS
    case PriorityFrame(h, _) => h.typ == TYPE_PRIORITY
    case RSTStreamFrame(h, _) => h.typ == TYPE_RST_STREAM
    case SettingsFrame(h, _) => h.typ == TYPE_SETTINGS
    case PushPromiseFrame(h, _, _, _) => h.typ == TYPE_PUSH_PROMISE
    case PingFrame(h, _) => h.typ == TYPE_PING
    case GoAwayFrame(h, _, _, _) => h.typ == TYPE_GOAWAY
    case WindowUpdateFrame(h, _) => h.typ == TYPE_WINDOW_UPDATE
    case ContinuationFrame(h, _) => h.typ == TYPE_CONTINUATION
    case RawFrame(h, _) => !KnownType(h.typ)
  }

  /** Fits a frame, and a raw frame tells the truth about its length. */
  predicate Framed(f: Frame) {
    && |Payload(f)| <= MAX_UINT24
    && (f.RawFrame? ==> f.header.length == |f.payload|)
  }

  predicate Sendable(f: Frame) {
    WellTyped(f) && Framed(f)
  }

  function CanonHeader(f: Frame): Header {
    f.header.(length := ToUint32(|Payload(f)|), streamID := Low31(f.header.streamID))
  }

  /** What the receiver of `f` gets to see. */
  function Canon(f: Frame): Frame {
    var h := CanonHeader(f);
    var padded := HasFlag(h.flags, FLAG_PADDED);
    match f
    case DataFrame(_, pad, data) => DataFrame(h, if padded then pad else 0, data)
    case HeadersFrame(_, pad, priority, block) =>
      HeadersFrame(h, if padded then pad else 0, CanonPriority(h.flags, priority), block)
    case PriorityFrame(_, p) => PriorityFrame(h, p.(streamDep := Low31(p.streamDep)))
    case PushPromiseFrame(_, pad, promised, block) =>
      PushPromiseFrame(h, if padded then pad else 0, Low31(promised), block)
    case GoAwayFrame(_, last, code, debug) => GoAwayFrame(h, Low31(last), code, debug)
    case WindowUpdateFrame(_, increment) => WindowUpdateFrame(h, Low31(increment))
    case RSTStreamFrame(_, code) => RSTStreamFrame(h, code)
    case SettingsFrame(_, settings) => SettingsFrame(h, settings)
    case PingFrame(_, data) => PingFrame(h, data)
    case ContinuationFrame(_, block) => ContinuationFrame(h, block)
    case RawFrame(_, payload) => RawFrame(h, payload)
  }

  function CanonPriority(flags: uint8, priority: Option<PriorityParam>): Option<PriorityParam> {
    if !HasFlag(flags, FLAG_PRIORITY) then None
    else if priority.None? then Some(NO_PRIORITY)
    else Some(priority.value.(streamDep := Low31(priority.value.streamDep)))
  }

  // ---------------------------------------------------------------- fields

  lemma UnpadAfterPad(padded: bool, padLength: uint8, body: bytes)
    ensures Unpad(padded, Pad(padded, padLength, body)) == Some(Unpadded(if padded then padLength else 0, body))
  {
    if padded {
      var p := Pad(true, padLength, body);
      assert p[1..|p| - padLength] == body;
    }
  }

  lemma PadAfterUnpad(padded: bool, p: bytes)
    requires Unpad(padded, p).Some?
    ensures var u := Unpad(padded, p).value; var q := Pad(padded, u.padLength, u.body);
      && |q| == |p|
      && (padded ==> q[0] == p[0] == u.padLength)
      && forall i :: 0 <= i < |p| ==> q[i] == if padded && i >= |p| - p[0] as int then 0 else p[i]
  {
  }

  lemma Top1(v: uint32)
    ensures v < 0x8000_0000 ==> Low31(v) == v
    ensures v >= 0x8000_0000 ==> Low31(v) == v - 0x8000_0000
  {
  }

  lemma PriorityAfterPrint(p: PriorityParam)
    ensures PriorityOf(PriorityBytes(p)) == p.(streamDep := Low31(p.streamDep))
  {
    var dep: uint32 := Low31(p.streamDep) + if p.exclusive then 0x8000_0000 else 0;
    WriteThenRead32([], dep);
    assert PriorityBytes(p)[..4] == AppendUint32([], dep)[0..];
    Top1(dep);
  }

  /** Every octet of a priority field counts, the exclusive bit included. */
  lemma PrintAfterPriority(src: bytes)
    requires |src| == PRIORITY_LENGTH
    ensures PriorityBytes(PriorityOf(src)) == src
  {
    ReadThenWrite32(src[..4]);
    Top1(ReadUint32(src[..4]).value);
  }

  lemma SettingAfterPrint(s: Setting)
    ensures SettingOf(SettingBytes(s)) == s
  {
    WriteThenRead16([], s.id);
    WriteThenRead32(AppendUint16([], s.id), s.value);
    assert SettingBytes(s)[..2] == AppendUint16([], s.id)[0..];
  }

  lemma PrintAfterSetting(src: bytes)
    requires |src| == SETTING_ENTRY_LENGTH
    ensures SettingBytes(SettingOf(src)) == src
  {
    ReadThenWrite16(src[..2]);
    ReadThenWrite32(src[2..]);
    assert SettingBytes(SettingOf(src)) == src[..2] + src[2..];
  }

  lemma {:induction false} SettingsAfterPrint(settings: seq<Setting>)
    ensures SettingsOf(SettingsBytes(settings)) == settings
    ensures WholeEntries(|SettingsBytes(settings)|)
  {
    hide SettingBytes, SettingOf;
    if settings != [] {
      var init, last := settings[..|settings| - 1], settings[|settings| - 1];
      var b := SettingsBytes(settings);
      assert b[..|b| - SETTING_ENTRY_LENGTH] == SettingsBytes(init);
      assert b[|b| - SETTING_ENTRY_LENGTH..] == SettingBytes(last);
      SettingsAfterPrint(init);
      SettingAfterPrint(last);
    }
  }

  lemma {:induction false} PrintAfterSettings(src: bytes)
    requires WholeEntries(|src|)
    ensures SettingsBytes(SettingsOf(src)) == src
  {
    hide SettingBytes, SettingOf;
    if src != [] {
      var cut := |src| - SETTING_ENTRY_LENGTH;
      PrintAfterSettings(src[..cut]);
      PrintAfterSetting(src[cut..]);
      assert SettingsOf(src)[..|SettingsOf(src)| - 1] == SettingsOf(src[..cut]);
      assert src == src[..cut] + src[cut..];
    }
  }

  /** Clearing the reserved bit of a 31-bit field touches its first octet only. */
  lemma ReservedBit(src: bytes)
    requires |src| == 4
    ensures AppendUint32([], Low31(ReadUint32(src).value)) == [src[0] % 0x80, src[1], src[2], src[3]]
  {
    var v := ReadUint32(src).value;
    var cleared: bytes := [src[0] % 0x80, src[1], src[2], src[3]];
    Top1(v);
    assert Low31(v) == ReadUint32(cleared).value;
    ReadThenWrite32(cleared);
  }

  lemma PrintThenLow31(v: uint32)
    ensures Low31(Low31(v)) == Low31(v)
    ensures ReadUint32(AppendUint32([], Low31(v))) == Some(Low31(v))
  {
    WriteThenRead32([], Low31(v));
    assert AppendUint32([], Low31(v))[0..] == AppendUint32([], Low31(v));
  }

  lemma ReadsFirstFour(src: bytes)
    requires |src| >= 4
    ensures ReadUint32(src[..4]) == ReadUint32(src)
  {
  }

  lemma AppendSplits(dst: bytes, v: uint32)
    ensures AppendUint32(dst, v) == dst + AppendUint32([], v)
  {
  }

  // ---------------------------------------------------------------- header

  lemma HeaderAfterMarshal(h: Header)
    requires h.length <= MAX_UINT24
    ensures ParseHeader(MarshalHeader(h).value) == Some(h.(streamID := Low31(h.streamID)))
  {
    var out := AppendUint24([], h.length).value;
    var b := MarshalHeader(h).value;
    WriteThenRead24([], h.length);
    assert b[..3] == AppendUint24([], h.length).value[0..];
    WriteThenRead32(out + [h.typ, h.flags], Low31(h.streamID));
    PrintThenLow31(h.streamID);
  }

  /** A header printed back differs from the octets parsed in the reserved bit alone. */
  lemma MarshalAfterHeader(src: bytes)
    requires |src| == FRAME_HEADER_LENGTH
    ensures MarshalHeader(ParseHeader(src).value) == Some(src[5 := src[5] % 0x80])
  {
    var h := ParseHeader(src).value;
    ReadThenWrite24(src[..3]);
    ReservedBit(src[5..]);
    PrintThenLow31(ReadUint32(src[5..]).value);
    assert MarshalHeader(h).value == src[5 := src[5] % 0x80];
  }

  // ---------------------------------------------------------------- one frame

  lemma PriorityFieldAfterPrint(flags: uint8, priority: Option<PriorityParam>, block: bytes)
    ensures var body := PriorityField(flags, priority) + block;
      if HasFlag(flags, FLAG_PRIORITY)
      then |body| >= PRIORITY_LENGTH && body[PRIORITY_LENGTH..] == block
           && Some(PriorityOf(body[..PRIORITY_LENGTH])) == CanonPriority(flags, priority)
      else body == block
  {
    var body := PriorityField(flags, priority) + block;
    if HasFlag(flags, FLAG_PRIORITY) {
      var p := if priority.Some? then priority.value else NO_PRIORITY;
      assert body[..PRIORITY_LENGTH] == PriorityBytes(p);
      PriorityAfterPrint(p);
    }
  }

  lemma PushPromiseAfterPrint(f: Frame)
    requires f.PushPromiseFrame?
    ensures ParsePushPromise(CanonHeader(f), Payload(f)) == Some(Canon(f))
  {
    hide ReadUint32, Low31, HasFlag;
    var promised := AppendUint32([], Low31(f.promisedStreamID));
    UnpadAfterPad(HasFlag(f.header.flags, FLAG_PADDED), f.padLength, promised + f.block);
    PrintThenLow31(f.promisedStreamID);
    ReadsFirstFour(promised + f.block);
    assert (promised + f.block)[..4] == promised && (promised + f.block)[4..] == f.block;
  }

  lemma HeadersAfterPrint(f: Frame)
    requires f.HeadersFrame?
    ensures ParseHeaders(CanonHeader(f), Payload(f)) == Some(Canon(f))
  {
    hide PriorityField, PriorityOf, HasFlag;
    var flags := f.header.flags;
    UnpadAfterPad(HasFlag(flags, FLAG_PADDED), f.padLength, PriorityField(flags, f.priority) + f.block);
    PriorityFieldAfterPrint(flags, f.priority, f.block);
  }

  lemma GoAwayAfterPrint(f: Frame)
    requires f.GoAwayFrame?
    ensures ParseGoAway(CanonHeader(f), Payload(f)) == Some(Canon(f))
  {
    hide ReadUint32, Low31;
    var last := AppendUint32([], Low31(f.lastStreamID));
    PrintThenLow31(f.lastStreamID);
    WriteThenRead32(last, f.errorCode);
    assert Payload(f)[..4] == last;
    assert Payload(f)[4..8] == AppendUint32(last, f.errorCode)[4..];
    assert Payload(f)[8..] == f.debugData;
  }

  /** Parsing what any well-typed frame prints yields its canonical form. */
  lemma ParseAfterPrint(f: Frame)
    requires WellTyped(f)
    ensures ParseFrame(CanonHeader(f), Payload(f)) == Some(Canon(f))
  {
    hide AppendUint32, ReadUint32, Low31, HasFlag, SettingsBytes, SettingsOf;
    hide ParseHeaders, ParsePushPromise, ParseGoAway;
    match f
    case DataFrame(h, pad, data) => UnpadAfterPad(HasFlag(h.flags, FLAG_PADDED), pad, data);
    case HeadersFrame(_, _, _, _) => HeadersAfterPrint(f);
    case PriorityFrame(_, p) => PriorityAfterPrint(p);
    case RSTStreamFrame(_, code) =>
      WriteThenRead32([], code);
      assert Payload(f)[0..] == Payload(f);
    case SettingsFrame(_, settings) => SettingsAfterPrint(settings);
    case PushPromiseFrame(_, _, _, _) => PushPromiseAfterPrint(f);
    case GoAwayFrame(_, _, _, _) => GoAwayAfterPrint(f);
    case WindowUpdateFrame(_, increment) => PrintThenLow31(increment);
    case _ =>
  }

  /** The canonical form prints the same payload, and is its own canonical form. */
  lemma CanonIsStable(f: Frame)
    ensures Payload(Canon(f)) == Payload(f)
    ensures Canon(Canon(f)) == Canon(f)
    ensures WellTyped(f) ==> WellTyped(Canon(f))
  {
    hide AppendUint32, Low31, HasFlag, SettingsBytes;
    PrintThenLow31(f.header.streamID);
    match f
    case HeadersFrame(h, pad, priority, block) =>
      if priority.Some? { PrintThenLow31(priority.value.streamDep); }
    case PriorityFrame(_, p) => PrintThenLow31(p.streamDep);
    case PushPromiseFrame(_, _, promised, _) => PrintThenLow31(promised);
    case GoAwayFrame(_, last, _, _) => PrintThenLow31(last);
    case WindowUpdateFrame(_, increment) => PrintThenLow31(increment);
    case _ =>
  }

  // ---------------------------------------------------------------- normal form of payloads

  predicate IsPadding(h: Header, p: bytes, i: nat)
    requires i < |p|
  {
    PaddedType(h.typ) && HasFlag(h.flags, FLAG_PADDED) && i >= |p| - p[0] as int
  }

  predicate HoldsReservedBit(h: Header, i: nat) {
    || (h.typ == TYPE_PUSH_PROMISE && i == if HasFlag(h.flags, FLAG_PADDED) then 1 else 0)
    || (h.typ == TYPE_GOAWAY && i == 0)
    || (h.typ == TYPE_WINDOW_UPDATE && i == 0)
  }

  function NormalOctet(h: Header, p: bytes, i: nat): uint8
    requires i < |p|
  {
    if IsPadding(h, p, i) then 0 else if HoldsReservedBit(h, i) then p[i] % 0x80 else p[i]
  }

  predicate Normalises(h: Header, p: bytes, q: bytes) {
    |q| == |p| && forall i :: 0 <= i < |p| ==> q[i] == NormalOctet(h, p, i)
  }

  lemma NormalFormData(h: Header, p: bytes)
    requires h.typ == TYPE_DATA && ParseData(h, p).Some?
    ensures Normalises(h, p, Payload(ParseData(h, p).value))
  {
    PadAfterUnpad(HasFlag(h.flags, FLAG_PADDED), p);
  }

  lemma NormalFormHeaders(h: Header, p: bytes)
    requires h.typ == TYPE_HEADERS && ParseHeaders(h, p).Some?
    ensures Normalises(h, p, Payload(ParseHeaders(h, p).value))
  {
    hide ReadUint32, AppendUint32, ReadUint16, AppendUint16, Low31;
    var padded := HasFlag(h.flags, FLAG_PADDED);
    var u := Unpad(padded, p).value;
    PadAfterUnpad(padded, p);
    if HasFlag(h.flags, FLAG_PRIORITY) {
      PrintAfterPriority(u.body[..PRIORITY_LENGTH]);
      assert u.body == u.body[..PRIORITY_LENGTH] + u.body[PRIORITY_LENGTH..];
    } else {
      assert [] + u.body == u.body;
    }
  }

  lemma NormalFormPushPromise(h: Header, p: bytes)
    requires h.typ == TYPE_PUSH_PROMISE && ParsePushPromise(h, p).Some?
    ensures Normalises(h, p, Payload(ParsePushPromise(h, p).value))
  {
    hide ReadUint32, AppendUint32, ReadUint16, AppendUint16, Low31;
    var padded := HasFlag(h.flags, FLAG_PADDED);
    var u := Unpad(padded, p).value;
    PadAfterUnpad(padded, p);
    PrintThenLow31(ReadUint32(u.body).value);
    var cleared := u.body[0 := u.body[0] % 0x80];
    assert AppendUint32([], Low31(ReadUint32(u.body).value)) + u.body[4..] == cleared by {
      ReservedBit(u.body[..4]);
      ReadsFirstFour(u.body);
    }
    var q := Payload(ParsePushPromise(h, p).value);
    assert q == Pad(padded, u.padLength, cleared);
  }

  lemma NormalFormGoAway(h: Header, p: bytes)
    requires h.typ == TYPE_GOAWAY && ParseGoAway(h, p).Some?
    ensures Normalises(h, p, Payload(ParseGoAway(h, p).value))
  {
    hide ReadUint32, AppendUint32, Low31;
    var last := ReadUint32(p[..4]).value;
    var code := ReadUint32(p[4..8]).value;
    var first: bytes := [p[0] % 0x80, p[1], p[2], p[3]];
    ReservedBit(p[..4]);
    PrintThenLow31(last);
    AppendSplits(first, code);
    ReadThenWrite32(p[4..8]);
    assert Payload(ParseGoAway(h, p).value) == first + p[4..8] + p[8..];
  }

  lemma NormalFormWindowUpdate(h: Header, p: bytes)
    requires h.typ == TYPE_WINDOW_UPDATE && ParseWindowUpdate(h, p).Some?
    ensures Normalises(h, p, Payload(ParseWindowUpdate(h, p).value))
  {
    ReservedBit(p);
    PrintThenLow31(ReadUint32(p).value);
  }

  lemma NormalFormFixedSize(h: Header, p: bytes)
    ensures h.typ == TYPE_PRIORITY && ParsePriority(h, p).Some? ==> Normalises(h, p, Payload(ParsePriority(h, p).value))
    ensures h.typ == TYPE_SETTINGS && ParseSettings(h, p).Some? ==> Normalises(h, p, Payload(ParseSettings(h, p).value))
    ensures h.typ == TYPE_RST_STREAM && ParseRSTStream(h, p).Some? ==>
      Normalises(h, p, Payload(ParseRSTStream(h, p).value))
  {
    hide ReadUint32, AppendUint32, SettingsBytes, SettingsOf, PriorityOf, PriorityBytes, WholeEntries;
    if h.typ == TYPE_PRIORITY && |p| == PRIORITY_LENGTH { PrintAfterPriority(p); }
    if h.typ == TYPE_SETTINGS && WholeEntries(|p|) { PrintAfterSettings(p); }
    if h.typ == TYPE_RST_STREAM && |p| == 4 { ReadThenWrite32(p); }
  }

  lemma PayloadNormalForm(h: Header, p: bytes)
    requires ParseFrame(h, p).Some?
    ensures Normalises(h, p, Payload(ParseFrame(h, p).value))
  {
    hide ParseData, ParseHeaders, ParsePushPromise, ParsePriority, ParseSettings, ParseRSTStream;
    hide ParseGoAway, ParseWindowUpdate;
    if h.typ == TYPE_DATA {
      NormalFormData(h, p);
    } else if h.typ == TYPE_HEADERS {
      NormalFormHeaders(h, p);
    } else if h.typ == TYPE_PUSH_PROMISE {
      NormalFormPushPromise(h, p);
    } else if h.typ == TYPE_GOAWAY {
      NormalFormGoAway(h, p);
    } else if h.typ == TYPE_WINDOW_UPDATE {
      NormalFormWindowUpdate(h, p);
    } else {
      NormalFormFixedSize(h, p);
    }
  }

  function WithStream(f: Frame, id: uint32): Frame {
    f.(header := f.header.(streamID := id))
  }

  /** Parsers carry the stream id along and never look at it. */
  lemma StreamIsCarriedAlong(h: Header, p: bytes, id: uint32)
    ensures ParseFrame(h.(streamID := id), p)
         == if ParseFrame(h, p).None? then None else Some(WithStream(ParseFrame(h, p).value, id))
  {
    hide ReadUint32, HasFlag, SettingsOf, WholeEntries, PriorityOf, Low31, Unpad, ToUint32;
  }

  lemma PayloadIgnoresStream(f: Frame, id: uint32)
    ensures Payload(WithStream(f, id)) == Payload(f)
  {
    hide HasFlag, Pad, PriorityField, PriorityBytes, SettingsBytes, AppendUint32, Low31;
  }

  /**
    Normal form: printing a parsed payload keeps its length and every octet outside the padding and
    the reserved bits, parses to the same frame, and printing that again changes nothing. The frame is
    the one a peer would see if and only if its stream id fits 31 bits, as one read off the wire does.
   */
  lemma NormalForm(h: Header, p: bytes)
    requires ParseFrame(h, p).Some?
    ensures var f := ParseFrame(h, p).value;
      && Normalises(h, p, Payload(f))
      && ParseFrame(h, Payload(f)) == Some(f)
      && WellTyped(f)
      && (Canon(f) == f <==> h.streamID < 0x8000_0000)
  {
    hide ParseFrame, Payload, Normalises, Canon, WellTyped, Low31;
    var f := ParseFrame(h, p).value;
    PayloadNormalForm(h, p);
    NormalisesKeepsLength(h, p, Payload(f));
    ParsedKeepsHeader(h, p);
    var low := h.(streamID := Low31(h.streamID));
    var g := WithStream(f, Low31(h.streamID));
    StreamIsCarriedAlong(h, p, Low31(h.streamID));
    PayloadIgnoresStream(f, Low31(h.streamID));
    ParsedIsCanonical(low, p);
    ParseAfterPrint(g);
    CanonHeaderOf(g);
    StreamIsCarriedAlong(low, Payload(f), h.streamID);
    assert WithStream(g, h.streamID) == f;
    TypedByHeader(f, Low31(h.streamID));
    if h.streamID < 0x8000_0000 { assert g == f; } else { CanonCutsStream(f); }
  }

  lemma NormalisesKeepsLength(h: Header, p: bytes, q: bytes)
    requires Normalises(h, p, q)
    ensures |q| == |p|
  {
  }

  lemma ParsedKeepsHeader(h: Header, p: bytes)
    requires ParseFrame(h, p).Some?
    ensures ParseFrame(h, p).value.header == h && h.length == ToUint32(|p|)
  {
    hide ReadUint32, HasFlag, SettingsOf, WholeEntries, PriorityOf, Low31, Unpad, ToUint32;
  }

  lemma CanonHeaderOf(f: Frame)
    requires Canon(f) == f
    ensures CanonHeader(f) == f.header
  {
    hide Payload, HasFlag, Low31, ToUint32;
  }

  lemma CanonCutsStream(f: Frame)
    ensures Canon(f).header.streamID == Low31(f.header.streamID) < 0x8000_0000
  {
    hide Payload, HasFlag, Low31, ToUint32;
  }

  lemma TypedByHeader(f: Frame, id: uint32)
    ensures WellTyped(WithStream(f, id)) <==> WellTyped(f)
  {
  }

  lemma ParsedIsCanonical(h: Header, p: bytes)
    requires ParseFrame(h, p).Some? && h.streamID < 0x8000_0000
    requires |Payload(ParseFrame(h, p).value)| == |p|
    ensures WellTyped(ParseFrame(h, p).value)
    ensures ParseFrame(h, p).value.header == h
    ensures Canon(ParseFrame(h, p).value) == ParseFrame(h, p).value
  {
    hide ReadUint32, HasFlag, SettingsOf;
  }
}
