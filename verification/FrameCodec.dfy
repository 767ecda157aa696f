/**
  The encoders and decoders of package frame, step by step as they fill their buffers and advance
  their offsets, each proved against the layout in `Frames`.
 */
module FrameCodec {
  import opened Results
  import opened Wire
  import opened Frames
  import opened FrameLaws

  // ---------------------------------------------------------------- payloads

  method DataPayload(f: Frame) returns (payload: bytes)
    requires f.DataFrame?
    ensures payload == Payload(f)
  {
    payload := [];
    if HasFlag(f.header.flags, FLAG_PADDED) {
      payload := payload + [f.padLength];
    }
    payload := payload + f.data;
    if HasFlag(f.header.flags, FLAG_PADDED) {
      payload := payload + Zeros(f.padLength);
    }
  }

  method HeadersPayload(f: Frame) returns (payload: bytes)
    requires f.HeadersFrame?
    ensures payload == Payload(f)
  {
    hide Low31, HasFlag;
    var flags := f.header.flags;
    payload := [];
    if HasFlag(flags, FLAG_PADDED) {
      payload := payload + [f.padLength];
    }
    ghost var front := payload;
    if HasFlag(flags, FLAG_PRIORITY) {
      var dep: uint32 := 0;
      if f.priority.Some? {
        dep := Low31(f.priority.value.streamDep);
        if f.priority.value.exclusive {
          dep := dep + 0x8000_0000;
        }
      }
      payload := AppendUint32(payload, dep);
      if f.priority.Some? {
        payload := payload + [f.priority.value.weight];
      } else {
        payload := payload + [0];
      }
    }
    assert payload == front + PriorityField(flags, f.priority);
    payload := payload + f.block;
    if HasFlag(flags, FLAG_PADDED) {
      payload := payload + Zeros(f.padLength);
    }
  }

  method PushPromisePayload(f: Frame) returns (payload: bytes)
    requires f.PushPromiseFrame?
    ensures payload == Payload(f)
  {
    payload := [];
    if HasFlag(f.header.flags, FLAG_PADDED) {
      payload := payload + [f.padLength];
    }
    ghost var front := payload;
    payload := AppendUint32(payload, Low31(f.promisedStreamID));
    assert payload == front + AppendUint32([], Low31(f.promisedStreamID));
    payload := payload + f.block;
    if HasFlag(f.header.flags, FLAG_PADDED) {
      payload := payload + Zeros(f.padLength);
    }
  }

  method SettingsPayload(f: Frame) returns (payload: bytes)
    requires f.SettingsFrame?
    ensures payload == Payload(f)
  {
    payload := [];
    for i := 0 to |f.settings|
      invariant payload == SettingsBytes(f.settings[..i])
    {
      var s := f.settings[i];
      ghost var before := payload;
      payload := AppendUint16(payload, s.id);
      payload := AppendUint32(payload, s.value);
      assert payload == before + SettingBytes(s);
      assert f.settings[..i + 1][..i] == f.settings[..i];
    }
    assert f.settings[..|f.settings|] == f.settings;
  }

  method GoAwayPayload(f: Frame) returns (payload: bytes)
    requires f.GoAwayFrame?
    ensures payload == Payload(f)
  {
    payload := [];
    var last := Low31(f.lastStreamID);
    payload := AppendUint32(payload, last);
    payload := AppendUint32(payload, f.errorCode);
    payload := payload + f.debugData;
  }

  method PriorityPayload(f: Frame) returns (payload: bytes)
    requires f.PriorityFrame?
    ensures payload == Payload(f)
  {
    var dep: uint32 := Low31(f.param.streamDep);
    if f.param.exclusive {
      dep := dep + 0x8000_0000;
    }
    payload := AppendUint32([], dep);
    payload := payload + [f.param.weight];
  }

  method BuildPayload(f: Frame) returns (payload: bytes)
    ensures payload == Payload(f)
  {
    match f
    case DataFrame(_, _, _) => payload := DataPayload(f);
    case HeadersFrame(_, _, _, _) => payload := HeadersPayload(f);
    case PriorityFrame(_, _) => payload := PriorityPayload(f);
    case SettingsFrame(_, _) => payload := SettingsPayload(f);
    case PushPromiseFrame(_, _, _, _) => payload := PushPromisePayload(f);
    case GoAwayFrame(_, _, _, _) => payload := GoAwayPayload(f);
    case _ => payload := Payload(f);
  }

  // ---------------------------------------------------------------- parsers

  /** Cutting a slice in two. */
  lemma SplitSlice(s: bytes, a: nat, b: nat, c: nat)
    requires a <= b <= c <= |s|
    ensures s[a..c][..b - a] == s[a..b] && s[a..c][b - a..] == s[b..c]
  {
  }

  method ParseDataFrame(header: Header, payload: bytes) returns (r: Option<Frame>)
    ensures r == ParseData(header, payload)
  {
    var padLength: uint8 := 0;
    var offset := 0;
    if HasFlag(header.flags, FLAG_PADDED) {
      if |payload| == 0 { return None; }
      padLength := payload[0];
      offset := offset + 1;
    }
    if |payload| < offset + padLength as int { return None; }
    assert payload[0..|payload|] == payload;
    r := Some(DataFrame(header, padLength, payload[offset..|payload| - padLength]));
  }

  method ParseHeadersFrame(header: Header, payload: bytes) returns (r: Option<Frame>)
    ensures r == ParseHeaders(header, payload)
  {
    var padLength: uint8 := 0;
    var priority: Option<PriorityParam> := None;
    var offset := 0;
    if HasFlag(header.flags, FLAG_PADDED) {
      if |payload| == 0 { return None; }
      padLength := payload[0];
      offset := offset + 1;
    }
    ghost var start := offset;
    if HasFlag(header.flags, FLAG_PRIORITY) {
      if |payload| < offset + PRIORITY_LENGTH { return None; }
      var dep := ReadUint32(payload[offset..offset + 4]).value;
      priority := Some(PriorityParam(dep >= 0x8000_0000, Low31(dep), payload[offset + 4]));
      SplitSlice(payload, offset, offset + 4, offset + PRIORITY_LENGTH);
      assert priority == Some(PriorityOf(payload[offset..offset + PRIORITY_LENGTH]));
      offset := offset + PRIORITY_LENGTH;
    }
    if |payload| < offset + padLength as int { return None; }
    ghost var end := |payload| - padLength;
    assert payload[0..|payload|] == payload;
    SplitSlice(payload, start, offset, end);
    r := Some(HeadersFrame(header, padLength, priority, payload[offset..|payload| - padLength]));
  }

  lemma SameFirstFour(s: bytes, t: bytes)
    requires |s| >= 4 && |t| == 4 && s[..4] == t
    ensures ReadUint32(s) == ReadUint32(t)
  {
    assert forall i :: 0 <= i < 4 ==> s[i] == s[..4][i];
  }

  method ParsePushPromiseFrame(header: Header, payload: bytes) returns (r: Option<Frame>)
    ensures r == ParsePushPromise(header, payload)
  {
    var padLength: uint8 := 0;
    var offset := 0;
    if HasFlag(header.flags, FLAG_PADDED) {
      if |payload| == 0 { return None; }
      padLength := payload[0];
      offset := offset + 1;
    }
    if |payload| < offset + 4 { return None; }
    var promised := ReadUint32(payload[offset..offset + 4]).value;
    promised := Low31(promised);
    ghost var start := offset;
    offset := offset + 4;
    if |payload| < offset + padLength as int { return None; }
    ghost var end := |payload| - padLength;
    assert payload[0..|payload|] == payload;
    SplitSlice(payload, start, offset, end);
    SameFirstFour(payload[start..end], payload[start..offset]);
    r := Some(PushPromiseFrame(header, padLength, promised, payload[offset..|payload| - padLength]));
  }

  lemma NextSetting(payload: bytes, i: nat)
    requires i + SETTING_ENTRY_LENGTH <= |payload|
    ensures SettingsOf(payload[..i + SETTING_ENTRY_LENGTH])
         == SettingsOf(payload[..i])
            + [Setting(ReadUint16(payload[i..i + 2]).value, ReadUint32(payload[i + 2..i + 6]).value)]
  {
    var upTo := payload[..i + SETTING_ENTRY_LENGTH];
    var entry := upTo[i..];
    assert upTo[..i] == payload[..i];
    assert entry[..2] == payload[i..i + 2] && entry[2..] == payload[i + 2..i + 6];
  }

  lemma NextEntryFits(i: nat, n: nat)
    requires WholeEntries(i) && WholeEntries(n) && i < n
    ensures i + SETTING_ENTRY_LENGTH <= n && WholeEntries(i + SETTING_ENTRY_LENGTH)
  {
  }

  method ParseSettingsFrame(header: Header, payload: bytes) returns (r: Option<Frame>)
    ensures r == ParseSettings(header, payload)
  {
    assert SettingsOf(payload[..0]) == [] && WholeEntries(0);
    hide ReadUint32, ReadUint16, SettingsOf, WholeEntries;
    if !WholeEntries(|payload|) { return None; }
    var settings: seq<Setting> := [];
    var i := 0;
    while i < |payload|
      invariant 0 <= i <= |payload| && WholeEntries(i)
      invariant settings == SettingsOf(payload[..i])
    {
      NextEntryFits(i, |payload|);
      var id := ReadUint16(payload[i..i + 2]).value;
      var valueStart := i + 2;
      var value := ReadUint32(payload[valueStart..valueStart + 4]).value;
      settings := settings + [Setting(id, value)];
      NextSetting(payload, i);
      i := i + SETTING_ENTRY_LENGTH;
    }
    assert payload[..|payload|] == payload;
    r := Some(SettingsFrame(header, settings));
  }

  method Unmarshal(header: Header, payload: bytes) returns (r: Option<Frame>)
    ensures r == ParseFrame(header, payload)
  {
    if ToUint32(|payload|) != header.length { return None; }
    if header.typ == TYPE_DATA {
      r := ParseDataFrame(header, payload);
    } else if header.typ == TYPE_HEADERS {
      r := ParseHeadersFrame(header, payload);
    } else if header.typ == TYPE_SETTINGS {
      r := ParseSettingsFrame(header, payload);
    } else if header.typ == TYPE_PUSH_PROMISE {
      r := ParsePushPromiseFrame(header, payload);
    } else {
      r := ParseFrame(header, payload);
    }
  }

  // ---------------------------------------------------------------- whole frames

  method MarshalHeaderBinary(h: Header) returns (r: Option<bytes>)
    ensures r == MarshalHeader(h)
  {
    var out: bytes := [];
    var sized := AppendUint24(out, h.length);
    if sized.None? { return None; }
    out := sized.value;
    out := out + [h.typ, h.flags];
    out := AppendUint32(out, Low31(h.streamID));
    r := Some(out);
  }

  method Encode(header: Header, payload: bytes) returns (r: Option<bytes>)
    ensures var head := MarshalHeader(header.(length := ToUint32(|payload|)));
      r == if head.None? then None else Some(head.value + payload)
    ensures r.Some? <==> ToUint32(|payload|) <= MAX_UINT24
    ensures r.Some? ==>
      && |r.value| == FRAME_HEADER_LENGTH + |payload| && r.value[FRAME_HEADER_LENGTH..] == payload
      && ParseHeader(r.value[..FRAME_HEADER_LENGTH])
         == Some(header.(length := ToUint32(|payload|), streamID := Low31(header.streamID)))
  {
    hide ParseHeader, MarshalHeader, ToUint32, Low31;
    var h := header.(length := ToUint32(|payload|));
    var head := MarshalHeaderBinary(h);
    if head.None? { return None; }
    HeaderAfterMarshal(h);
    assert (head.value + payload)[..FRAME_HEADER_LENGTH] == head.value;
    r := Some(head.value + payload);
  }

  method MarshalBinary(f: Frame) returns (r: Option<bytes>)
    ensures r == Marshal(f)
  {
    var payload := BuildPayload(f);
    if f.RawFrame? {
      var head := MarshalHeaderBinary(f.header);
      if head.None? { return None; }
      r := Some(head.value + payload);
    } else {
      r := Encode(f.header, payload);
    }
  }
}
