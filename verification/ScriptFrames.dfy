/** Building frames from script actions (script_frame.go). */
module ScriptFrames {
  import opened Results
  import opened Wire
  import opened Frames
  import opened FrameLaws
  import opened Hpack
  import opened ScriptValues

  type FlagNames = map<string, uint8>

  const SETTINGS_FLAGS: FlagNames := map["ACK" := FLAG_ACK]
  const HEADERS_FLAGS: FlagNames := map["END_STREAM" := FLAG_END_STREAM, "END_HEADERS" := FLAG_END_HEADERS,
                                        "PADDED" := FLAG_PADDED, "PRIORITY" := FLAG_PRIORITY]
  const CONTINUATION_FLAGS: FlagNames := map["END_HEADERS" := FLAG_END_HEADERS]
  const DATA_FLAGS: FlagNames := map["END_STREAM" := FLAG_END_STREAM, "PADDED" := FLAG_PADDED]
  const PING_FLAGS: FlagNames := map["ACK" := FLAG_ACK]
  const PUSH_PROMISE_FLAGS: FlagNames := map["END_HEADERS" := FLAG_END_HEADERS, "PADDED" := FLAG_PADDED]

  function BitOr(a: uint8, b: uint8): uint8 {
    assert AllOnes(0x7f);
    Or(a, b, 0xff)
  }

  function FlagByte(text: Text, names: FlagNames, raw: string): Option<uint8> {
    var name := text.flagName(raw);
    if name in names then Some(names[name]) else text.parseUint8(name)
  }

  function JoinFlags(text: Text, names: FlagNames, raws: seq<string>): Option<uint8> {
    if raws == [] then Some(0)
    else
      var before :- JoinFlags(text, names, raws[..|raws| - 1]);
      var last :- FlagByte(text, names, raws[|raws| - 1]);
      Some(BitOr(before, last))
  }

  function FlagsOf(text: Text, names: FlagNames, action: Table): Option<uint8> {
    var raws :- Default(ListField(action, KFlags), []);
    JoinFlags(text, names, raws)
  }

  method ParseFlags(text: Text, names: FlagNames, action: Table) returns (r: Option<uint8>)
    ensures r == FlagsOf(text, names, action)
  {
    hide BitOr;
    var field := ListField(action, KFlags);
    if field.Wrong? { return None; }
    if field.Absent? { return Some(0); }
    var raws := field.value;
    var flags: uint8 := 0;
    for i := 0 to |raws|
      invariant JoinFlags(text, names, raws[..i]) == Some(flags)
    {
      assert raws[..i + 1][..i] == raws[..i];
      var value := FlagByte(text, names, raws[i]);
      if value.None? {
        JoinStops(text, names, raws, i + 1);
        return None;
      }
      flags := BitOr(flags, value.value);
    }
    assert raws[..|raws|] == raws;
    r := Some(flags);
  }

  lemma {:induction false} JoinStops(text: Text, names: FlagNames, raws: seq<string>, i: nat)
    requires i <= |raws| && JoinFlags(text, names, raws[..i]) == None
    ensures JoinFlags(text, names, raws) == None
  {
    if i < |raws| {
      JoinStops(text, names, raws[..|raws| - 1], i) by { assert raws[..|raws| - 1][..i] == raws[..i]; }
    } else {
      assert raws[..i] == raws;
    }
  }

  function SettingList(text: Text, entries: seq<string>): Option<seq<Setting>> {
    if entries == [] then Some([])
    else
      var before :- SettingList(text, entries[..|entries| - 1]);
      var last :- text.parseSetting(entries[|entries| - 1]);
      Some(before + [last])
  }

  function HeaderList(text: Text, raws: seq<string>): Option<seq<HeaderField>> {
    if raws == [] then Some([])
    else
      var before :- HeaderList(text, raws[..|raws| - 1]);
      var last :- text.parseHeader(raws[|raws| - 1]);
      Some(before + [last])
  }

  method ParseScriptSettings(text: Text, entries: seq<string>) returns (r: Option<seq<Setting>>)
    ensures r == SettingList(text, entries)
  {
    var settings := [];
    for i := 0 to |entries|
      invariant SettingList(text, entries[..i]) == Some(settings)
    {
      assert entries[..i + 1][..i] == entries[..i];
      var entry := text.parseSetting(entries[i]);
      if entry.None? {
        SettingListStops(text, entries, i + 1);
        return None;
      }
      settings := settings + [entry.value];
    }
    assert entries[..|entries|] == entries;
    r := Some(settings);
  }

  lemma {:induction false} SettingListStops(text: Text, entries: seq<string>, i: nat)
    requires i <= |entries| && SettingList(text, entries[..i]) == None
    ensures SettingList(text, entries) == None
  {
    if i < |entries| {
      SettingListStops(text, entries[..|entries| - 1], i) by { assert entries[..|entries| - 1][..i] == entries[..i]; }
    } else {
      assert entries[..i] == entries;
    }
  }

  method ParseHeaderFields(text: Text, raws: seq<string>) returns (r: Option<seq<HeaderField>>)
    ensures r == HeaderList(text, raws)
  {
    var fields := [];
    for i := 0 to |raws|
      invariant HeaderList(text, raws[..i]) == Some(fields)
    {
      assert raws[..i + 1][..i] == raws[..i];
      var field := text.parseHeader(raws[i]);
      if field.None? {
        HeaderListStops(text, raws, i + 1);
        return None;
      }
      fields := fields + [field.value];
    }
    assert raws[..|raws|] == raws;
    r := Some(fields);
  }

  lemma {:induction false} HeaderListStops(text: Text, raws: seq<string>, i: nat)
    requires i <= |raws| && HeaderList(text, raws[..i]) == None
    ensures HeaderList(text, raws) == None
  {
    if i < |raws| {
      HeaderListStops(text, raws[..|raws| - 1], i) by { assert raws[..|raws| - 1][..i] == raws[..i]; }
    } else {
      assert raws[..i] == raws;
    }
  }

  /** Where a header block comes from: fields to compress, or octets given in hex. */
  datatype BlockPlan = Compress(fields: seq<HeaderField>) | Given(octets: bytes)

  function PlanBlock(text: Text, action: Table): Option<BlockPlan> {
    var headers, hex := ListField(action, KHeaders), StringField(action, KBlockHex);
    if headers.Wrong? || hex.Wrong? || headers.Present? == hex.Present? then None
    else if hex.Present? then
      var octets :- text.parseHex(hex.value);
      Some(Given(octets))
    else if headers.Present? then
      var fields :- HeaderList(text, headers.value);
      Some(Compress(fields))
    else None
  }

  /** `encoded` is the compressor's answer, used only when there are fields to compress. */
  function BlockOf(text: Text, action: Table, encoded: Option<bytes>): Option<bytes> {
    var plan :- PlanBlock(text, action);
    if plan.Given? then Some(plan.octets) else encoded
  }

  function PriorityFields(action: Table): Option<PriorityParam> {
    var dep :- Require(Uint32Field(action, KStreamDep));
    var weight :- Require(Uint8Field(action, KWeight));
    var exclusive :- Default(BoolField(action, KExclusive), false);
    Some(PriorityParam(exclusive, dep, weight))
  }

  function PingOctets(text: Text, action: Table): Option<PingData> {
    var plain, hex := StringField(action, KData), StringField(action, KDataHex);
    if plain.Wrong? || hex.Wrong? || plain.Present? == hex.Present? then None
    else
      var octets :- if plain.Present? then Some(text.toOctets(plain.value))
                    else if hex.Present? then text.parseHex(hex.value) else None;
      if |octets| == PING_LENGTH then Some(octets) else None
  }

  function ErrorCodeOf(text: Text, action: Table): Option<uint32> {
    match StringField(action, KErrorCode)
    case Absent => Some(0)
    case Present(s) => text.parseErrorCode(s)
    case Wrong => None
  }

  function DataFieldOf(text: Text, action: Table, plainKey: Key, hexKey: Key): Option<bytes> {
    var plain, hex := StringField(action, plainKey), StringField(action, hexKey);
    if plain.Wrong? || hex.Wrong? || (plain.Present? && hex.Present?) then None
    else if hex.Present? then text.parseHex(hex.value)
    else if plain.Present? then Some(text.toOctets(plain.value))
    else Some([])
  }

  /** The constructors' last step: the length field says how long the payload is. */
  function Sized(f: Frame): (r: Frame)
    ensures r.header.length == ToUint32(|Payload(r)|)
  {
    hide HasFlag, ToUint32, Pad, PriorityField, PriorityBytes, SettingsBytes, AppendUint32, Low31;
    f.(header := f.header.(length := ToUint32(|Payload(f)|)))
  }

  /** A typed frame whose header agrees with its kind and its payload. */
  predicate Proper(f: Frame) {
    WellTyped(f) && !f.RawFrame? && f.header.length == ToUint32(|Payload(f)|)
  }

  function BuildSettings(text: Text, action: Table): (r: Option<Frame>)
    ensures r.Some? ==> Proper(r.value)
  {
    hide Payload, ToUint32;
    var entries :- Default(ListField(action, KSettings), []);
    var settings :- SettingList(text, entries);
    var flags :- FlagsOf(text, SETTINGS_FLAGS, action);
    Some(Sized(SettingsFrame(Header(0, TYPE_SETTINGS, flags, 0), settings)))
  }

  function BuildHeaders(text: Text, action: Table, encoded: Option<bytes>): (r: Option<Frame>)
    ensures r.Some? ==> Proper(r.value)
  {
    hide Payload, ToUint32;
    var stream :- Require(Uint32Field(action, KStreamID));
    var flags :- FlagsOf(text, HEADERS_FLAGS, action);
    var block :- BlockOf(text, action, encoded);
    var priority :- if !HasFlag(flags, FLAG_PRIORITY) then Some(None)
                    else (var p :- PriorityFields(action); Some(Some(p)));
    var pad :- Default(Uint8Field(action, KPadLength), 0);
    Some(Sized(HeadersFrame(Header(0, TYPE_HEADERS, flags, stream), pad, priority, block)))
  }

  function BuildContinuation(text: Text, action: Table): (r: Option<Frame>)
    ensures r.Some? ==> Proper(r.value)
  {
    hide Payload, ToUint32;
    var stream :- Require(Uint32Field(action, KStreamID));
    var flags :- FlagsOf(text, CONTINUATION_FLAGS, action);
    var hex :- Require(StringField(action, KBlockHex));
    var block :- text.parseHex(hex);
    Some(Sized(ContinuationFrame(Header(0, TYPE_CONTINUATION, flags, stream), block)))
  }

  function BuildData(text: Text, action: Table): (r: Option<Frame>)
    ensures r.Some? ==> Proper(r.value)
  {
    hide Payload, ToUint32;
    var stream :- Require(Uint32Field(action, KStreamID));
    var flags :- FlagsOf(text, DATA_FLAGS, action);
    var data :- DataFieldOf(text, action, KData, KDataHex);
    var pad :- Default(Uint8Field(action, KPadLength), 0);
    Some(Sized(DataFrame(Header(0, TYPE_DATA, flags, stream), pad, data)))
  }

  function BuildPing(text: Text, action: Table): (r: Option<Frame>)
    ensures r.Some? ==> Proper(r.value)
  {
    hide Payload, ToUint32;
    var flags :- FlagsOf(text, PING_FLAGS, action);
    var data :- PingOctets(text, action);
    Some(Sized(PingFrame(Header(0, TYPE_PING, flags, 0), data)))
  }

  function BuildGoAway(text: Text, action: Table): (r: Option<Frame>)
    ensures r.Some? ==> Proper(r.value)
  {
    hide Payload, ToUint32;
    var last :- Require(Uint32Field(action, KLastStreamID));
    var code :- ErrorCodeOf(text, action);
    var debug :- DataFieldOf(text, action, KDebugData, KDebugHex);
    Some(Sized(GoAwayFrame(Header(0, TYPE_GOAWAY, 0, 0), last, code, debug)))
  }

  function BuildWindowUpdate(action: Table): (r: Option<Frame>)
    ensures r.Some? ==> Proper(r.value)
  {
    hide Payload, ToUint32;
    var stream :- Require(Uint32Field(action, KStreamID));
    var increment :- Require(Uint32Field(action, KIncrement));
    Some(Sized(WindowUpdateFrame(Header(0, TYPE_WINDOW_UPDATE, 0, stream), increment)))
  }

  function BuildRSTStream(text: Text, action: Table): (r: Option<Frame>)
    ensures r.Some? ==> Proper(r.value)
  {
    hide Payload, ToUint32;
    var stream :- Require(Uint32Field(action, KStreamID));
    var code :- ErrorCodeOf(text, action);
    Some(Sized(RSTStreamFrame(Header(0, TYPE_RST_STREAM, 0, stream), code)))
  }

  function BuildPriority(action: Table): (r: Option<Frame>)
    ensures r.Some? ==> Proper(r.value)
  {
    hide Payload, ToUint32;
    var stream :- Require(Uint32Field(action, KStreamID));
    var p :- PriorityFields(action);
    Some(Sized(PriorityFrame(Header(0, TYPE_PRIORITY, 0, stream), p)))
  }

  function BuildPushPromise(text: Text, action: Table, encoded: Option<bytes>): (r: Option<Frame>)
    ensures r.Some? ==> Proper(r.value)
  {
    hide Payload, ToUint32;
    var stream :- Require(Uint32Field(action, KStreamID));
    var promised :- Require(Uint32Field(action, KPromisedStreamID));
    var flags :- FlagsOf(text, PUSH_PROMISE_FLAGS, action);
    var block :- BlockOf(text, action, encoded);
    var pad :- Default(Uint8Field(action, KPadLength), 0);
    Some(Sized(PushPromiseFrame(Header(0, TYPE_PUSH_PROMISE, flags, stream), pad, promised, block)))
  }

  /** With an explicit length the header is sent as written, true or not. */
  function BuildRaw(text: Text, action: Table): Option<Frame> {
    var typ :- Require(Uint8Field(action, KFrameType));
    var stream :- Require(Uint32Field(action, KStreamID));
    var flags :- Require(Uint8Field(action, KFlags));
    var hex :- Require(StringField(action, KPayloadHex));
    var payload :- text.parseHex(hex);
    match Uint32Field(action, KLength)
    case Absent => Some(RawFrameFromParts(Header(0, typ, flags, stream), payload))
    case Present(length) => Some(RawFrame(Header(length, typ, flags, stream), payload))
    case Wrong => None
  }

  function ActionTypeOf(text: Text, action: Table): Option<ActionType> {
    var name :- Require(StringField(action, KType));
    Some(text.actionOf(name))
  }

  function BuildFrame(text: Text, action: Table, encoded: Option<bytes>): Option<Frame> {
    var t :- ActionTypeOf(text, action);
    match t
    case SettingsAction => BuildSettings(text, action)
    case HeadersAction => BuildHeaders(text, action, encoded)
    case ContinuationAction => BuildContinuation(text, action)
    case DataAction => BuildData(text, action)
    case PingAction => BuildPing(text, action)
    case GoAwayAction => BuildGoAway(text, action)
    case WindowUpdateAction => BuildWindowUpdate(action)
    case RSTStreamAction => BuildRSTStream(text, action)
    case PriorityAction => BuildPriority(action)
    case PushPromiseAction => BuildPushPromise(text, action, encoded)
    case RawAction => BuildRaw(text, action)
    case _ => None
  }
}
