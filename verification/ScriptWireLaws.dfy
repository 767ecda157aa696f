/** What a peer reads of a script action: the fields of the table, as far as the wire can carry them. */
module ScriptWireLaws {
  import opened Results
  import opened Wire
  import opened Frames
  import opened FrameLaws
  import opened Streams
  import opened ScriptValues
  import opened ScriptFrames
  import opened ScriptSpecs
  import opened ScriptBuildLaws
  import opened ScriptMeaning
  import opened ScriptMeaningLaws

  // ---------------------------------------------------------------- in terms of the accessors

  /** The wire carries 31 bits of an id. */
  predicate TakesId(action: Table, key: Key, id: uint32) {
    var field := Uint32Field(action, key);
    field.Present? && id == Low31(field.value)
  }

  /** The pad length arrives exactly if the flags say there is one. */
  predicate TakesPad(action: Table, flags: uint8, pad: uint8) {
    match Uint8Field(action, KPadLength)
    case Absent => pad == 0
    case Present(n) => pad == if HasFlag(flags, FLAG_PADDED) then n else 0
    case Wrong => false
  }

  predicate TakesPriority(action: Table, p: PriorityParam) {
    && TakesId(action, KStreamDep, p.streamDep)
    && Uint8Field(action, KWeight) == Present(p.weight)
    && Default(BoolField(action, KExclusive), false) == Some(p.exclusive)
  }

  predicate TakesFlags(text: Text, names: FlagNames, action: Table, f: Frame) {
    FlagsOf(text, names, action) == Some(f.header.flags)
  }

  predicate TakesStream(t: ActionType, action: Table, f: Frame) {
    if FieldKind(t, KStreamID).Some? then TakesId(action, KStreamID, f.header.streamID) else f.header.streamID == 0
  }

  predicate TakesFields(text: Text, t: ActionType, action: Table, encoded: Option<bytes>, f: Frame) {
    match t
    case SettingsAction =>
      && f.SettingsFrame? && TakesFlags(text, SETTINGS_FLAGS, action, f)
      && (var entries := ListField(action, KSettings);
          if entries.Absent? then f.settings == []
          else entries.Present? && SettingList(text, entries.value) == Some(f.settings))
    case HeadersAction =>
      && f.HeadersFrame? && TakesFlags(text, HEADERS_FLAGS, action, f)
      && BlockOf(text, action, encoded) == Some(f.block)
      && TakesPad(action, f.header.flags, f.padLength)
      && (f.priority.Some? <==> HasFlag(f.header.flags, FLAG_PRIORITY))
      && (f.priority.Some? ==> TakesPriority(action, f.priority.value))
    case ContinuationAction =>
      && f.ContinuationFrame? && TakesFlags(text, CONTINUATION_FLAGS, action, f)
      && StringField(action, KBlockHex).Present?
      && text.parseHex(StringField(action, KBlockHex).value) == Some(f.block)
    case DataAction =>
      && f.DataFrame? && TakesFlags(text, DATA_FLAGS, action, f)
      && DataFieldOf(text, action, KData, KDataHex) == Some(f.data)
      && TakesPad(action, f.header.flags, f.padLength)
    case PingAction =>
      && f.PingFrame? && TakesFlags(text, PING_FLAGS, action, f)
      && PingOctets(text, action) == Some(f.pingData)
    case GoAwayAction =>
      && f.GoAwayFrame? && f.header.flags == 0
      && TakesId(action, KLastStreamID, f.lastStreamID)
      && ErrorCodeOf(text, action) == Some(f.errorCode)
      && DataFieldOf(text, action, KDebugData, KDebugHex) == Some(f.debugData)
    case WindowUpdateAction =>
      && f.WindowUpdateFrame? && f.header.flags == 0
      && TakesId(action, KIncrement, f.increment)
    case RSTStreamAction =>
      && f.RSTStreamFrame? && f.header.flags == 0
      && ErrorCodeOf(text, action) == Some(f.errorCode)
    case PriorityAction =>
      && f.PriorityFrame? && f.header.flags == 0
      && TakesPriority(action, f.param)
    case PushPromiseAction =>
      && f.PushPromiseFrame? && TakesFlags(text, PUSH_PROMISE_FLAGS, action, f)
      && TakesId(action, KPromisedStreamID, f.promisedStreamID)
      && BlockOf(text, action, encoded) == Some(f.block)
      && TakesPad(action, f.header.flags, f.padLength)
    case RawAction =>
      && f.RawFrame?
      && Uint8Field(action, KFrameType) == Present(f.header.typ)
      && Uint8Field(action, KFlags) == Present(f.header.flags)
      && StringField(action, KPayloadHex).Present?
      && text.parseHex(StringField(action, KPayloadHex).value) == Some(f.payload)
    case _ => false
  }

  lemma HeadersSay(text: Text, action: Table, encoded: Option<bytes>)
    requires BuildHeaders(text, action, encoded).Some?
    ensures TakesFields(text, HeadersAction, action, encoded, Canon(BuildHeaders(text, action, encoded).value))
  {
    hide FlagsOf, BlockOf, PingOctets, ErrorCodeOf, DataFieldOf, SettingList, HasFlag, ToUint32;
    hide Payload, Uint32Field, Uint8Field, ListField, BoolField, StringField, Low31, TableOk, FieldKind;
  }

  lemma PushPromiseSays(text: Text, action: Table, encoded: Option<bytes>)
    requires BuildPushPromise(text, action, encoded).Some?
    ensures TakesFields(text, PushPromiseAction, action, encoded, Canon(BuildPushPromise(text, action, encoded).value))
  {
    hide FlagsOf, BlockOf, PingOctets, ErrorCodeOf, DataFieldOf, SettingList, HasFlag, ToUint32;
    hide Payload, Uint32Field, Uint8Field, ListField, BoolField, StringField, Low31, TableOk, FieldKind;
  }

  lemma DataSays(text: Text, action: Table, encoded: Option<bytes>)
    requires BuildData(text, action).Some?
    ensures TakesFields(text, DataAction, action, encoded, Canon(BuildData(text, action).value))
  {
    hide FlagsOf, BlockOf, PingOctets, ErrorCodeOf, DataFieldOf, SettingList, HasFlag, ToUint32;
    hide Payload, Uint32Field, Uint8Field, ListField, BoolField, StringField, Low31, TableOk, FieldKind;
  }

  lemma FlaggedFrameSays(text: Text, t: ActionType, action: Table, encoded: Option<bytes>)
    requires ActionTypeOf(text, action) == Some(t) && (t.SettingsAction? || t.ContinuationAction? || t.PingAction?)
    requires BuildFrame(text, action, encoded).Some?
    ensures TakesFields(text, t, action, encoded, Canon(BuildFrame(text, action, encoded).value))
  {
    assert SettingList(text, []) == Some([]);
    hide ActionTypeOf, BuildHeaders, BuildPushPromise, BuildData, BuildRaw;
    hide BuildGoAway, BuildWindowUpdate, BuildRSTStream, BuildPriority;
    hide FlagsOf, BlockOf, PingOctets, ErrorCodeOf, DataFieldOf, SettingList, HasFlag, ToUint32;
    hide Payload, Uint32Field, Uint8Field, ListField, BoolField, StringField, Low31, TableOk, FieldKind;
  }

  lemma PlainFrameSays(text: Text, t: ActionType, action: Table, encoded: Option<bytes>)
    requires ActionTypeOf(text, action) == Some(t)
    requires t.GoAwayAction? || t.WindowUpdateAction? || t.RSTStreamAction? || t.PriorityAction?
    requires BuildFrame(text, action, encoded).Some?
    ensures TakesFields(text, t, action, encoded, Canon(BuildFrame(text, action, encoded).value))
  {
    hide ActionTypeOf, BuildHeaders, BuildPushPromise, BuildData, BuildRaw, BuildSettings, BuildContinuation, BuildPing;
    hide FlagsOf, BlockOf, PingOctets, ErrorCodeOf, DataFieldOf, SettingList, HasFlag, ToUint32;
    hide Payload, Uint32Field, Uint8Field, ListField, BoolField, StringField, Low31, TableOk, FieldKind;
  }

  lemma RawSays(text: Text, action: Table)
    requires BuildRaw(text, action).Some?
    ensures TakesFields(text, RawAction, action, None, Canon(BuildRaw(text, action).value))
  {
    hide Payload, Uint32Field, Uint8Field, StringField, Low31, ToUint32, TableOk, FieldKind, HasFlag;
  }

  lemma RawIgnoresAnswer(text: Text, action: Table, encoded: Option<bytes>, f: Frame)
    ensures TakesFields(text, RawAction, action, encoded, f) <==> TakesFields(text, RawAction, action, None, f)
  {
  }

  lemma FieldsSurvive(text: Text, t: ActionType, action: Table, encoded: Option<bytes>)
    requires ActionTypeOf(text, action) == Some(t) && BuildsFrame(t)
    requires BuildFrame(text, action, encoded).Some?
    ensures TakesFields(text, t, action, encoded, Canon(BuildFrame(text, action, encoded).value))
  {
    hide TakesFields, Canon, ActionTypeOf;
    hide BuildSettings, BuildHeaders, BuildContinuation, BuildData, BuildPing, BuildGoAway;
    hide BuildWindowUpdate, BuildRSTStream, BuildPriority, BuildPushPromise, BuildRaw;
    match t {
      case HeadersAction => HeadersSay(text, action, encoded);
      case PushPromiseAction => PushPromiseSays(text, action, encoded);
      case DataAction => DataSays(text, action, encoded);
      case SettingsAction => FlaggedFrameSays(text, t, action, encoded);
      case ContinuationAction => FlaggedFrameSays(text, t, action, encoded);
      case PingAction => FlaggedFrameSays(text, t, action, encoded);
      case RawAction =>
        RawSays(text, action);
        RawIgnoresAnswer(text, action, encoded, Canon(BuildFrame(text, action, encoded).value));
      case _ => PlainFrameSays(text, t, action, encoded);
    }
  }

  lemma StreamSurvives(text: Text, t: ActionType, action: Table, encoded: Option<bytes>)
    requires ActionTypeOf(text, action) == Some(t) && BuildsFrame(t)
    requires BuildFrame(text, action, encoded).Some?
    ensures TakesStream(t, action, Canon(BuildFrame(text, action, encoded).value))
  {
    if FieldKind(t, KStreamID).Some? {
      hide BuildFrame, HasFlag, ToUint32, Low31, Payload, Uint32Field, ActionTypeOf, FieldKind;
      BuiltFramesKeepTheirStream(text, t, action, encoded);
      CanonCutsStream(BuildFrame(text, action, encoded).value);
      hide Canon;
    } else {
      hide FlagsOf, BlockOf, PingOctets, ErrorCodeOf, DataFieldOf, SettingList, HasFlag, ToUint32;
      hide Payload, Uint32Field, Uint8Field, ListField, BoolField, StringField;
      hide BuildHeaders, BuildPushPromise, BuildData;
    }
  }

  // ---------------------------------------------------------------- in terms of the table

  lemma IdIsTold(action: Table, key: Key, id: uint32)
    requires TakesId(action, key, id)
    ensures TellsId(action, key, id)
  {
    NumberIsTold(action, key);
  }

  lemma PadIsTold(action: Table, flags: uint8, pad: uint8)
    requires TakesPad(action, flags, pad)
    ensures TellsPad(action, flags, pad)
  {
    hide HasFlag;
    NumberIsTold(action, KPadLength);
  }

  lemma TakenPriorityIsTold(action: Table, p: PriorityParam)
    requires TakesPriority(action, p)
    ensures TellsPriority(action, p)
  {
    NumberIsTold(action, KStreamDep);
    NumberIsTold(action, KWeight);
  }

  lemma StreamIsTold(t: ActionType, action: Table, f: Frame)
    requires TakesStream(t, action, f) && BuildsFrame(t)
    ensures if OnNoStream(t) then f.header.streamID == 0 else TellsId(action, KStreamID, f.header.streamID)
  {
    StreamTypes(t);
    hide FieldKind, Low31;
    if !OnNoStream(t) { IdIsTold(action, KStreamID, f.header.streamID); }
  }

  lemma BlockFrameIsTold(text: Text, t: ActionType, action: Table, encoded: Option<bytes>, f: Frame)
    requires t.HeadersAction? || t.PushPromiseAction? || t.ContinuationAction? || t.DataAction?
    requires TakesFields(text, t, action, encoded, f) && TakesStream(t, action, f)
    ensures Says(text, t, action, encoded, f)
  {
    StreamIsTold(t, action, f);
    NamesAreKnown();
    hide TakesStream, FlagsOf, NamesOf, DataFieldOf, BlockOf, TakesPad, TakesPriority, TakesId, HasFlag;
    hide TellsFlags, TellsPad, TellsPriority, TellsId, TellsBlock, TellsOctets, TellsHex, StringField;
    match t {
      case HeadersAction =>
        FlagsAreTold(text, t, HEADERS_FLAGS, action, f.header.flags);
        BlockIsTold(text, action, encoded, f.block);
        PadIsTold(action, f.header.flags, f.padLength);
        if f.priority.Some? { TakenPriorityIsTold(action, f.priority.value); }
      case PushPromiseAction =>
        FlagsAreTold(text, t, PUSH_PROMISE_FLAGS, action, f.header.flags);
        IdIsTold(action, KPromisedStreamID, f.promisedStreamID);
        BlockIsTold(text, action, encoded, f.block);
        PadIsTold(action, f.header.flags, f.padLength);
      case ContinuationAction =>
        FlagsAreTold(text, t, CONTINUATION_FLAGS, action, f.header.flags);
        HexIsTold(text, action, KBlockHex, f.block);
      case DataAction =>
        FlagsAreTold(text, t, DATA_FLAGS, action, f.header.flags);
        OctetsAreTold(text, action, KData, KDataHex, f.data);
        PadIsTold(action, f.header.flags, f.padLength);
    }
  }

  lemma OtherFrameIsTold(text: Text, t: ActionType, action: Table, encoded: Option<bytes>, f: Frame)
    requires !t.HeadersAction? && !t.PushPromiseAction? && !t.ContinuationAction? && !t.DataAction? && BuildsFrame(t)
    requires TakesFields(text, t, action, encoded, f) && TakesStream(t, action, f)
    ensures Says(text, t, action, encoded, f)
  {
    StreamIsTold(t, action, f);
    NamesAreKnown();
    NumberIsTold(action, KFrameType);
    NumberIsTold(action, KFlags);
    if t.SettingsAction? { SettingsAreDefaulted(text, action, f); }
    hide TakesStream, FlagsOf, NamesOf, DataFieldOf, PingOctets, ErrorCodeOf, TakesPriority, TakesId, HasFlag;
    hide TellsFlags, TellsPriority, TellsId, TellsOctets, TellsOneOf, TellsHex, TellsErrorCode, TellsSettings;
    hide SettingList, ListField, StringField, Uint8Field;
    match t {
      case SettingsAction =>
        FlagsAreTold(text, t, SETTINGS_FLAGS, action, f.header.flags);
        SettingsAreTold(text, action, f.settings);
      case PingAction =>
        FlagsAreTold(text, t, PING_FLAGS, action, f.header.flags);
        PingIsTold(text, action, f.pingData);
      case GoAwayAction =>
        IdIsTold(action, KLastStreamID, f.lastStreamID);
        ErrorCodeIsTold(text, action, f.errorCode);
        OctetsAreTold(text, action, KDebugData, KDebugHex, f.debugData);
      case WindowUpdateAction => IdIsTold(action, KIncrement, f.increment);
      case RSTStreamAction => ErrorCodeIsTold(text, action, f.errorCode);
      case PriorityAction => TakenPriorityIsTold(action, f.param);
      case RawAction => HexIsTold(text, action, KPayloadHex, f.payload);
    }
  }

  lemma SettingsAreDefaulted(text: Text, action: Table, f: Frame)
    requires TakesFields(text, SettingsAction, action, None, f) && f.SettingsFrame?
    ensures var entries := Default(ListField(action, KSettings), []);
      entries.Some? && SettingList(text, entries.value) == Some(f.settings)
  {
    hide FlagsOf;
    assert SettingList(text, []) == Some([]);
  }

  /** The frame a peer sees of a built one says its table. */
  lemma CanonSays(text: Text, t: ActionType, action: Table, encoded: Option<bytes>)
    requires ActionTypeOf(text, action) == Some(t) && BuildsFrame(t) && BuildFrame(text, action, encoded).Some?
    ensures Says(text, t, action, encoded, Canon(BuildFrame(text, action, encoded).value))
  {
    hide BuildFrame, Canon, TakesStream, TakesFields, ActionTypeOf, Says;
    StreamSurvives(text, t, action, encoded);
    FieldsSurvive(text, t, action, encoded);
    var f := Canon(BuildFrame(text, action, encoded).value);
    if t.HeadersAction? || t.PushPromiseAction? || t.ContinuationAction? || t.DataAction? {
      BlockFrameIsTold(text, t, action, encoded, f);
    } else {
      OtherFrameIsTold(text, t, action, encoded, f);
    }
  }

  /** Whatever follows on the wire, the peer's next frame is the one the script wrote, field by field. */
  lemma PeerReadsWhatTheScriptSays(text: Text, t: ActionType, action: Table, encoded: Option<bytes>, rest: bytes)
    requires ActionTypeOf(text, action) == Some(t) && BuildsFrame(t) && t != RawAction
    requires BuildFrame(text, action, encoded).Some?
    requires |Payload(BuildFrame(text, action, encoded).value)| <= MAX_UINT24
    ensures var read := TakeFrame(Octets(BuildFrame(text, action, encoded).value) + rest);
      read.Got? && read.rest == rest && Says(text, t, action, encoded, read.frame)
  {
    hide BuildFrame, TakeFrame, Payload, Canon, Marshal, Says, ActionTypeOf, WellTyped;
    BuiltFramesAreSendable(text, t, action, encoded);
    OneFrame(BuildFrame(text, action, encoded).value, rest);
    CanonSays(text, t, action, encoded);
  }

  // ---------------------------------------------------------------- raw actions

  /** The header and payload of a raw action, its length as given or else the payload's own. */
  predicate RawAsTold(text: Text, action: Table, f: Frame) {
    && f.RawFrame?
    && TellsNumber(action, KFrameType, f.header.typ)
    && TellsNumber(action, KFlags, f.header.flags)
    && TellsNumber(action, KStreamID, f.header.streamID)
    && (if KLength in action then TellsNumber(action, KLength, f.header.length)
        else f.header.length as int == |f.payload| % 0x1_0000_0000)
    && TellsHex(text, action, KPayloadHex, f.payload)
  }

  /** What a reader makes of `octets` after the header `h`. */
  function ReadUnder(h: Header, octets: bytes): Taken {
    var seen := h.(streamID := Low31(h.streamID));
    if |octets| < h.length then Short
    else
      match ParseFrame(seen, octets[..h.length])
      case None => Malformed(octets[h.length..])
      case Some(f) => Got(f, octets[h.length..])
  }

  /**
    A raw action's header is believed by the peer whatever it says: it takes as many octets as the
    length tells, from the payload and what follows it. Lengths of more than 24 bits are not sent.
   */
  lemma PeerReadsRawAsTold(text: Text, action: Table, rest: bytes)
    requires ActionTypeOf(text, action) == Some(RawAction) && BuildRaw(text, action).Some?
    ensures var f := BuildRaw(text, action).value;
      && RawAsTold(text, action, f)
      && (f.header.length > MAX_UINT24 ==> Octets(f) == [])
      && (f.header.length <= MAX_UINT24 ==> TakeFrame(Octets(f) + rest) == ReadUnder(f.header, f.payload + rest))
      && (f.header.length == |f.payload| ==>
            var seen := f.header.(streamID := Low31(f.header.streamID));
            ReadUnder(f.header, f.payload + rest) == match ParseFrame(seen, f.payload)
                                                     case None => Malformed(rest)
                                                     case Some(g) => Got(g, rest))
  {
    hide TakeFrame, ParseFrame, MarshalHeader, Low31;
    var f := BuildRaw(text, action).value;
    if f.header.length <= MAX_UINT24 {
      TakeMarshalled(f.header, f.payload, rest);
      assert Octets(f) + rest == MarshalHeader(f.header).value + f.payload + rest;
    }
    if f.header.length == |f.payload| {
      assert (f.payload + rest)[..f.header.length] == f.payload && (f.payload + rest)[f.header.length..] == rest;
    }
  }
}
