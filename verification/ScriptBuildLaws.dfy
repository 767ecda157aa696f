/** Validation implies buildability: accepted actions become frames on every iteration, up to field ranges and HPACK. */
module ScriptBuildLaws {
  import opened Results
  import opened Wire
  import opened Frames
  import opened FrameLaws
  import opened Sessions
  import opened ScriptValues
  import opened ScriptFrames
  import opened ScriptSpecs
  import opened ScriptLaws

  predicate BuildsFrame(t: ActionType) {
    t != Preface && t != Sleep && t != ReceiveAction && t != UnknownAction
  }

  /** The ranges the validator leaves to the builder. */
  predicate RangesOk(action: Table) {
    && Fits(action, KStreamID, 0xffff_ffff)
    && Fits(action, KPromisedStreamID, 0xffff_ffff)
    && Fits(action, KLastStreamID, 0xffff_ffff)
    && Fits(action, KFrameType, 0xff)
    && Fits(action, KPadLength, 0xff)
  }

  predicate Fits(action: Table, k: Key, max: int) {
    k in action && action[k].Num? ==> 0 <= action[k].number <= max
  }

  predicate Checked(text: Text, t: ActionType, action: Table) {
    TableOk(t, action) && TypeChecks(text, t, action)
  }

  /** With a working compressor the action builds. */
  ghost predicate Builds(text: Text, action: Table) {
    forall block: bytes :: BuildFrame(text, action, Some(block)).Some?
  }

  lemma BlockIsReady(text: Text, action: Table, block: bytes)
    requires HeaderListOk(text, action, KHeaders) && HexFieldOk(text, action, KBlockHex)
    requires (KHeaders in action) != (KBlockHex in action)
    ensures BlockOf(text, action, Some(block)).Some?
  {
    hide HeaderList;
  }

  lemma HeadersBuild(text: Text, action: Table, block: bytes)
    requires Checked(text, HeadersAction, action)
    ensures BuildHeaders(text, action, Some(block)).Some? <==> RangesOk(action)
  {
    hide FlagsOf, BlockOf, HeaderListOk, HexFieldOk, PriorityFields, Sized, HasFlag;
    BlockIsReady(text, action, block);
    assert KPromisedStreamID !in action && KLastStreamID !in action && KFrameType !in action;
  }

  lemma PushPromiseBuild(text: Text, action: Table, block: bytes)
    requires Checked(text, PushPromiseAction, action)
    ensures BuildPushPromise(text, action, Some(block)).Some? <==> RangesOk(action)
  {
    hide FlagsOf, BlockOf, HeaderListOk, HexFieldOk, Sized;
    BlockIsReady(text, action, block);
    assert KLastStreamID !in action && KFrameType !in action;
  }

  lemma ContinuationBuilds(text: Text, action: Table)
    requires Checked(text, ContinuationAction, action)
    ensures BuildContinuation(text, action).Some? <==> RangesOk(action)
  {
    hide FlagsOf, Sized;
    assert KPromisedStreamID !in action && KLastStreamID !in action && KFrameType !in action && KPadLength !in action;
    assert KBlockHex in action;
  }

  lemma DataBuilds(text: Text, action: Table)
    requires Checked(text, DataAction, action)
    ensures BuildData(text, action).Some? <==> RangesOk(action)
  {
    hide FlagsOf, Sized;
    assert KPromisedStreamID !in action && KLastStreamID !in action && KFrameType !in action;
    assert KData in action ==> action[KData].Str?;
  }

  lemma GoAwayBuilds(text: Text, action: Table)
    requires Checked(text, GoAwayAction, action)
    ensures BuildGoAway(text, action).Some? <==> RangesOk(action)
  {
    hide Sized, ErrorCodeOf;
    assert KStreamID !in action && KPromisedStreamID !in action && KFrameType !in action && KPadLength !in action;
    assert KDebugData in action ==> action[KDebugData].Str?;
  }

  lemma RawRequires(action: Table)
    requires TableOk(RawAction, action)
    ensures KPayloadHex in action && KFrameType in action && KStreamID in action
  {
    assert KPayloadHex in RequiredFields(RawAction) && KFrameType in RequiredFields(RawAction);
    assert KStreamID in RequiredFields(RawAction);
  }

  lemma RawBuilds(text: Text, action: Table)
    requires Checked(text, RawAction, action)
    ensures BuildRaw(text, action).Some? <==> RangesOk(action)
  {
    hide ToUint32, RawFrameFromParts, RequiredFields;
    RawRequires(action);
    assert KPromisedStreamID !in action && KLastStreamID !in action && KPadLength !in action;
    assert KPayloadHex in action && KFrameType in action && KStreamID in action;
  }

  lemma SettingsBuilds(text: Text, action: Table)
    requires Checked(text, SettingsAction, action)
    ensures BuildSettings(text, action).Some? <==> RangesOk(action)
  {
    hide FlagsOf, Sized;
    assert KStreamID !in action && KPromisedStreamID !in action && KLastStreamID !in action;
    assert KFrameType !in action && KPadLength !in action;
  }

  lemma PingBuilds(text: Text, action: Table)
    requires Checked(text, PingAction, action)
    ensures BuildPing(text, action).Some? <==> RangesOk(action)
  {
    hide FlagsOf, Sized, PingOctets;
    assert KStreamID !in action && KPromisedStreamID !in action && KLastStreamID !in action;
    assert KFrameType !in action && KPadLength !in action;
  }

  lemma WindowUpdateBuilds(text: Text, action: Table)
    requires Checked(text, WindowUpdateAction, action)
    ensures BuildWindowUpdate(action).Some? <==> RangesOk(action)
  {
    hide Sized;
    assert KPromisedStreamID !in action && KLastStreamID !in action && KFrameType !in action && KPadLength !in action;
    assert KStreamID in action;
  }

  lemma RSTStreamBuilds(text: Text, action: Table)
    requires Checked(text, RSTStreamAction, action)
    ensures BuildRSTStream(text, action).Some? <==> RangesOk(action)
  {
    hide Sized, ErrorCodeOf;
    assert KPromisedStreamID !in action && KLastStreamID !in action && KFrameType !in action && KPadLength !in action;
    assert KStreamID in action;
  }

  lemma PriorityBuilds(text: Text, action: Table)
    requires Checked(text, PriorityAction, action)
    ensures BuildPriority(action).Some? <==> RangesOk(action)
  {
    hide Sized, PriorityFields;
    assert KPromisedStreamID !in action && KLastStreamID !in action && KFrameType !in action && KPadLength !in action;
    assert KStreamID in action;
  }

  lemma CheckedBuilds(text: Text, t: ActionType, action: Table, block: bytes)
    requires Checked(text, t, action) && BuildsFrame(t) && ActionTypeOf(text, action) == Some(t)
    ensures BuildFrame(text, action, Some(block)).Some? <==> RangesOk(action)
  {
    hide RangesOk, Checked, BuildSettings, BuildHeaders, BuildContinuation, BuildData, BuildPing, BuildGoAway;
    hide BuildWindowUpdate, BuildRSTStream, BuildPriority, BuildPushPromise, BuildRaw;
    match t
    case HeadersAction => HeadersBuild(text, action, block);
    case PushPromiseAction => PushPromiseBuild(text, action, block);
    case ContinuationAction => ContinuationBuilds(text, action);
    case DataAction => DataBuilds(text, action);
    case GoAwayAction => GoAwayBuilds(text, action);
    case RawAction => RawBuilds(text, action);
    case SettingsAction => SettingsBuilds(text, action);
    case PingAction => PingBuilds(text, action);
    case WindowUpdateAction => WindowUpdateBuilds(text, action);
    case RSTStreamAction => RSTStreamBuilds(text, action);
    case PriorityAction => PriorityBuilds(text, action);
  }

  // ---------------------------------------------------------------- every iteration

  /** Advancing the stream id keeps everything the validator checked. */
  lemma ChecksSurviveStep(text: Text, t: ActionType, action: Table, id: uint32)
    requires Checked(text, t, action) && Uint32Field(action, KStreamID).Present?
    ensures Checked(text, t, action[KStreamID := Num(id)])
    ensures ActionTypeOf(text, action[KStreamID := Num(id)]) == ActionTypeOf(text, action)
    ensures RangesOk(action[KStreamID := Num(id)]) <==> RangesOk(action)
  {
    hide TableOk, TypeChecks;
    TableSurvivesStep(t, action, id);
    TypeChecksSurviveStep(text, t, action, id);
  }

  lemma TableSurvivesStep(t: ActionType, action: Table, id: uint32)
    requires TableOk(t, action) && KStreamID in action && action[KStreamID].Num?
    ensures TableOk(t, action[KStreamID := Num(id)])
  {
    hide FieldKind, RequiredFields;
  }

  lemma TypeChecksSurviveStep(text: Text, t: ActionType, action: Table, id: uint32)
    requires TypeChecks(text, t, action) && KStreamID in action
    ensures TypeChecks(text, t, action[KStreamID := Num(id)])
  {
    hide JoinFlags, HeaderList, SettingList, HasFlag;
  }

  lemma IterationSurvives(text: Text, t: ActionType, action: Table, repeat: Repeat, i: int64)
    requires Checked(text, t, action) && ActionForIteration(action, repeat, i).Some?
    ensures var it := ActionForIteration(action, repeat, i).value;
      && Checked(text, t, it)
      && ActionTypeOf(text, it) == ActionTypeOf(text, action)
      && (RangesOk(it) <==> RangesOk(action))
  {
    hide Checked, RangesOk, ActionTypeOf, IterationID;
    if repeat.step.Some? {
      ChecksSurviveStep(text, t, action, IterationID(Uint32Field(action, KStreamID).value, repeat.step.value, i));
    }
  }

  /**
    Validation implies buildability: for an accepted frame-building action, all iterations become
    frames, whatever the compressor answers, if and only if the fields the validator does not check
    are in range.
   */
  lemma AcceptedActionsBuild(text: Text, t: ActionType, action: Table, repeat: Repeat, i: int64)
    requires AcceptsAction(text, t, action) && BuildsFrame(t) && ActionTypeOf(text, action) == Some(t)
    requires ParseRepeat(action) == Some(repeat) && 0 <= i < repeat.count
    ensures ActionForIteration(action, repeat, i).Some?
    ensures Builds(text, ActionForIteration(action, repeat, i).value) <==> RangesOk(action)
  {
    hide TypeChecks, TableOk, RangesOk, RepeatAccepted, ActionTypeOf, BuildFrame, ParseRepeat, ActionForIteration;
    AcceptedRepeatsNeverWrap(t, action, repeat, i);
    var it := ActionForIteration(action, repeat, i).value;
    IterationSurvives(text, t, action, repeat, i);
    forall block: bytes ensures BuildFrame(text, it, Some(block)).Some? <==> RangesOk(action) {
      CheckedBuilds(text, t, it, block);
    }
    assert BuildFrame(text, it, Some([])).Some? <==> RangesOk(action);
  }

  /** A typed frame built from an action says its true length and matches its kind, so it survives the wire. */
  lemma BuiltFramesAreSendable(text: Text, t: ActionType, action: Table, encoded: Option<bytes>)
    requires ActionTypeOf(text, action) == Some(t) && t != RawAction
    requires BuildFrame(text, action, encoded).Some?
    ensures var f := BuildFrame(text, action, encoded).value;
      && WellTyped(f)
      && f.header.length == ToUint32(|Payload(f)|)
      && (|Payload(f)| <= MAX_UINT24 ==> Sendable(f))
  {
    hide BuildSettings, BuildHeaders, BuildContinuation, BuildData, BuildPing, BuildGoAway;
    hide BuildWindowUpdate, BuildRSTStream, BuildPriority, BuildPushPromise;
    hide ActionTypeOf, WellTyped, Payload, ToUint32;
  }

  /** The stream id of the action is the one in the frame header. */
  lemma BuiltFramesKeepTheirStream(text: Text, t: ActionType, action: Table, encoded: Option<bytes>)
    requires ActionTypeOf(text, action) == Some(t) && FieldKind(t, KStreamID).Some?
    requires BuildFrame(text, action, encoded).Some?
    ensures Uint32Field(action, KStreamID) == Present(BuildFrame(text, action, encoded).value.header.streamID)
    ensures KStreamID in action && action[KStreamID] == Num(BuildFrame(text, action, encoded).value.header.streamID)
  {
    NumberAsWritten(action, KStreamID);
    StreamTypes(t);
    hide FlagsOf, BlockOf, PriorityFields, PingOctets, ErrorCodeOf, DataFieldOf, SettingList, HasFlag, ToUint32;
    hide Payload, Uint32Field, Uint8Field, ListField, FieldKind;
    hide BuildSettings, BuildPing, BuildGoAway;
  }

  lemma NumberAsWritten(action: Table, k: Key)
    ensures Uint32Field(action, k).Present? ==> k in action && action[k] == Num(Uint32Field(action, k).value)
  {
  }

  lemma StreamTypes(t: ActionType)
    ensures FieldKind(t, KStreamID).Some? <==>
      || t.HeadersAction? || t.ContinuationAction? || t.DataAction? || t.WindowUpdateAction? || t.RSTStreamAction?
      || t.PriorityAction? || t.PushPromiseAction? || t.RawAction? || t.ReceiveAction?
  {
  }

  /** An accepted receive action starts if and only if its stream id is in range. */
  lemma AcceptedReceiveStarts(text: Text, action: Table)
    requires Checked(text, ReceiveAction, action)
    ensures ReceivePlanOf(text, action).Some? <==> Fits(action, KStreamID, 0xffff_ffff)
    ensures ReceivePlanOf(text, action).Some? ==>
      var plan := ReceivePlanOf(text, action).value;
      plan.until != UntilOther && (plan.until == NoUntil ==> plan.count > 0)
  {
    assert KStreamID in action ==> action[KStreamID].Num?;
    assert KUntil in action ==> action[KUntil].Str?;
    assert KAckSettings in action ==> action[KAckSettings].Bool?;
    assert KAckPing in action ==> action[KAckPing].Bool?;
  }

  /** A stream id that no frame can carry: accepted by the validator, refused by the builder. */
  lemma RangesAreLeftToTheBuilder(text: Text, answer: Option<bytes>)
    requires text.actionOf("data") == DataAction
    ensures var action: Table := map[KType := Str("data"), KStreamID := Num(-1)];
      && ActionTypeOf(text, action) == Some(DataAction)
      && AcceptsAction(text, DataAction, action)
      && BuildFrame(text, action, answer) == None
  {
    hide ToUint32, Payload, HasFlag, BitOr;
  }
}
