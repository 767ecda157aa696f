/** The validator refuses nothing that would have run: what builds or starts is accepted, but for fields never read. */
module ScriptCompletenessLaws {
  import opened Results
  import opened Wire
  import opened Frames
  import opened Sessions
  import opened ScriptValues
  import opened ScriptFrames
  import opened ScriptSpecs
  import opened ScriptBuildLaws

  // ---------------------------------------------------------------- fields

  /** The validator allows every field of the table, with its kind. */
  predicate FieldsAllowed(t: ActionType, action: Table) {
    forall k :: k in action ==> FieldKind(t, k) == Some(action[k].Kind())
  }

  predicate Refused(t: ActionType, action: Table, k: Key) {
    k in action && FieldKind(t, k) != Some(action[k].Kind())
  }

  /** Taking one entry out leaves the others, and what did not have its kind was not read from it. */
  lemma NumberElsewhere(action: Table, k: Key, j: Key)
    requires k in action && (k == j ==> !action[k].Num?)
    ensures !Uint32Field(action, j).Wrong? ==> Uint32Field(action - {k}, j) == Uint32Field(action, j)
    ensures !Uint8Field(action, j).Wrong? ==> Uint8Field(action - {k}, j) == Uint8Field(action, j)
  {
  }

  lemma StringElsewhere(action: Table, k: Key, j: Key)
    requires k in action && (k == j ==> !action[k].Str?)
    ensures !StringField(action, j).Wrong? ==> StringField(action - {k}, j) == StringField(action, j)
  {
  }

  lemma ListElsewhere(action: Table, k: Key, j: Key)
    requires k in action && (k == j ==> !action[k].StrList?)
    ensures !ListField(action, j).Wrong? ==> ListField(action - {k}, j) == ListField(action, j)
  {
  }

  lemma FlagsElsewhere(text: Text, names: FlagNames, action: Table, k: Key)
    requires k in action && (k.KFlags? ==> !action[k].StrList?) && FlagsOf(text, names, action).Some?
    ensures FlagsOf(text, names, action - {k}) == FlagsOf(text, names, action)
  {
    hide ListField, JoinFlags;
    ListElsewhere(action, k, KFlags);
  }

  lemma BlockElsewhere(text: Text, action: Table, k: Key, answer: Option<bytes>)
    requires k in action && (k.KHeaders? ==> !action[k].StrList?) && (k.KBlockHex? ==> !action[k].Str?)
    requires BlockOf(text, action, answer).Some?
    ensures BlockOf(text, action - {k}, answer) == BlockOf(text, action, answer)
  {
    hide ListField, StringField, HeaderList;
    ListElsewhere(action, k, KHeaders);
    StringElsewhere(action, k, KBlockHex);
  }

  lemma OctetsElsewhere(text: Text, action: Table, plain: Key, hex: Key, k: Key)
    requires k in action && (k == plain || k == hex ==> !action[k].Str?)
    requires DataFieldOf(text, action, plain, hex).Some?
    ensures DataFieldOf(text, action - {k}, plain, hex) == DataFieldOf(text, action, plain, hex)
  {
    hide StringField;
    StringElsewhere(action, k, plain);
    StringElsewhere(action, k, hex);
  }

  lemma PriorityElsewhere(action: Table, k: Key)
    requires k in action && (k.KStreamDep? || k.KWeight? ==> !action[k].Num?) && (k.KExclusive? ==> !action[k].Bool?)
    requires PriorityFields(action).Some?
    ensures PriorityFields(action - {k}) == PriorityFields(action)
  {
    hide Uint32Field, Uint8Field;
    NumberElsewhere(action, k, KStreamDep);
    NumberElsewhere(action, k, KWeight);
  }

  lemma SettingsIgnore(text: Text, action: Table, k: Key)
    requires Refused(SettingsAction, action, k) && BuildSettings(text, action).Some?
    ensures BuildSettings(text, action - {k}) == BuildSettings(text, action)
  {
    hide SettingList, FlagsOf, ListField, Sized;
    ListElsewhere(action, k, KSettings);
    FlagsElsewhere(text, SETTINGS_FLAGS, action, k);
  }

  lemma HeadersIgnore(text: Text, action: Table, k: Key, answer: Option<bytes>)
    requires Refused(HeadersAction, action, k) && BuildHeaders(text, action, answer).Some?
    ensures BuildHeaders(text, action - {k}, answer) == BuildHeaders(text, action, answer)
  {
    hide FlagsOf, BlockOf, PriorityFields, Uint32Field, Uint8Field, Sized, HasFlag;
    NumberElsewhere(action, k, KStreamID);
    NumberElsewhere(action, k, KPadLength);
    FlagsElsewhere(text, HEADERS_FLAGS, action, k);
    BlockElsewhere(text, action, k, answer);
    if PriorityFields(action).Some? { PriorityElsewhere(action, k); }
  }

  lemma ContinuationIgnores(text: Text, action: Table, k: Key)
    requires Refused(ContinuationAction, action, k) && BuildContinuation(text, action).Some?
    ensures BuildContinuation(text, action - {k}) == BuildContinuation(text, action)
  {
    hide FlagsOf, StringField, Uint32Field, Sized;
    NumberElsewhere(action, k, KStreamID);
    StringElsewhere(action, k, KBlockHex);
    FlagsElsewhere(text, CONTINUATION_FLAGS, action, k);
  }

  lemma DataIgnores(text: Text, action: Table, k: Key)
    requires Refused(DataAction, action, k) && BuildData(text, action).Some?
    ensures BuildData(text, action - {k}) == BuildData(text, action)
  {
    hide FlagsOf, DataFieldOf, Uint32Field, Uint8Field, Sized;
    NumberElsewhere(action, k, KStreamID);
    NumberElsewhere(action, k, KPadLength);
    FlagsElsewhere(text, DATA_FLAGS, action, k);
    OctetsElsewhere(text, action, KData, KDataHex, k);
  }

  lemma PingIgnores(text: Text, action: Table, k: Key)
    requires Refused(PingAction, action, k) && BuildPing(text, action).Some?
    ensures BuildPing(text, action - {k}) == BuildPing(text, action)
  {
    hide FlagsOf, StringField, Sized;
    StringElsewhere(action, k, KData);
    StringElsewhere(action, k, KDataHex);
    FlagsElsewhere(text, PING_FLAGS, action, k);
  }

  lemma GoAwayIgnores(text: Text, action: Table, k: Key)
    requires Refused(GoAwayAction, action, k) && BuildGoAway(text, action).Some?
    ensures BuildGoAway(text, action - {k}) == BuildGoAway(text, action)
  {
    hide DataFieldOf, StringField, Uint32Field, Sized;
    NumberElsewhere(action, k, KLastStreamID);
    StringElsewhere(action, k, KErrorCode);
    OctetsElsewhere(text, action, KDebugData, KDebugHex, k);
  }

  lemma WindowUpdateIgnores(action: Table, k: Key)
    requires Refused(WindowUpdateAction, action, k) && BuildWindowUpdate(action).Some?
    ensures BuildWindowUpdate(action - {k}) == BuildWindowUpdate(action)
  {
    hide Uint32Field, Sized;
    NumberElsewhere(action, k, KStreamID);
    NumberElsewhere(action, k, KIncrement);
  }

  lemma RSTStreamIgnores(text: Text, action: Table, k: Key)
    requires Refused(RSTStreamAction, action, k) && BuildRSTStream(text, action).Some?
    ensures BuildRSTStream(text, action - {k}) == BuildRSTStream(text, action)
  {
    hide StringField, Uint32Field, Sized;
    NumberElsewhere(action, k, KStreamID);
    StringElsewhere(action, k, KErrorCode);
  }

  lemma PriorityIgnores(action: Table, k: Key)
    requires Refused(PriorityAction, action, k) && BuildPriority(action).Some?
    ensures BuildPriority(action - {k}) == BuildPriority(action)
  {
    hide PriorityFields, Uint32Field, Sized;
    NumberElsewhere(action, k, KStreamID);
    PriorityElsewhere(action, k);
  }

  lemma PushPromiseIgnores(text: Text, action: Table, k: Key, answer: Option<bytes>)
    requires Refused(PushPromiseAction, action, k) && BuildPushPromise(text, action, answer).Some?
    ensures BuildPushPromise(text, action - {k}, answer) == BuildPushPromise(text, action, answer)
  {
    hide FlagsOf, BlockOf, Uint32Field, Uint8Field, Sized;
    NumberElsewhere(action, k, KStreamID);
    NumberElsewhere(action, k, KPromisedStreamID);
    NumberElsewhere(action, k, KPadLength);
    FlagsElsewhere(text, PUSH_PROMISE_FLAGS, action, k);
    BlockElsewhere(text, action, k, answer);
  }

  lemma RawIgnores(text: Text, action: Table, k: Key)
    requires Refused(RawAction, action, k) && BuildRaw(text, action).Some?
    ensures BuildRaw(text, action - {k}) == BuildRaw(text, action)
  {
    hide StringField, Uint32Field, Uint8Field, RawFrameFromParts;
    NumberElsewhere(action, k, KFrameType);
    NumberElsewhere(action, k, KStreamID);
    NumberElsewhere(action, k, KFlags);
    NumberElsewhere(action, k, KLength);
    StringElsewhere(action, k, KPayloadHex);
  }

  lemma TypeIsKept(text: Text, t: ActionType, action: Table, k: Key)
    requires Refused(t, action, k) && ActionTypeOf(text, action) == Some(t)
    ensures ActionTypeOf(text, action - {k}) == Some(t)
  {
  }

  /** Where an action builds, a field the validator would refuse is one the builder does not look at. */
  lemma RefusedFieldsAreNotRead(text: Text, t: ActionType, action: Table, k: Key, answer: Option<bytes>)
    requires ActionTypeOf(text, action) == Some(t) && BuildsFrame(t) && Refused(t, action, k)
    requires BuildFrame(text, action, answer).Some?
    ensures BuildFrame(text, action - {k}, answer) == BuildFrame(text, action, answer)
  {
    TypeIsKept(text, t, action, k);
    hide Refused, ActionTypeOf, BuildSettings, BuildHeaders, BuildContinuation, BuildData, BuildPing, BuildGoAway;
    hide BuildWindowUpdate, BuildRSTStream, BuildPriority, BuildPushPromise, BuildRaw;
    match t
    case SettingsAction => SettingsIgnore(text, action, k);
    case HeadersAction => HeadersIgnore(text, action, k, answer);
    case ContinuationAction => ContinuationIgnores(text, action, k);
    case DataAction => DataIgnores(text, action, k);
    case PingAction => PingIgnores(text, action, k);
    case GoAwayAction => GoAwayIgnores(text, action, k);
    case WindowUpdateAction => WindowUpdateIgnores(action, k);
    case RSTStreamAction => RSTStreamIgnores(text, action, k);
    case PriorityAction => PriorityIgnores(action, k);
    case PushPromiseAction => PushPromiseIgnores(text, action, k, answer);
    case RawAction => RawIgnores(text, action, k);
  }

  /** A required field is one the builder cannot do without. */
  lemma RequiredFieldsAreRead(text: Text, t: ActionType, action: Table, answer: Option<bytes>)
    requires ActionTypeOf(text, action) == Some(t) && BuildsFrame(t) && BuildFrame(text, action, answer).Some?
    ensures RequiredFields(t) <= action.Keys
  {
    hide FlagsOf, BlockOf, PriorityFields, PingOctets, ErrorCodeOf, DataFieldOf, SettingList, Sized, HasFlag;
    hide RawFrameFromParts;
    assert KType in action;
    if t.PriorityAction? { PriorityNeeds(action); }
  }

  lemma PriorityNeeds(action: Table)
    requires PriorityFields(action).Some?
    ensures KStreamDep in action && KWeight in action
  {
  }

  // ---------------------------------------------------------------- type checks

  lemma BlocksAreChecked(text: Text, action: Table, answer: Option<bytes>)
    requires BlockOf(text, action, answer).Some?
    ensures (KHeaders in action) != (KBlockHex in action)
    ensures HeaderListOk(text, action, KHeaders) && HexFieldOk(text, action, KBlockHex)
  {
    hide HeaderList;
  }

  lemma DataIsChecked(text: Text, action: Table, plain: Key, hex: Key)
    requires DataFieldOf(text, action, plain, hex).Some?
    ensures !(plain in action && hex in action) && HexFieldOk(text, action, hex)
  {
  }

  /** What builds passes the checks of its type. */
  lemma BuildableTypeChecks(text: Text, t: ActionType, action: Table, answer: Option<bytes>)
    requires ActionTypeOf(text, action) == Some(t) && BuildsFrame(t) && BuildFrame(text, action, answer).Some?
    ensures TypeChecks(text, t, action)
  {
    if t.HeadersAction? || t.PushPromiseAction? { BlocksBuildChecked(text, t, action, answer); }
    if t.DataAction? { DataIsChecked(text, action, KData, KDataHex); }
    if t.GoAwayAction? { DataIsChecked(text, action, KDebugData, KDebugHex); }
    hide FlagsOf, BlockOf, PriorityFields, PingOctets, ErrorCodeOf, DataFieldOf, SettingList, Sized, HasFlag;
    hide RawFrameFromParts, HeaderListOk, BuildHeaders, BuildPushPromise, FieldKind;
  }

  lemma BlocksBuildChecked(text: Text, t: ActionType, action: Table, answer: Option<bytes>)
    requires ActionTypeOf(text, action) == Some(t) && (t.HeadersAction? || t.PushPromiseAction?)
    requires BuildFrame(text, action, answer).Some?
    ensures TypeChecks(text, t, action)
  {
    BlocksAreChecked(text, action, answer);
    hide FlagsOf, BlockOf, PriorityFields, Sized, HasFlag, HeaderListOk, HexFieldOk;
  }

  /**
    An action that builds, for any answer of the compressor, is accepted if and only if it repeats well
    and carries no field that the validator refuses, none of which would have been read.
   */
  lemma BuildableIsAcceptedExactly(text: Text, t: ActionType, action: Table, answer: Option<bytes>)
    requires ActionTypeOf(text, action) == Some(t) && BuildsFrame(t) && BuildFrame(text, action, answer).Some?
    ensures AcceptsAction(text, t, action) <==> RepeatAccepted(t, action) && FieldsAllowed(t, action)
  {
    hide BuildFrame, ActionTypeOf, FieldKind, RepeatAccepted, TypeChecks, RequiredFields;
    RequiredFieldsAreRead(text, t, action, answer);
    BuildableTypeChecks(text, t, action, answer);
  }

  // ---------------------------------------------------------------- receive, sleep, preface

  predicate NamesGoal(u: Until) {
    u.UntilSettings? || u.UntilSettingsAck? || u.UntilPingAck? || u.UntilGoAway? || u.UntilEndStream?
  }

  /** A count, or one of the five goals, or neither; the end of a stream needs a stream. */
  predicate ReceivesWell(text: Text, action: Table) {
    && (KCount in action ==> KUntil !in action && action[KCount].Num? && action[KCount].number > 0)
    && (KUntil in action ==>
          && action[KUntil].Str? && NamesGoal(text.untilOf(action[KUntil].str))
          && (text.untilOf(action[KUntil].str).UntilEndStream? ==> KStreamID in action))
  }

  lemma ReceiveIsAcceptedExactly(text: Text, action: Table)
    ensures AcceptsAction(text, ReceiveAction, action)
       <==> TableOk(ReceiveAction, action) && RepeatAccepted(ReceiveAction, action) && ReceivesWell(text, action)
  {
    hide TableOk, RepeatAccepted;
  }

  /** What starts and, if it names a goal, names one of the five, is accepted. */
  lemma StartingReceiveIsAccepted(text: Text, action: Table)
    requires TableOk(ReceiveAction, action) && RepeatAccepted(ReceiveAction, action)
    requires ReceivePlanOf(text, action).Some?
    requires KUntil in action ==> NamesGoal(ReceivePlanOf(text, action).value.until)
    ensures AcceptsAction(text, ReceiveAction, action)
  {
    hide TableOk, RepeatAccepted;
    ReceiveIsAcceptedExactly(text, action);
  }

  /** Where a receive action starts, a field the validator would refuse is not looked at. */
  lemma ReceiveIgnores(text: Text, action: Table, k: Key)
    requires Refused(ReceiveAction, action, k) && ReceivePlanOf(text, action).Some?
    ensures ReceivePlanOf(text, action - {k}) == ReceivePlanOf(text, action)
  {
  }

  /** What a receive action does, entry by entry: a count of one, no answers and no stream unless told. */
  lemma ReceivePlanIsTold(text: Text, action: Table)
    requires ReceivePlanOf(text, action).Some?
    ensures var plan := ReceivePlanOf(text, action).value;
      && plan.count == (if KCount in action && action[KCount].Num? then action[KCount].number else 1)
      && (plan.acks.settings <==> KAckSettings in action && action[KAckSettings] == Bool(true))
      && (plan.acks.ping <==> KAckPing in action && action[KAckPing] == Bool(true))
      && plan.until
         == (if KUntil in action && action[KUntil].Str? then text.untilOf(action[KUntil].str) else NoUntil)
      && (plan.stream.Some? <==> KStreamID in action)
      && (plan.stream.Some? ==> action[KStreamID] == Num(plan.stream.value))
  {
  }

  /** A field refused on any action is not looked at by its repeat, nor by a sleep. */
  lemma RepeatIgnores(t: ActionType, action: Table, k: Key)
    requires Refused(t, action, k)
    ensures ParseRepeat(action).Some? ==> ParseRepeat(action - {k}) == ParseRepeat(action)
    ensures t.Sleep? && SleepDuration(action).Some? ==> SleepDuration(action - {k}) == SleepDuration(action)
  {
    hide SettingsKind, HeadersKind, ContinuationKind, DataKind, PingKind, GoAwayKind, WindowUpdateKind;
    hide RSTStreamKind, PriorityKind, PushPromiseKind, RawKind, ReceiveKind;
  }

  lemma OtherRequirements()
    ensures RequiredFields(Preface) == RequiredFields(ReceiveAction) == {KType}
    ensures RequiredFields(Sleep) == {KType, KDurationMS}
  {
  }

  lemma SleepIsAcceptedExactly(text: Text, action: Table)
    ensures AcceptsAction(text, Sleep, action)
       <==> TableOk(Sleep, action) && RepeatAccepted(Sleep, action)
            && KDurationMS in action && action[KDurationMS].Num? && action[KDurationMS].number > 0
    ensures AcceptsAction(text, Preface, action) <==> TableOk(Preface, action) && RepeatAccepted(Preface, action)
  {
    hide TableOk, RepeatAccepted;
  }

  // ---------------------------------------------------------------- whole scripts

  /** A script is accepted if and only if its connection table and each of its actions are; it may be empty. */
  lemma ScriptIsAcceptedExactly(text: Text, script: Script)
    ensures AcceptsScript(text, script) <==>
      && (forall k :: k in script.connection ==> ConnectionKind(k) == Some(script.connection[k].Kind()))
      && forall i :: 0 <= i < |script.actions| ==>
           && KType in script.actions[i] && script.actions[i][KType].Str?
           && AcceptsAction(text, text.actionOf(script.actions[i][KType].str), script.actions[i])
  {
    hide AcceptsAction, ConnectionKind;
  }
}
