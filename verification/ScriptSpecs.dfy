/** What the script validator accepts (script_spec.go), and the repeat arithmetic it guards (script.go). */
module ScriptSpecs {
  import opened Results
  import opened Wire
  import opened Frames
  import opened Sessions
  import opened ScriptValues
  import opened ScriptFrames
  import opened RepeatArithmetic

  function SleepKind(k: Key): Option<Kind> {
    if k.KDurationMS? then Some(NumberKind)
    else None
  }

  function SettingsKind(k: Key): Option<Kind> {
    if k.KSettings? || k.KFlags? then Some(ListKind)
    else None
  }

  function HeadersKind(k: Key): Option<Kind> {
    if k.KStreamID? || k.KStreamDep? || k.KWeight? || k.KPadLength? then Some(NumberKind)
    else if k.KFlags? || k.KHeaders? then Some(ListKind)
    else if k.KBlockHex? then Some(StringKind)
    else if k.KExclusive? then Some(BoolKind)
    else None
  }

  function ContinuationKind(k: Key): Option<Kind> {
    if k.KStreamID? then Some(NumberKind)
    else if k.KFlags? then Some(ListKind)
    else if k.KBlockHex? then Some(StringKind)
    else None
  }

  function DataKind(k: Key): Option<Kind> {
    if k.KStreamID? || k.KPadLength? then Some(NumberKind)
    else if k.KFlags? then Some(ListKind)
    else if k.KData? || k.KDataHex? then Some(StringKind)
    else None
  }

  function PingKind(k: Key): Option<Kind> {
    if k.KFlags? then Some(ListKind)
    else if k.KData? || k.KDataHex? then Some(StringKind)
    else None
  }

  function GoAwayKind(k: Key): Option<Kind> {
    if k.KLastStreamID? then Some(NumberKind)
    else if k.KErrorCode? || k.KDebugData? || k.KDebugHex? then Some(StringKind)
    else None
  }

  function WindowUpdateKind(k: Key): Option<Kind> {
    if k.KStreamID? || k.KIncrement? then Some(NumberKind)
    else None
  }

  function RSTStreamKind(k: Key): Option<Kind> {
    if k.KStreamID? then Some(NumberKind)
    else if k.KErrorCode? then Some(StringKind)
    else None
  }

  function PriorityKind(k: Key): Option<Kind> {
    if k.KStreamID? || k.KStreamDep? || k.KWeight? then Some(NumberKind)
    else if k.KExclusive? then Some(BoolKind)
    else None
  }

  function PushPromiseKind(k: Key): Option<Kind> {
    if k.KStreamID? || k.KPromisedStreamID? || k.KPadLength? then Some(NumberKind)
    else if k.KFlags? || k.KHeaders? then Some(ListKind)
    else if k.KBlockHex? then Some(StringKind)
    else None
  }

  function RawKind(k: Key): Option<Kind> {
    if k.KFrameType? || k.KStreamID? || k.KFlags? || k.KLength? then Some(NumberKind)
    else if k.KPayloadHex? then Some(StringKind)
    else None
  }

  function ReceiveKind(k: Key): Option<Kind> {
    if k.KCount? || k.KStreamID? then Some(NumberKind)
    else if k.KUntil? then Some(StringKind)
    else if k.KAckSettings? || k.KAckPing? then Some(BoolKind)
    else None
  }

  /** The fields an action type may carry, with their kinds; `type` and the repeat fields go with every type. */
  function FieldKind(t: ActionType, k: Key): Option<Kind> {
    if k.KType? then Some(StringKind)
    else if k.KRepeat? || k.KStreamIDStep? then Some(NumberKind)
    else match t
      case Sleep => SleepKind(k)
      case SettingsAction => SettingsKind(k)
      case HeadersAction => HeadersKind(k)
      case ContinuationAction => ContinuationKind(k)
      case DataAction => DataKind(k)
      case PingAction => PingKind(k)
      case GoAwayAction => GoAwayKind(k)
      case WindowUpdateAction => WindowUpdateKind(k)
      case RSTStreamAction => RSTStreamKind(k)
      case PriorityAction => PriorityKind(k)
      case PushPromiseAction => PushPromiseKind(k)
      case RawAction => RawKind(k)
      case ReceiveAction => ReceiveKind(k)
      case Preface => None
      case UnknownAction => None
  }

  function RequiredFields(t: ActionType): set<Key> {
    {KType} + match t
      case Sleep => {KDurationMS}
      case HeadersAction => {KStreamID}
      case ContinuationAction => {KStreamID, KBlockHex}
      case DataAction => {KStreamID}
      case GoAwayAction => {KLastStreamID}
      case WindowUpdateAction => {KStreamID, KIncrement}
      case RSTStreamAction => {KStreamID}
      case PriorityAction => {KStreamID, KStreamDep, KWeight}
      case PushPromiseAction => {KStreamID, KPromisedStreamID}
      case RawAction => {KFrameType, KStreamID, KFlags, KPayloadHex}
      case _ => {}
  }

  predicate TableOk(t: ActionType, table: Table) {
    && (forall k :: k in table ==> FieldKind(t, k) == Some(table[k].Kind()))
    && RequiredFields(t) <= table.Keys
  }

  /** The fields of the connection table; none is required. */
  function ConnectionKind(k: Key): Option<Kind> {
    if k.KURL? || k.KScheme? || k.KHost? || k.KAuthority? || k.KPath? then Some(StringKind)
    else if k.KPort? || k.KTimeoutMS? || k.KMaxTableSize? then Some(NumberKind)
    else if k.KInsecure? || k.KSendGoAway? then Some(BoolKind)
    else None
  }

  predicate ConnectionOk(table: Table) {
    forall k :: k in table ==> ConnectionKind(k) == Some(table[k].Kind())
  }

  /** Both kinds of tables are checked alike, against the fields allowed and the fields required. */
  method ValidateScriptTable(kinds: Key -> Option<Kind>, needed: set<Key>, table: Table) returns (ok: bool)
    ensures ok <==> (forall k :: k in table ==> kinds(k) == Some(table[k].Kind())) && needed <= table.Keys
  {
    var keys := table.Keys;
    while keys != {}
      invariant keys <= table.Keys
      invariant forall k :: k in table.Keys - keys ==> kinds(k) == Some(table[k].Kind())
      decreases keys
    {
      var k :| k in keys;
      if kinds(k) != Some(table[k].Kind()) { return false; }
      keys := keys - {k};
    }
    var required := needed;
    while required != {}
      invariant required <= needed
      invariant needed - required <= table.Keys
      decreases required
    {
      var k :| k in required;
      if k !in table { return false; }
      required := required - {k};
    }
    ok := true;
  }

  // ---------------------------------------------------------------- repeat

  datatype Repeat = Repeat(count: int64, step: Option<uint32>)

  function ParseRepeat(action: Table): Option<Repeat> {
    var count :- Default(IntField(action, KRepeat), 1);
    if count <= 0 then None
    else match Uint32Field(action, KStreamIDStep)
      case Absent => Some(Repeat(count, None))
      case Present(step) => if KRepeat in action then Some(Repeat(count, Some(step))) else None
      case Wrong => None
  }

  /** Repeating with a step needs a stream id, and the last iteration's true id must still fit 32 bits. */
  predicate RepeatAccepted(t: ActionType, action: Table) {
    match ParseRepeat(action)
    case None => false
    case Some(repeat) =>
      if repeat.step.None? then true
      else
        && FieldKind(t, KStreamID).Some?
        && match Uint32Field(action, KStreamID)
           case Present(base) => TrueID(base, repeat.step.value, repeat.count - 1) <= MAX_UINT32
           case _ => false
  }

  method ValidateActionRepeat(t: ActionType, action: Table) returns (ok: bool)
    ensures ok <==> RepeatAccepted(t, action)
  {
    hide FieldKind, TrueID, ClosedForm;
    var repeat := ParseRepeat(action);
    if repeat.None? { return false; }
    if repeat.value.step.None? { return true; }
    if FieldKind(t, KStreamID).None? { return false; }
    var base := Uint32Field(action, KStreamID);
    if !base.Present? { return false; }
    var step, count := repeat.value.step.value, repeat.value.count;
    ClosedFormIsExact(base.value, step, count);
    ok := FewEnough(base.value, step, count);
  }

  method FewEnough(base: uint32, step: uint32, count: int64) returns (ok: bool)
    ensures ok <==> ClosedForm(base, step, count)
  {
    if step == 0 || count == 1 { return true; }
    var maxIterations := (MAX_UINT32 - base) / step + 1;
    ok := count <= maxIterations;
  }

  /** `uint64(base) + uint64(step)*uint64(iteration)`, each operation on 64 bits. */
  function IterationID(base: uint32, step: uint32, iteration: int64): nat {
    ToUint64(base + ToUint64(step * ToUint64(iteration)))
  }

  /** The action for one iteration, as the machine arithmetic finds it. */
  function ActionForIteration(action: Table, repeat: Repeat, iteration: int64): Option<Table> {
    if repeat.step.None? then Some(action)
    else
      var base :- Require(Uint32Field(action, KStreamID));
      var id := IterationID(base, repeat.step.value, iteration);
      if id > MAX_UINT32 then None else Some(action[KStreamID := Num(id)])
  }

  method CopyForIteration(action: Table, repeat: Repeat, iteration: int64) returns (r: Option<Table>)
    ensures r == ActionForIteration(action, repeat, iteration)
  {
    hide IterationID;
    if repeat.step.None? { return Some(action); }
    var base := Uint32Field(action, KStreamID);
    if !base.Present? { return None; }
    var id := IterationID(base.value, repeat.step.value, iteration);
    if id > MAX_UINT32 { return None; }
    var out: Table := map[];
    var keys := action.Keys;
    while keys != {}
      invariant keys <= action.Keys && out.Keys == action.Keys - keys
      invariant forall k :: k in out ==> out[k] == action[k]
      decreases keys
    {
      var k :| k in keys;
      out := out[k := action[k]];
      keys := keys - {k};
    }
    assert out == action;
    out := out[KStreamID := Num(id)];
    r := Some(out);
  }

  // ---------------------------------------------------------------- actions

  predicate HexFieldOk(text: Text, action: Table, k: Key) {
    match StringField(action, k)
    case Absent => true
    case Present(s) => text.parseHex(s).Some?
    case Wrong => false
  }

  predicate HeaderListOk(text: Text, action: Table, k: Key) {
    match ListField(action, k)
    case Absent => true
    case Present(raws) => HeaderList(text, raws).Some?
    case Wrong => false
  }

  predicate SettingsOk(text: Text, action: Table) {
    match ListField(action, KSettings)
    case Absent => true
    case Present(entries) => SettingList(text, entries).Some?
    case Wrong => false
  }

  predicate ReceiveOk(text: Text, action: Table) {
    && !(KCount in action && KUntil in action)
    && (match IntField(action, KCount) case Absent => true case Present(n) => n > 0 case Wrong => false)
    && match StringField(action, KUntil)
       case Absent => true
       case Wrong => false
       case Present(s) =>
         match text.untilOf(s)
         case NoUntil => false
         case UntilOther => false
         case UntilEndStream => KStreamID in action
         case _ => true
  }

  function SleepDuration(action: Table): Option<int64> {
    var ms :- Require(IntField(action, KDurationMS));
    if ms <= 0 then None else Some(ms)
  }

  /** The checks that belong to one action type. */
  predicate TypeChecks(text: Text, t: ActionType, action: Table) {
    match t
    case Sleep => SleepDuration(action).Some?
    case SettingsAction => SettingsOk(text, action) && FlagsOf(text, SETTINGS_FLAGS, action).Some?
    case HeadersAction =>
      && (KHeaders in action) != (KBlockHex in action)
      && HeaderListOk(text, action, KHeaders)
      && HexFieldOk(text, action, KBlockHex)
      && var flags := FlagsOf(text, HEADERS_FLAGS, action);
      && flags.Some?
      && (HasFlag(flags.value, FLAG_PRIORITY) ==> PriorityFields(action).Some?)
    case ContinuationAction => HexFieldOk(text, action, KBlockHex) && FlagsOf(text, CONTINUATION_FLAGS, action).Some?
    case DataAction =>
      && !(KData in action && KDataHex in action)
      && HexFieldOk(text, action, KDataHex)
      && FlagsOf(text, DATA_FLAGS, action).Some?
    case PingAction => PingOctets(text, action).Some? && FlagsOf(text, PING_FLAGS, action).Some?
    case GoAwayAction =>
      && ErrorCodeOf(text, action).Some?
      && !(KDebugData in action && KDebugHex in action)
      && HexFieldOk(text, action, KDebugHex)
    case WindowUpdateAction => Uint32Field(action, KIncrement).Present?
    case RSTStreamAction => ErrorCodeOf(text, action).Some?
    case PriorityAction => PriorityFields(action).Some?
    case PushPromiseAction =>
      && (KHeaders in action) != (KBlockHex in action)
      && HeaderListOk(text, action, KHeaders)
      && HexFieldOk(text, action, KBlockHex)
      && FlagsOf(text, PUSH_PROMISE_FLAGS, action).Some?
    case RawAction =>
      && Uint8Field(action, KFlags).Present?
      && !Uint32Field(action, KLength).Wrong?
      && HexFieldOk(text, action, KPayloadHex)
    case ReceiveAction => ReceiveOk(text, action)
    case Preface => true
    case UnknownAction => false
  }

  predicate AcceptsAction(text: Text, t: ActionType, action: Table) {
    TableOk(t, action) && RepeatAccepted(t, action) && TypeChecks(text, t, action)
  }

  predicate AcceptsActions(text: Text, actions: seq<Table>) {
    forall i :: 0 <= i < |actions| ==>
      var t := ActionTypeOf(text, actions[i]);
      t.Some? && AcceptsAction(text, t.value, actions[i])
  }

  predicate AcceptsScript(text: Text, script: Script) {
    ConnectionOk(script.connection) && AcceptsActions(text, script.actions)
  }

  method ValidateHexField(text: Text, action: Table, k: Key) returns (ok: bool)
    ensures ok <==> HexFieldOk(text, action, k)
  {
    var field := StringField(action, k);
    if field.Wrong? { return false; }
    if field.Absent? { return true; }
    var octets := text.parseHex(field.value);
    ok := octets.Some?;
  }

  method ValidateHeaderList(text: Text, action: Table, k: Key) returns (ok: bool)
    ensures ok <==> HeaderListOk(text, action, k)
  {
    var field := ListField(action, k);
    if field.Wrong? { return false; }
    if field.Absent? { return true; }
    var raws := field.value;
    for i := 0 to |raws|
      invariant HeaderList(text, raws[..i]).Some?
    {
      assert raws[..i + 1][..i] == raws[..i];
      var header := text.parseHeader(raws[i]);
      if header.None? {
        HeaderListStops(text, raws, i + 1);
        return false;
      }
    }
    assert raws[..|raws|] == raws;
    ok := true;
  }

  method ValidateBlockSource(text: Text, action: Table) returns (ok: bool)
    ensures ok <==>
      && (KHeaders in action) != (KBlockHex in action)
      && HeaderListOk(text, action, KHeaders)
      && HexFieldOk(text, action, KBlockHex)
  {
    hide HeaderListOk, HexFieldOk;
    if (KHeaders in action) == (KBlockHex in action) { return false; }
    ok := ValidateHeaderList(text, action, KHeaders);
    if !ok { return false; }
    ok := ValidateHexField(text, action, KBlockHex);
  }

  method ValidateSettings(text: Text, action: Table) returns (ok: bool)
    ensures ok <==> SettingsOk(text, action)
  {
    hide SettingList;
    var entries := ListField(action, KSettings);
    if entries.Wrong? { return false; }
    if entries.Absent? { return true; }
    var settings := ParseScriptSettings(text, entries.value);
    ok := settings.Some?;
  }

  method ValidateReceiveAction(text: Text, action: Table) returns (ok: bool)
    ensures ok <==> ReceiveOk(text, action)
  {
    if KCount in action && KUntil in action { return false; }
    var count := IntField(action, KCount);
    if count.Wrong? || (count.Present? && count.value <= 0) { return false; }
    var until := StringField(action, KUntil);
    if until.Wrong? { return false; }
    if until.Absent? { return true; }
    match text.untilOf(until.value)
    case UntilSettings => ok := true;
    case UntilSettingsAck => ok := true;
    case UntilPingAck => ok := true;
    case UntilGoAway => ok := true;
    case UntilEndStream => ok := KStreamID in action;
    case _ => ok := false;
  }

  method ParseFlagsOnly(text: Text, names: FlagNames, action: Table) returns (ok: bool)
    ensures ok <==> FlagsOf(text, names, action).Some?
  {
    hide FlagsOf;
    var flags := ParseFlags(text, names, action);
    ok := flags.Some?;
  }

  /** The checks of one action type, in the program's order. */
  method ValidateType(text: Text, t: ActionType, action: Table) returns (ok: bool)
    ensures ok <==> TypeChecks(text, t, action)
  {
    hide HeaderListOk, HexFieldOk, SettingsOk, ReceiveOk, FlagsOf, PriorityFields, PingOctets, ErrorCodeOf, HasFlag;
    match t {
      case Preface => ok := true;
      case Sleep => ok := SleepDuration(action).Some?;
      case SettingsAction =>
        ok := ValidateSettings(text, action);
        if !ok { return false; }
        ok := ParseFlagsOnly(text, SETTINGS_FLAGS, action);
      case HeadersAction =>
        ok := ValidateBlockSource(text, action);
        if !ok { return false; }
        var flags := ParseFlags(text, HEADERS_FLAGS, action);
        if flags.None? { return false; }
        if HasFlag(flags.value, FLAG_PRIORITY) {
          var priority := PriorityFields(action);
          if priority.None? { return false; }
        }
      case ContinuationAction =>
        ok := ValidateHexField(text, action, KBlockHex);
        if !ok { return false; }
        ok := ParseFlagsOnly(text, CONTINUATION_FLAGS, action);
      case DataAction =>
        if KData in action && KDataHex in action { return false; }
        ok := ValidateHexField(text, action, KDataHex);
        if !ok { return false; }
        ok := ParseFlagsOnly(text, DATA_FLAGS, action);
      case PingAction =>
        if PingOctets(text, action).None? { return false; }
        ok := ParseFlagsOnly(text, PING_FLAGS, action);
      case GoAwayAction =>
        if ErrorCodeOf(text, action).None? { return false; }
        if KDebugData in action && KDebugHex in action { return false; }
        ok := ValidateHexField(text, action, KDebugHex);
      case WindowUpdateAction => ok := Uint32Field(action, KIncrement).Present?;
      case RSTStreamAction => ok := ErrorCodeOf(text, action).Some?;
      case PriorityAction => ok := PriorityFields(action).Some?;
      case PushPromiseAction =>
        ok := ValidateBlockSource(text, action);
        if !ok { return false; }
        ok := ParseFlagsOnly(text, PUSH_PROMISE_FLAGS, action);
      case RawAction =>
        if !Uint8Field(action, KFlags).Present? { return false; }
        if Uint32Field(action, KLength).Wrong? { return false; }
        ok := ValidateHexField(text, action, KPayloadHex);
      case ReceiveAction => ok := ValidateReceiveAction(text, action);
      case UnknownAction => ok := false;
    }
  }

  method ValidateScriptAction(text: Text, t: ActionType, action: Table) returns (ok: bool)
    ensures ok <==> AcceptsAction(text, t, action)
  {
    hide TypeChecks, RepeatAccepted, FieldKind, RequiredFields;
    ok := ValidateScriptTable(k => FieldKind(t, k), RequiredFields(t), action);
    if !ok { return false; }
    ok := ValidateActionRepeat(t, action);
    if !ok { return false; }
    ok := ValidateType(text, t, action);
  }

  method ValidateScript(text: Text, script: Script) returns (ok: bool)
    ensures ok <==> AcceptsScript(text, script)
  {
    hide AcceptsAction, ConnectionKind;
    ok := ValidateScriptTable(ConnectionKind, {}, script.connection);
    if !ok { return false; }
    var actions := script.actions;
    for i := 0 to |actions|
      invariant AcceptsActions(text, actions[..i])
    {
      var t := ActionTypeOf(text, actions[i]);
      if t.None? { return false; }
      var accepted := ValidateScriptAction(text, t.value, actions[i]);
      if !accepted { return false; }
    }
    assert actions[..|actions|] == actions;
    ok := true;
  }

  // ---------------------------------------------------------------- receive actions

  function ReceivePlanOf(text: Text, action: Table): Option<ReceivePlan> {
    if KCount in action && KUntil in action then None
    else
      var count :- Default(IntField(action, KCount), 1);
      if count <= 0 then None
      else
        var until :- match StringField(action, KUntil)
                     case Absent => Some(NoUntil)
                     case Present(s) => Some(text.untilOf(s))
                     case Wrong => None;
        var stream := Uint32Field(action, KStreamID);
        var ackSettings :- Default(BoolField(action, KAckSettings), false);
        var ackPing :- Default(BoolField(action, KAckPing), false);
        if stream.Wrong? || (until == UntilEndStream && stream.Absent?) then None
        else Some(ReceivePlan(until, if stream.Present? then Some(stream.value) else None, count,
                              AckPolicy(ackSettings, ackPing)))
  }
}
