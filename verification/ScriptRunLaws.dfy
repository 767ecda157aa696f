/** What whole script runs promise: one outcome, every octet accounted for, and failures that come from outside. */
module ScriptRunLaws {
  import opened Results
  import opened Wire
  import opened Frames
  import opened Streams
  import opened Hpack
  import opened Endpoints
  import opened Sessions
  import opened SessionLoops
  import opened SessionLaws
  import opened ScriptValues
  import opened ScriptFrames
  import opened ScriptSpecs
  import opened ScriptLaws
  import opened RepeatArithmetic
  import opened ScriptBuilder
  import opened ScriptBuildLaws
  import opened ScriptRun

  // ---------------------------------------------------------------- one outcome

  lemma StepIsDetermined(
    w: World, action: Table, s: Snapshot, s1: Snapshot, r1: seq<Frame>, s2: Snapshot, r2: seq<Frame>)
    requires Steps(w, action, s, s1, r1) && Steps(w, action, s, s2, r2)
    ensures s1 == s2 && r1 == r2
  {
    hide RunsTo, Advanced, AfterFrame, ReceivePlanOf, ActionTypeOf, SleepDuration;
    if ActionTypeOf(w.text, action) == Some(ReceiveAction) {
      var env := EnvFor(w, ReceivePlanOf(w.text, action).value);
      OutcomeIsDetermined(env, s, true, r1, true, r2);
      EffectIsDetermined(env, s, r1, s1, r2, s2);
    }
  }

  lemma SteppingIsNotBreaking(w: World, action: Table, s: Snapshot, s': Snapshot, received: seq<Frame>)
    requires Steps(w, action, s, s', received)
    ensures !Breaks(w, action, s)
  {
    hide RunsTo, Advanced, AfterFrame, ReceivePlanOf, ActionTypeOf, SleepDuration;
    if ActionTypeOf(w.text, action) == Some(ReceiveAction) {
      var env := EnvFor(w, ReceivePlanOf(w.text, action).value);
      forall other | RunsTo(env, s, false, other) ensures false {
        OutcomeIsDetermined(env, s, true, received, false, other);
      }
    }
  }

  /** The part of a chain up to its `k`-th action, and that action. */
  lemma {:induction false} ChainUpTo(w: World, s: Snapshot, trace: seq<Executed>, k: nat)
    requires Chain(w, s, trace) && k <= |trace|
    ensures Chain(w, s, trace[..k]) && TablesOf(trace[..k]) == TablesOf(trace)[..k]
    ensures k < |trace| ==>
      && TablesOf(trace)[k] == trace[k].table
      && Steps(w, trace[k].table, EndOf(s, trace[..k]), trace[k].after, trace[k].received)
    decreases |trace|
  {
    hide Steps, EndOf;
    if k < |trace| {
      var init := trace[..|trace| - 1];
      ChainUpTo(w, s, init, k);
      assert init[..k] == trace[..k];
    } else {
      assert trace[..k] == trace;
    }
  }

  /** Chains over the same tables are the same. */
  lemma {:induction false} SameChain(w: World, s: Snapshot, t1: seq<Executed>, t2: seq<Executed>, k: nat)
    requires Chain(w, s, t1) && Chain(w, s, t2) && k <= |t1| && k <= |t2|
    requires TablesOf(t1)[..k] == TablesOf(t2)[..k]
    ensures t1[..k] == t2[..k]
  {
    hide *;
    if k > 0 {
      var i := k - 1;
      assert TablesOf(t1)[..i] == TablesOf(t1)[..k][..i] && TablesOf(t2)[..i] == TablesOf(t2)[..k][..i];
      SameChain(w, s, t1, t2, i);
      ChainUpTo(w, s, t1, i);
      ChainUpTo(w, s, t2, i);
      assert TablesOf(t1)[i] == TablesOf(t1)[..k][i] && TablesOf(t2)[i] == TablesOf(t2)[..k][i];
      StepIsDetermined(w, t1[i].table, EndOf(s, t1[..i]), t1[i].after, t1[i].received, t2[i].after, t2[i].received);
      assert t1[..k] == t1[..i] + [t1[i]] && t2[..k] == t2[..i] + [t2[i]];
    }
  }

  lemma FollowsFar(plan: Planned, done: seq<Table>, outcome: Outcome)
    requires Follows(plan, done, outcome)
    ensures done <= plan.tables
    ensures outcome.ActionFailed? <==> |done| < |plan.tables|
    ensures outcome.ActionFailed? ==> outcome.table == plan.tables[|done|]
  {
    if outcome.ActionFailed? {
      var more := done + [outcome.table];
      assert more[..|done|] == done && more[|done|] == outcome.table;
      assert plan.tables[..|done|] == plan.tables[..|more|][..|done|];
    }
  }

  lemma NoShorterScript(
    w: World, plan: Planned, s: Snapshot, t1: seq<Executed>, o1: Outcome, t2: seq<Executed>, o2: Outcome)
    requires Ends(w, plan, s, t1, o1) && Ends(w, plan, s, t2, o2)
    ensures |t1| >= |t2|
  {
    hide Steps, Breaks, Chain, Follows, TablesOf, EndOf;
    FollowsFar(plan, TablesOf(t1), o1);
    FollowsFar(plan, TablesOf(t2), o2);
    var k := |t1|;
    if k < |t2| {
      assert TablesOf(t1)[..k] == TablesOf(t1) == plan.tables[..k] == TablesOf(t2)[..k];
      SameChain(w, s, t1, t2, k);
      assert t1[..k] == t1;
      ChainUpTo(w, s, t2, k);
      SteppingIsNotBreaking(w, t2[k].table, EndOf(s, t1), t2[k].after, t2[k].received);
    }
  }

  /**
    However reads are chunked and writes are split, two runs of a script in which only actions fail
    execute the same actions to the same effect and end alike.
   */
  lemma ScriptIsDetermined(
    w: World, plan: Planned, s: Snapshot, t1: seq<Executed>, o1: Outcome, t2: seq<Executed>, o2: Outcome)
    requires Ends(w, plan, s, t1, o1) && Ends(w, plan, s, t2, o2)
    ensures t1 == t2 && o1 == o2
  {
    hide Steps, Breaks, Chain, TablesOf, EndOf;
    NoShorterScript(w, plan, s, t1, o1, t2, o2);
    NoShorterScript(w, plan, s, t2, o2, t1, o1);
    FollowsFar(plan, TablesOf(t1), o1);
    FollowsFar(plan, TablesOf(t2), o2);
    var k := |t1|;
    assert TablesOf(t1)[..k] == TablesOf(t1) == plan.tables[..k] == TablesOf(t2) == TablesOf(t2)[..k];
    SameChain(w, s, t1, t2, k);
    assert t1[..k] == t1 && t2[..k] == t2;
  }

  // ---------------------------------------------------------------- every octet

  /** The frames an action puts on the wire: the one it builds, or the answers it gives. */
  function FramesOf(w: World, action: Table, s: Snapshot, received: seq<Frame>): seq<Frame> {
    match ActionTypeOf(w.text, action)
    case Some(ReceiveAction) =>
      var plan := ReceivePlanOf(w.text, action);
      if plan.Some? then Acks(plan.value.acks, received) else []
    case Some(Preface) => []
    case Some(Sleep) => []
    case _ =>
      var f := BuiltFrame(w, action, s.endpoint);
      if f.Some? then [f.value] else []
  }

  function OctetsOf(w: World, action: Table, s: Snapshot, received: seq<Frame>): bytes {
    if ActionTypeOf(w.text, action) == Some(Preface) then CONNECTION_PREFACE
    else AllOctets(FramesOf(w, action, s, received))
  }

  function SentBy(w: World, s: Snapshot, trace: seq<Executed>): bytes {
    if trace == [] then []
    else
      var init, x := trace[..|trace| - 1], trace[|trace| - 1];
      SentBy(w, s, init) + OctetsOf(w, x.table, EndOf(s, init), x.received)
  }

  function FramesBy(w: World, s: Snapshot, trace: seq<Executed>): seq<Frame> {
    if trace == [] then []
    else
      var init, x := trace[..|trace| - 1], trace[|trace| - 1];
      FramesBy(w, s, init) + FramesOf(w, x.table, EndOf(s, init), x.received)
  }

  function ReceivedBy(trace: seq<Executed>): seq<Frame> {
    if trace == [] then [] else ReceivedBy(trace[..|trace| - 1]) + trace[|trace| - 1].received
  }

  /** The state at the end agrees with what was written and read on the way. */
  predicate Accounts(w: World, s: Snapshot, trace: seq<Executed>) {
    && EndOf(s, trace).sent == s.sent + SentBy(w, s, trace)
    && Delivered(s.incoming, |ReceivedBy(trace)|) == Some(Batch(ReceivedBy(trace), EndOf(s, trace).incoming))
  }

  lemma StepAccounts(w: World, action: Table, s: Snapshot, s': Snapshot, received: seq<Frame>)
    requires Steps(w, action, s, s', received)
    ensures s'.sent == s.sent + OctetsOf(w, action, s, received)
    ensures Delivered(s.incoming, |received|) == Some(Batch(received, s'.incoming))
  {
    hide RunsTo, Receiving, Acks, BuildFrame, ReceivePlanOf, ActionTypeOf, SleepDuration, OnSend, Marshal;
    hide Delivered, AllOctets, Answer, Compressed, CodecAfterBuild;
    DeliveredNothing(s.incoming);
    var f := BuiltFrame(w, action, s.endpoint);
    if f.Some? { OneAck(f.value); }
    NothingSent(s.sent);
  }

  lemma NothingSent(sent: bytes)
    ensures AllOctets([]) == [] && sent + [] == sent
  {
  }

  /** Everything a run wrote and read is what its actions wrote and read, in order. */
  lemma {:induction false} ScriptAccountsForEveryOctet(w: World, s: Snapshot, trace: seq<Executed>)
    requires Chain(w, s, trace)
    ensures Accounts(w, s, trace)
  {
    if trace == [] {
      DeliveredNothing(s.incoming);
      NothingSent(s.sent);
    } else {
      hide Accounts, Steps, EndOf;
      var init, x := trace[..|trace| - 1], trace[|trace| - 1];
      ScriptAccountsForEveryOctet(w, s, init);
      OneMoreAction(w, s, trace);
    }
  }

  lemma OneMoreAction(w: World, s: Snapshot, trace: seq<Executed>)
    requires trace != [] && Accounts(w, s, trace[..|trace| - 1])
    requires var x := trace[|trace| - 1]; Steps(w, x.table, EndOf(s, trace[..|trace| - 1]), x.after, x.received)
    ensures Accounts(w, s, trace)
  {
    hide Steps, OctetsOf, Delivered;
    var init, x := trace[..|trace| - 1], trace[|trace| - 1];
    var mid := EndOf(s, init);
    StepAccounts(w, x.table, mid, x.after, x.received);
    DeliveredConcat(s.incoming, ReceivedBy(init), mid.incoming, x.received, x.after.incoming);
  }

  // ---------------------------------------------------------------- failures come from outside

  /** An executable table of an accepted script whose unchecked fields are in range. */
  predicate Ready(text: Text, table: Table) {
    var t := ActionTypeOf(text, table);
    t.Some? && Checked(text, t.value, table) && RangesOk(table)
  }

  predicate AllRangesOk(actions: seq<Table>) {
    forall i :: 0 <= i < |actions| ==> RangesOk(actions[i])
  }

  lemma IntendedIsReady(text: Text, t: ActionType, action: Table, repeat: Repeat, i: nat)
    requires Checked(text, t, action) && ActionTypeOf(text, action) == Some(t) && RangesOk(action)
    requires IntendedAction(action, repeat, i).Some?
    ensures Ready(text, IntendedAction(action, repeat, i).value)
  {
    hide Checked, RangesOk, ActionTypeOf, TrueID;
    if repeat.step.Some? {
      var id := TrueID(Uint32Field(action, KStreamID).value, repeat.step.value, i);
      ChecksSurviveStep(text, t, action, id);
    }
  }

  lemma {:induction false} IterationsAreReady(text: Text, t: ActionType, action: Table, repeat: Repeat, n: nat)
    requires Checked(text, t, action) && ActionTypeOf(text, action) == Some(t) && RangesOk(action)
    ensures forall i :: 0 <= i < |Iterations(action, repeat, n).tables| ==>
      Ready(text, Iterations(action, repeat, n).tables[i])
  {
    hide Checked, RangesOk, ActionTypeOf, IntendedAction, Ready;
    if n > 0 {
      IterationsAreReady(text, t, action, repeat, n - 1);
      if IntendedAction(action, repeat, n - 1).Some? { IntendedIsReady(text, t, action, repeat, n - 1); }
    }
  }

  lemma {:induction false} PlannedTablesAreReady(text: Text, actions: seq<Table>)
    requires AcceptsActions(text, actions) && AllRangesOk(actions)
    ensures forall i :: 0 <= i < |Plan(actions).tables| ==> Ready(text, Plan(actions).tables[i])
  {
    if actions != [] {
      hide TableOk, TypeChecks, RepeatAccepted, RangesOk, ActionTypeOf, ParseRepeat, Iterations, Ready;
      var init, action := actions[..|actions| - 1], actions[|actions| - 1];
      PlannedTablesAreReady(text, init);
      var t := ActionTypeOf(text, action).value;
      assert AcceptsAction(text, t, action);
      if ParseRepeat(action).Some? {
        var repeat := ParseRepeat(action).value;
        IterationsAreReady(text, t, action, repeat, if repeat.count > 0 then repeat.count else 0);
      }
    }
  }

  predicate CompressorRefuses(w: World, table: Table, s: Snapshot) {
    var asked := Compressed(w.text, table);
    asked.Some? && Answer(w.request, s.endpoint.request.encoderOps, asked).None?
  }

  predicate TooLong(w: World, table: Table, s: Snapshot) {
    var f := BuiltFrame(w, table, s.endpoint);
    f.Some? && WireHeader(f.value).length > MAX_UINT24
  }

  /** What can still go wrong: the compressor, a length of more than 24 bits, or what the peer sends. */
  ghost predicate FailsOutside(w: World, table: Table, s: Snapshot) {
    match ActionTypeOf(w.text, table)
    case Some(ReceiveAction) =>
      var plan := ReceivePlanOf(w.text, table);
      plan.Some? && exists received :: RunsTo(EnvFor(w, plan.value), s, false, received)
    case Some(t) => BuildsFrame(t) && (CompressorRefuses(w, table, s) || TooLong(w, table, s))
    case None => false
  }

  lemma ReadyFrameBuilds(w: World, t: ActionType, table: Table, s: Snapshot)
    requires Ready(w.text, table) && ActionTypeOf(w.text, table) == Some(t) && BuildsFrame(t)
    ensures BuiltFrame(w, table, s.endpoint).Some? <==> !CompressorRefuses(w, table, s)
  {
    hide Checked, RangesOk, ActionTypeOf, BuildFrame, Compressed, Answer, LateFieldsOk;
    var asked := Compressed(w.text, table);
    var answer := Answer(w.request, s.endpoint.request.encoderOps, asked);
    CheckedBuilds(w.text, t, table, if answer.Some? then answer.value else []);
    if asked.None? {
      CompressorIsIgnored(w.text, table, answer, Some([]));
      NothingAsked(w.request, s.endpoint.request.encoderOps);
    } else if answer.None? {
      CompressedBlockIsSent(w.text, table, answer);
    }
  }

  lemma RangeIsRight(t: ActionType, table: Table, k: Key)
    requires TableOk(t, table) && RangesOk(table) && k.KPadLength?
    ensures !Uint8Field(table, k).Wrong?
  {
    FieldKindOfPad(t);
  }

  lemma FieldKindOfPad(t: ActionType)
    ensures FieldKind(t, KPadLength).None? || FieldKind(t, KPadLength) == Some(NumberKind)
  {
  }

  /** So for such a table the compressor is never asked in vain. */
  lemma ReadyFieldsAreGood(text: Text, table: Table)
    requires Ready(text, table) && Compressed(text, table).Some?
    ensures LateFieldsOk(text, table)
  {
    RangeIsRight(ActionTypeOf(text, table).value, table, KPadLength);
    hide TableOk, RangesOk, FlagsOf, PriorityFields, HasFlag, HeaderListOk, HexFieldOk, FieldsToCompress;
    hide Uint32Field, Uint8Field;
  }

  /** A pad length out of range passes the validator, and the compressor moves on for a frame never built. */
  lemma CompressorMovesForNothing(text: Text, answer: Option<bytes>)
    requires text.actionOf("headers") == HeadersAction
    ensures var action := PaddedTooFar();
      && ActionTypeOf(text, action) == Some(HeadersAction)
      && AcceptsAction(text, HeadersAction, action)
      && Compressed(text, action) == Some([]) && !LateFieldsOk(text, action)
      && BuildFrame(text, action, answer) == None
  {
    hide AcceptsAction, LateFieldsOk, FlagsOf, HeaderList, BuildFrame;
    PaddedTooFarIsAccepted(text);
    PaddedTooFarIsCompressed(text);
    CompressedBlockIsSent(text, PaddedTooFar(), answer);
  }

  lemma PaddedTooFarIsCompressed(text: Text)
    requires text.actionOf("headers") == HeadersAction
    ensures Compressed(text, PaddedTooFar()) == Some([]) && !LateFieldsOk(text, PaddedTooFar())
    ensures ActionTypeOf(text, PaddedTooFar()) == Some(HeadersAction)
  {
    hide BitOr, HasFlag;
  }

  function PaddedTooFar(): Table {
    map[KType := Str("headers"), KStreamID := Num(1), KHeaders := StrList([]), KPadLength := Num(256)]
  }

  lemma PaddedTooFarIsAccepted(text: Text)
    requires text.actionOf("headers") == HeadersAction
    ensures AcceptsAction(text, HeadersAction, PaddedTooFar())
  {
    PaddedTooFarFits();
    assert !HasFlag(0, FLAG_PRIORITY);
    hide HasFlag, BitOr, TableOk, FieldKind, PriorityFields;
  }

  lemma PaddedTooFarFits()
    ensures TableOk(HeadersAction, PaddedTooFar())
  {
    assert PaddedTooFar().Keys == {KType, KStreamID, KHeaders, KPadLength};
  }

  lemma NothingAsked(engine: Engine, ops: seq<EncoderOp>)
    ensures Answer(engine, ops, None) == None
  {
  }

  lemma ReadyKinds(text: Text, table: Table)
    requires Ready(text, table)
    ensures var t := ActionTypeOf(text, table).value;
      && t != UnknownAction
      && (t == Sleep ==> SleepDuration(table).Some?)
      && (t == ReceiveAction ==> ReceivePlanOf(text, table).Some?)
  {
    hide TableOk, ActionTypeOf, ReceiveOk, SleepDuration, ReceivePlanOf, SettingsOk, FlagsOf, HeaderListOk, HexFieldOk;
    if ActionTypeOf(text, table) == Some(ReceiveAction) { AcceptedReceiveStarts(text, table); }
  }

  /** A table of an accepted script breaks if and only if something outside the script goes wrong. */
  lemma ReadyTableBreaksExactly(w: World, table: Table, s: Snapshot)
    requires Ready(w.text, table)
    ensures Breaks(w, table, s) <==> FailsOutside(w, table, s)
  {
    hide Ready, ActionTypeOf, BuiltFrame, CompressorRefuses, RunsTo, ReceivePlanOf, SleepDuration, OnSend, AfterBuild;
    hide Payload, ToUint32;
    ReadyIsTyped(w.text, table);
    ReadyKinds(w.text, table);
    var t := ActionTypeOf(w.text, table).value;
    if BuildsFrame(t) { ReadyFrameBuilds(w, t, table, s); }
  }

  lemma ReadyIsTyped(text: Text, table: Table)
    requires Ready(text, table)
    ensures ActionTypeOf(text, table).Some?
  {
    hide ActionTypeOf;
  }

  /**
    A run of an accepted script whose unchecked fields are in range goes through all its tables unless
    the compressor refuses, a frame is too long for its length field, or a receive loop ends badly.
   */
  lemma AcceptedScriptsFailOutsideOnly(
    w: World, actions: seq<Table>, s: Snapshot, trace: seq<Executed>, outcome: Outcome)
    requires AcceptsActions(w.text, actions) && AllRangesOk(actions)
    requires Ends(w, Plan(actions), s, trace, outcome)
    ensures !outcome.Unplannable?
    ensures outcome.Finished? ==> TablesOf(trace) == Plan(actions).tables
    ensures outcome.ActionFailed? ==> FailsOutside(w, outcome.table, EndOf(s, trace))
  {
    hide AcceptsActions, AllRangesOk, Plan, Chain, Breaks, FailsOutside, TablesOf, EndOf, Ready;
    AcceptedScriptsPlanCompletely(w.text, actions);
    PlannedTablesAreReady(w.text, actions);
    FollowsFar(Plan(actions), TablesOf(trace), outcome);
    if outcome.ActionFailed? {
      ReadyTableBreaksExactly(w, outcome.table, EndOf(s, trace));
    }
  }
}
