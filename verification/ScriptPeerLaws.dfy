/** What the other side of the connection reads of a whole script run. */
module ScriptPeerLaws {
  import opened Results
  import opened Wire
  import opened Frames
  import opened FrameLaws
  import opened Streams
  import opened Endpoints
  import opened Sessions
  import opened SessionLoops
  import opened SessionLaws
  import opened ScriptValues
  import opened ScriptFrames
  import opened ScriptSpecs
  import opened ScriptBuilder
  import opened ScriptBuildLaws
  import opened ScriptMeaning
  import opened ScriptWireLaws
  import opened ScriptRun
  import opened ScriptRunLaws

  // ---------------------------------------------------------------- the preface, then frames

  predicate IsPreface(text: Text, table: Table) {
    ActionTypeOf(text, table) == Some(Preface)
  }

  /** The preface is not a frame: it can only open a connection. */
  predicate OnlyFirstOpens(text: Text, tables: seq<Table>) {
    forall i :: 0 < i < |tables| ==> !IsPreface(text, tables[i])
  }

  function Opening(text: Text, tables: seq<Table>): bytes {
    if tables != [] && IsPreface(text, tables[0]) then CONNECTION_PREFACE else []
  }

  lemma SentInit(w: World, s: Snapshot, trace: seq<Executed>)
    requires trace != []
    ensures var init, x := trace[..|trace| - 1], trace[|trace| - 1];
      && SentBy(w, s, trace) == SentBy(w, s, init) + OctetsOf(w, x.table, EndOf(s, init), x.received)
      && FramesBy(w, s, trace) == FramesBy(w, s, init) + FramesOf(w, x.table, EndOf(s, init), x.received)
      && TablesOf(trace) == TablesOf(init) + [x.table]
  {
    hide OctetsOf, FramesOf;
  }

  lemma FirstAction(w: World, s: Snapshot, trace: seq<Executed>)
    requires |trace| == 1
    ensures SentBy(w, s, trace) == Opening(w.text, TablesOf(trace)) + AllOctets(FramesBy(w, s, trace))
  {
    hide ActionTypeOf, BuiltFrame, ReceivePlanOf, Acks, AllOctets, Octets;
    SentInit(w, s, trace);
    var x := trace[0];
    assert trace[..0] == [] && TablesOf([]) == [] && [] + [x.table] == [x.table];
    assert [] + OctetsOf(w, x.table, s, x.received) == OctetsOf(w, x.table, s, x.received);
    assert [] + FramesOf(w, x.table, s, x.received) == FramesOf(w, x.table, s, x.received);
    NothingSent(CONNECTION_PREFACE);
    assert [] + AllOctets(FramesOf(w, x.table, s, x.received)) == AllOctets(FramesOf(w, x.table, s, x.received));
  }

  lemma NextAction(w: World, s: Snapshot, trace: seq<Executed>)
    requires |trace| > 1 && !IsPreface(w.text, trace[|trace| - 1].table)
    requires var init := trace[..|trace| - 1];
      SentBy(w, s, init) == Opening(w.text, TablesOf(init)) + AllOctets(FramesBy(w, s, init))
    ensures SentBy(w, s, trace) == Opening(w.text, TablesOf(trace)) + AllOctets(FramesBy(w, s, trace))
  {
    hide FramesOf, AllOctets, FramesBy, SentBy, TablesOf, EndOf, ActionTypeOf;
    var init, x := trace[..|trace| - 1], trace[|trace| - 1];
    SentInit(w, s, trace);
    AllOctetsConcat(FramesBy(w, s, init), FramesOf(w, x.table, EndOf(s, init), x.received));
    assert TablesOf(trace)[0] == TablesOf(init)[0];
  }

  lemma NothingRun(w: World, s: Snapshot)
    ensures SentBy(w, s, []) == Opening(w.text, TablesOf([])) + AllOctets(FramesBy(w, s, []))
  {
    NothingSent([]);
  }

  /** What a run has written is its opening and then frames, and nothing in between. */
  lemma {:induction false} SentIsOpeningAndFrames(w: World, s: Snapshot, trace: seq<Executed>)
    requires OnlyFirstOpens(w.text, TablesOf(trace))
    ensures SentBy(w, s, trace) == Opening(w.text, TablesOf(trace)) + AllOctets(FramesBy(w, s, trace))
  {
    if trace == [] {
      NothingRun(w, s);
    } else if |trace| == 1 {
      FirstAction(w, s, trace);
    } else {
      hide *;
      OpensInit(w, s, trace);
      SentIsOpeningAndFrames(w, s, trace[..|trace| - 1]);
      NextAction(w, s, trace);
    }
  }

  lemma OpensInit(w: World, s: Snapshot, trace: seq<Executed>)
    requires |trace| > 1 && OnlyFirstOpens(w.text, TablesOf(trace))
    ensures OnlyFirstOpens(w.text, TablesOf(trace[..|trace| - 1])) && !IsPreface(w.text, trace[|trace| - 1].table)
  {
    hide *;
    SentInit(w, s, trace);
    OpensSnoc(w.text, TablesOf(trace[..|trace| - 1]), trace[|trace| - 1].table);
  }

  lemma OpensSnoc(text: Text, tables: seq<Table>, table: Table)
    requires tables != [] && OnlyFirstOpens(text, tables + [table])
    ensures OnlyFirstOpens(text, tables) && !IsPreface(text, table)
  {
    hide IsPreface;
    var all := tables + [table];
    assert all[|tables|] == table;
    assert forall i :: 0 <= i < |tables| ==> tables[i] == all[i];
  }

  /**
    Whatever a script run wrote, a peer that has taken the preface reads exactly the frames the script
    built and the answers it gave, in order and with nothing left.
   */
  lemma PeerReadsTheScript(w: World, s: Snapshot, trace: seq<Executed>)
    requires Chain(w, s, trace) && OnlyFirstOpens(w.text, TablesOf(trace))
    requires forall i :: 0 <= i < |FramesBy(w, s, trace)| ==> Sendable(FramesBy(w, s, trace)[i])
    ensures var fs, start := FramesBy(w, s, trace), s.sent + Opening(w.text, TablesOf(trace));
      && start <= EndOf(s, trace).sent
      && Delivered(EndOf(s, trace).sent[|start|..], |fs|) == Some(Batch(AllCanon(fs), []))
  {
    ScriptAccountsForEveryOctet(w, s, trace);
    hide *;
    SentIsOpeningAndFrames(w, s, trace);
    StreamRoundTrip(FramesBy(w, s, trace), []);
    CutAfter(s.sent, Opening(w.text, TablesOf(trace)), AllOctets(FramesBy(w, s, trace)));
  }

  lemma CutAfter(sent: bytes, opening: bytes, octets: bytes)
    ensures var all := sent + (opening + octets);
      sent + opening <= all && all[|sent + opening|..] == octets == octets + []
  {
    assert sent + (opening + octets) == sent + opening + octets;
  }

  // ---------------------------------------------------------------- table by table

  /** What the peer reads of one action: the frame its table says, or the answers it gave. */
  predicate HearsAction(w: World, action: Table, s: Snapshot, received: seq<Frame>, got: seq<Frame>) {
    match ActionTypeOf(w.text, action)
    case None => false
    case Some(t) =>
      match t
      case Preface => got == []
      case Sleep => got == []
      case ReceiveAction =>
        var plan := ReceivePlanOf(w.text, action);
        plan.Some? && got == Acks(plan.value.acks, received)
      case _ =>
        |got| == 1 && Says(w.text, t, action, AnswerIn(w, action, s), got[0])
  }

  function AnswerIn(w: World, action: Table, s: Snapshot): Option<bytes> {
    Answer(w.request, s.endpoint.request.encoderOps, Compressed(w.text, action))
  }

  /** `got` is, action by action, what the peer reads of the trace. */
  predicate Hears(w: World, s: Snapshot, trace: seq<Executed>, got: seq<Frame>) {
    if trace == [] then got == []
    else
      var init, x := trace[..|trace| - 1], trace[|trace| - 1];
      var before := |got| - |FramesOf(w, x.table, EndOf(s, init), x.received)|;
      && before >= 0
      && HearsAction(w, x.table, EndOf(s, init), x.received, got[before..])
      && Hears(w, s, init, got[..before])
  }

  lemma AcksAreCanonical(policy: AckPolicy, fs: seq<Frame>)
    ensures AllCanon(Acks(policy, fs)) == Acks(policy, fs)
    ensures forall i :: 0 <= i < |Acks(policy, fs)| ==> Sendable(Acks(policy, fs)[i])
  {
    hide *;
    AnswersMatchQuestions(policy, fs);
    AnswersAreCanonical(Questions(policy, fs));
  }

  lemma BuiltFrameIsHeard(w: World, t: ActionType, action: Table, s: Snapshot)
    requires ActionTypeOf(w.text, action) == Some(t) && BuildsFrame(t) && BuiltFrame(w, action, s.endpoint).Some?
    ensures Says(w.text, t, action, AnswerIn(w, action, s), Canon(BuiltFrame(w, action, s.endpoint).value))
  {
    hide BuildFrame, Canon, Says, ActionTypeOf, Answer, Compressed;
    CanonSays(w.text, t, action, AnswerIn(w, action, s));
  }

  lemma ActionIsHeard(w: World, action: Table, s: Snapshot, s': Snapshot, received: seq<Frame>)
    requires Steps(w, action, s, s', received)
    ensures HearsAction(w, action, s, received, AllCanon(FramesOf(w, action, s, received)))
  {
    hide RunsTo, Advanced, Acks, BuiltFrame, AfterBuild, OnSend, Marshal, ReceivePlanOf, ActionTypeOf, SleepDuration;
    hide Says, Canon, AnswerIn;
    var t := ActionTypeOf(w.text, action).value;
    if t == ReceiveAction {
      AcksAreCanonical(ReceivePlanOf(w.text, action).value.acks, received);
    } else if BuildsFrame(t) {
      BuiltFrameIsHeard(w, t, action, s);
    } else if t == UnknownAction {
      UnknownBuildsNothing(w, action, s);
    }
  }

  lemma UnknownBuildsNothing(w: World, action: Table, s: Snapshot)
    requires ActionTypeOf(w.text, action) == Some(UnknownAction)
    ensures BuiltFrame(w, action, s.endpoint).None?
  {
    hide ActionTypeOf;
  }

  lemma AllCanonConcat(fs: seq<Frame>, gs: seq<Frame>)
    ensures AllCanon(fs + gs) == AllCanon(fs) + AllCanon(gs)
  {
    hide Canon;
  }

  /** Every action of a run is heard as its table says, one after the other. */
  lemma {:induction false} ScriptIsHeard(w: World, s: Snapshot, trace: seq<Executed>)
    requires Chain(w, s, trace)
    ensures Hears(w, s, trace, AllCanon(FramesBy(w, s, trace)))
  {
    if trace == [] {
      assert AllCanon([]) == [];
    } else {
      hide Steps, FramesOf, HearsAction, AllCanon, EndOf;
      var init, x := trace[..|trace| - 1], trace[|trace| - 1];
      var more := FramesOf(w, x.table, EndOf(s, init), x.received);
      ScriptIsHeard(w, s, init);
      ActionIsHeard(w, x.table, EndOf(s, init), x.after, x.received);
      AllCanonConcat(FramesBy(w, s, init), more);
      var got, front := AllCanon(FramesBy(w, s, trace)), |FramesBy(w, s, init)|;
      assert got[..front] == AllCanon(FramesBy(w, s, init)) && got[front..] == AllCanon(more);
    }
  }

  // ---------------------------------------------------------------- scripts whose frames all arrive

  /** Payloads short enough for their length not to wrap; longer ones than 24 bits are refused anyway. */
  predicate NoneWraps(fs: seq<Frame>) {
    forall i :: 0 <= i < |fs| ==> |Payload(fs[i])| <= MAX_UINT32
  }

  predicate NoRaw(text: Text, tables: seq<Table>) {
    forall i :: 0 <= i < |tables| ==> ActionTypeOf(text, tables[i]) != Some(RawAction)
  }

  lemma MarshalledFits(f: Frame)
    requires Marshal(f).Some? && !f.RawFrame? && |Payload(f)| <= MAX_UINT32
    ensures |Payload(f)| <= MAX_UINT24
  {
    hide Payload, MarshalHeader;
  }

  lemma ActionFramesAreSendable(w: World, action: Table, s: Snapshot, s': Snapshot, received: seq<Frame>)
    requires Steps(w, action, s, s', received) && ActionTypeOf(w.text, action) != Some(RawAction)
    requires NoneWraps(FramesOf(w, action, s, received))
    ensures forall f :: f in FramesOf(w, action, s, received) ==> Sendable(f)
  {
    hide RunsTo, Advanced, Acks, BuildFrame, AfterBuild, OnSend, Marshal, ReceivePlanOf, ActionTypeOf, SleepDuration;
    hide Sendable, Payload, WellTyped, Answer, Compressed;
    var t := ActionTypeOf(w.text, action).value;
    if t == ReceiveAction {
      AcksAreCanonical(ReceivePlanOf(w.text, action).value.acks, received);
    } else if t != Preface && t != Sleep {
      var f := BuiltFrame(w, action, s.endpoint).value;
      assert FramesOf(w, action, s, received) == [f] && |Payload([f][0])| <= MAX_UINT32;
      BuiltFramesAreSendable(w.text, t, action, AnswerIn(w, action, s));
      BuiltIsTyped(w.text, t, action, AnswerIn(w, action, s));
      MarshalledFits(f);
    }
  }

  lemma BuiltIsTyped(text: Text, t: ActionType, action: Table, encoded: Option<bytes>)
    requires ActionTypeOf(text, action) == Some(t) && t != RawAction && BuildFrame(text, action, encoded).Some?
    ensures !BuildFrame(text, action, encoded).value.RawFrame?
  {
    hide BuildSettings, BuildHeaders, BuildContinuation, BuildData, BuildPing, BuildGoAway;
    hide BuildWindowUpdate, BuildRSTStream, BuildPriority, BuildPushPromise, ActionTypeOf, WellTyped, Payload;
  }

  lemma {:induction false} FramesAreSendable(w: World, s: Snapshot, trace: seq<Executed>)
    requires Chain(w, s, trace) && NoRaw(w.text, TablesOf(trace)) && NoneWraps(FramesBy(w, s, trace))
    ensures forall f :: f in FramesBy(w, s, trace) ==> Sendable(f)
  {
    if trace != [] {
      hide Steps, FramesOf, FramesBy, TablesOf, EndOf, Sendable, NoneWraps, NoRaw, ActionTypeOf;
      var init, x := trace[..|trace| - 1], trace[|trace| - 1];
      SentInit(w, s, trace);
      NoneWrapsConcat(FramesBy(w, s, init), FramesOf(w, x.table, EndOf(s, init), x.received));
      NoRawSnoc(w.text, TablesOf(init), x.table);
      FramesAreSendable(w, s, init);
      ActionFramesAreSendable(w, x.table, EndOf(s, init), x.after, x.received);
    }
  }

  lemma NoneWrapsConcat(fs: seq<Frame>, gs: seq<Frame>)
    requires NoneWraps(fs + gs)
    ensures NoneWraps(fs) && NoneWraps(gs)
  {
    hide Payload;
    assert forall i :: 0 <= i < |fs| ==> fs[i] == (fs + gs)[i];
    assert forall i :: 0 <= i < |gs| ==> gs[i] == (fs + gs)[|fs| + i];
  }

  lemma NoRawSnoc(text: Text, tables: seq<Table>, table: Table)
    requires NoRaw(text, tables + [table])
    ensures NoRaw(text, tables) && ActionTypeOf(text, table) != Some(RawAction)
  {
    hide ActionTypeOf;
    var all := tables + [table];
    assert all[|tables|] == table;
    assert forall i :: 0 <= i < |tables| ==> tables[i] == all[i];
  }

  /**
    A finished run of a script without raw actions that opens the connection at most once, in its first
    table: after the preface the peer reads, table by table, a frame that says its table, with the
    answers of the receive actions in between, and nothing else.
   */
  lemma PeerHearsTheWholeScript(w: World, actions: seq<Table>, s: Snapshot, trace: seq<Executed>)
    requires Ends(w, Plan(actions), s, trace, Finished)
    requires OnlyFirstOpens(w.text, Plan(actions).tables) && NoRaw(w.text, Plan(actions).tables)
    requires NoneWraps(FramesBy(w, s, trace))
    ensures TablesOf(trace) == Plan(actions).tables
    ensures var start := s.sent + Opening(w.text, Plan(actions).tables); var n := |FramesBy(w, s, trace)|;
      && start <= EndOf(s, trace).sent
      && match Delivered(EndOf(s, trace).sent[|start|..], n)
         case None => false
         case Some(batch) => batch.rest == [] && Hears(w, s, trace, batch.frames)
  {
    hide Chain, Plan, TablesOf, FramesBy, EndOf, OnlyFirstOpens, NoRaw, NoneWraps, Opening, Delivered, Hears, Sendable;
    FramesAreSendable(w, s, trace);
    PeerReadsTheScript(w, s, trace);
    ScriptIsHeard(w, s, trace);
  }
}
