/** Running a script (script.go): actions in order, each repeated with its stream id advanced. */
module ScriptRun {
  import opened Results
  import opened Wire
  import opened Frames
  import opened Hpack
  import opened Endpoints
  import opened Clients
  import opened Captures
  import opened Sessions
  import opened SessionLoops
  import opened ScriptValues
  import opened ScriptFrames
  import opened ScriptSpecs
  import opened ScriptLaws
  import opened ScriptBuilder

  // ---------------------------------------------------------------- the intended run

  /** Tables to execute, in order; `complete` is false if the plan breaks off after them. */
  datatype Planned = Planned(tables: seq<Table>, complete: bool)

  /** The first `n` iterations of one action over the mathematical integers, up to the first overflow. */
  function Iterations(action: Table, repeat: Repeat, n: nat): Planned {
    if n == 0 then Planned([], true)
    else
      var before := Iterations(action, repeat, n - 1);
      if !before.complete then before
      else match IntendedAction(action, repeat, n - 1)
        case Some(it) => Planned(before.tables + [it], true)
        case None => Planned(before.tables, false)
  }

  function PlanFor(action: Table): Planned {
    match ParseRepeat(action)
    case None => Planned([], false)
    case Some(repeat) => Iterations(action, repeat, if repeat.count > 0 then repeat.count else 0)
  }

  function Plan(actions: seq<Table>): Planned {
    if actions == [] then Planned([], true)
    else
      var before := Plan(actions[..|actions| - 1]);
      if !before.complete then before
      else
        var last := PlanFor(actions[|actions| - 1]);
        Planned(before.tables + last.tables, last.complete)
  }

  lemma {:induction false} IterationsGrow(action: Table, repeat: Repeat, k: nat, n: nat)
    requires k <= n
    ensures Iterations(action, repeat, k).tables <= Iterations(action, repeat, n).tables
    ensures !Iterations(action, repeat, k).complete ==> Iterations(action, repeat, n) == Iterations(action, repeat, k)
    decreases n
  {
    hide IntendedAction;
    if k < n { IterationsGrow(action, repeat, k, n - 1); }
  }

  lemma {:induction false} PlanGrows(actions: seq<Table>, i: nat)
    requires i <= |actions|
    ensures Plan(actions[..i]).tables <= Plan(actions).tables
    ensures !Plan(actions[..i]).complete ==> Plan(actions) == Plan(actions[..i])
  {
    hide PlanFor;
    if i < |actions| {
      PlanGrows(actions[..|actions| - 1], i);
      assert actions[..|actions| - 1][..i] == actions[..i];
    } else {
      assert actions[..i] == actions;
    }
  }

  lemma PlanNext(actions: seq<Table>, i: nat)
    requires i < |actions| && Plan(actions[..i]).complete
    ensures Plan(actions[..i + 1])
         == Planned(Plan(actions[..i]).tables + PlanFor(actions[i]).tables, PlanFor(actions[i]).complete)
  {
    hide PlanFor;
    assert actions[..i + 1][..i] == actions[..i];
  }

  /** Within an accepted script the plan is complete: every iteration of every action is there. */
  lemma {:induction false} AcceptedIterationsAreComplete(t: ActionType, action: Table, repeat: Repeat, n: nat)
    requires RepeatAccepted(t, action) && ParseRepeat(action) == Some(repeat) && n <= repeat.count
    ensures Iterations(action, repeat, n).complete && |Iterations(action, repeat, n).tables| == n
  {
    hide RepeatAccepted, ParseRepeat, IntendedAction, ActionForIteration;
    if n > 0 {
      AcceptedIterationsAreComplete(t, action, repeat, n - 1);
      AcceptedRepeatsNeverWrap(t, action, repeat, n - 1);
    }
  }

  lemma {:induction false} AcceptedScriptsPlanCompletely(text: Text, actions: seq<Table>)
    requires AcceptsActions(text, actions)
    ensures Plan(actions).complete
  {
    if actions != [] {
      hide TypeChecks, TableOk, ActionTypeOf;
      AcceptedScriptsPlanCompletely(text, actions[..|actions| - 1]);
      var action := actions[|actions| - 1];
      var t := ActionTypeOf(text, action).value;
      assert AcceptsAction(text, t, action);
      var repeat := ParseRepeat(action).value;
      AcceptedIterationsAreComplete(t, action, repeat, repeat.count);
    }
  }

  // ---------------------------------------------------------------- what one action does

  /** What a run depends on besides the actions and the state it starts in. */
  datatype World = World(text: Text, request: Engine, response: Engine, display: Display, capturing: bool)

  ghost function WorldOf(h2c: Client, text: Text, out: OutputController): World {
    World(text, h2c.requestCodec.engine, h2c.responseCodec.engine, out.display, out.capture != null)
  }

  function EnvFor(w: World, plan: ReceivePlan): Env {
    Env(w.response, w.display, w.capturing, Scripted(plan))
  }

  /** The frame an action builds, with the compressor in the state it is in. */
  function BuiltFrame(w: World, action: Table, ep: Endpoint): Option<Frame> {
    BuildFrame(w.text, action, Answer(w.request, ep.request.encoderOps, Compressed(w.text, action)))
  }

  function AfterBuild(w: World, action: Table, ep: Endpoint): Endpoint {
    ep.(request := CodecAfterBuild(ep.request, Compressed(w.text, action)))
  }

  /** Building and sending a frame, or nothing if there is none or it does not marshal. */
  function AfterFrame(w: World, action: Table, s: Snapshot): Option<Snapshot> {
    var f :- BuiltFrame(w, action, s.endpoint);
    var octets :- Marshal(f);
    Some(s.(sent := s.sent + octets, endpoint := OnSend(w.request, AfterBuild(w, action, s.endpoint), f).endpoint))
  }

  /** The action succeeds: it leads from `s` to `s'` and reads exactly `received` on the way. */
  predicate Steps(w: World, action: Table, s: Snapshot, s': Snapshot, received: seq<Frame>) {
    match ActionTypeOf(w.text, action)
    case None => false
    case Some(t) =>
      match t
      case Preface => received == [] && s' == s.(sent := s.sent + CONNECTION_PREFACE)
      case Sleep => SleepDuration(action).Some? && received == [] && s' == s
      case ReceiveAction =>
        var plan := ReceivePlanOf(w.text, action);
        && plan.Some?
        && RunsTo(EnvFor(w, plan.value), s, true, received)
        && Advanced(EnvFor(w, plan.value), s, s', received)
      case _ => received == [] && AfterFrame(w, action, s) == Some(s')
  }

  /** The action fails by itself, with nothing else at fault. */
  ghost predicate Breaks(w: World, action: Table, s: Snapshot) {
    match ActionTypeOf(w.text, action)
    case None => true
    case Some(t) =>
      match t
      case Preface => false
      case Sleep => SleepDuration(action).None?
      case ReceiveAction =>
        var plan := ReceivePlanOf(w.text, action);
        plan.None? || exists received :: RunsTo(EnvFor(w, plan.value), s, false, received)
      case _ => AfterFrame(w, action, s).None?
  }

  method ExecuteReceiveAction(h2c: Client, text: Text, action: Table, out: OutputController)
    returns (sawGoAway: bool, ok: bool, ghost fs: seq<Frame>)
    requires h2c.Valid()
    modifies h2c.Footprint(), out, out.capture
    ensures var plan := ReceivePlanOf(text, action);
      if plan.None? then !ok && !sawGoAway && Snap(h2c, out) == old(Snap(h2c, out))
      else
        var env := EnvOf(h2c, out, Scripted(plan.value));
        && (ok || Dependable(h2c, out) ==> RunsTo(env, old(Snap(h2c, out)), ok, fs))
        && (ok ==> Advanced(env, old(Snap(h2c, out)), Snap(h2c, out), fs) && sawGoAway == SawGoAway(fs))
        && (Dependable(h2c, out) ==> Reached(env, old(Snap(h2c, out)), Snap(h2c, out), fs))
  {
    hide ReceivePlanOf, RunsTo, Advanced, Reached, SawGoAway;
    fs := [];
    var plan := ReceivePlanOf(text, action);
    if plan.None? { return false, false, fs; }
    sawGoAway, ok, fs := RunReceivePlan(h2c, plan.value, out);
  }

  /** The default branch: build a frame, send it, report it. */
  method SendScriptFrame(h2c: Client, text: Text, action: Table, out: OutputController) returns (ok: bool)
    requires h2c.Valid()
    modifies h2c.Footprint(), out
    ensures var next := AfterFrame(WorldOf(h2c, text, out), action, old(Snap(h2c, out)));
      && (ok ==> next == Some(Snap(h2c, out)))
      && (Dependable(h2c, out) ==> (ok <==> next.Some?))
  {
    hide BuildFrame, Compressed, Answer, OpsAfter, Marshal, OnSend;
    var f := BuildScriptFrame(h2c, text, action);
    if f.None? { return false; }
    assert h2c.View() == AfterBuild(WorldOf(h2c, text, out), action, old(h2c.View()));
    var event := h2c.SendFrame(f.value);
    if event.None? { return false; }
    ok := out.HandleSent(event.value);
  }

  method ExecuteScriptAction(h2c: Client, text: Text, action: Table, out: OutputController)
    returns (gotGoAway: bool, ok: bool, ghost received: seq<Frame>)
    requires h2c.Valid()
    modifies h2c.Footprint(), out, out.capture
    ensures var w := WorldOf(h2c, text, out);
      && (ok ==> Steps(w, action, old(Snap(h2c, out)), Snap(h2c, out), received) && gotGoAway == SawGoAway(received))
      && (!ok && Dependable(h2c, out) ==> Breaks(w, action, old(Snap(h2c, out))))
  {
    hide AfterFrame, ReceivePlanOf, RunsTo, Advanced, ActionTypeOf, Client.View, SleepDuration;
    gotGoAway, received := false, [];
    var t := ActionTypeOf(text, action);
    if t.None? { return false, false, received; }
    match t.value {
      case Preface =>
        ok := h2c.SendRaw(CONNECTION_PREFACE);
        if !ok { return false, false, received; }
        ok := out.PrintNotice(SentSide, "CONNECTION_PREFACE");
      case Sleep =>
        var ms := SleepDuration(action);
        if ms.None? { return false, false, received; }
        ok := out.PrintNotice(SentSide, "SLEEP");
      case ReceiveAction =>
        ghost var plan := ReceivePlanOf(text, action);
        gotGoAway, ok, received := ExecuteReceiveAction(h2c, text, action, out);
        if !ok && Dependable(h2c, out) && plan.Some? {
          assert RunsTo(EnvFor(WorldOf(h2c, text, out), plan.value), old(Snap(h2c, out)), false, received);
        }
      case _ =>
        ok := SendScriptFrame(h2c, text, action, out);
    }
  }

  // ---------------------------------------------------------------- the whole script

  /** One executed action: its table, the frames it received and the state it left. */
  datatype Executed = Executed(table: Table, received: seq<Frame>, after: Snapshot)

  function EndOf(s: Snapshot, trace: seq<Executed>): Snapshot {
    if trace == [] then s else trace[|trace| - 1].after
  }

  /** Each action of the trace succeeds where the one before it left off. */
  predicate Chain(w: World, s: Snapshot, trace: seq<Executed>) {
    trace != [] ==>
      var init, x := trace[..|trace| - 1], trace[|trace| - 1];
      Chain(w, s, init) && Steps(w, x.table, EndOf(s, init), x.after, x.received)
  }

  function TablesOf(trace: seq<Executed>): (tables: seq<Table>)
    ensures |tables| == |trace|
  {
    if trace == [] then [] else TablesOf(trace[..|trace| - 1]) + [trace[|trace| - 1].table]
  }

  predicate AnyGoAway(trace: seq<Executed>) {
    exists i :: 0 <= i < |trace| && SawGoAway(trace[i].received)
  }

  datatype Outcome = Finished | Unplannable | ActionFailed(table: Table)

  /** How far a run got along the plan. */
  predicate Follows(plan: Planned, done: seq<Table>, outcome: Outcome) {
    match outcome
    case Finished => plan.complete && done == plan.tables
    case Unplannable => !plan.complete && done == plan.tables
    case ActionFailed(table) => done + [table] <= plan.tables
  }

  /** The run ends there and nowhere else: an action that is reported as failed does fail by itself. */
  ghost predicate Ends(w: World, plan: Planned, s: Snapshot, trace: seq<Executed>, outcome: Outcome) {
    && Chain(w, s, trace)
    && Follows(plan, TablesOf(trace), outcome)
    && (outcome.ActionFailed? ==> Breaks(w, outcome.table, EndOf(s, trace)))
  }

  lemma TraceSnoc(w: World, s: Snapshot, trace: seq<Executed>, x: Executed)
    ensures TablesOf(trace + [x]) == TablesOf(trace) + [x.table]
    ensures EndOf(s, trace + [x]) == x.after
    ensures Chain(w, s, trace + [x]) <==> Chain(w, s, trace) && Steps(w, x.table, EndOf(s, trace), x.after, x.received)
    ensures AnyGoAway(trace + [x]) <==> AnyGoAway(trace) || SawGoAway(x.received)
  {
    hide SawGoAway, Steps;
    var all := trace + [x];
    assert all[..|trace|] == trace && all[|trace|] == x;
    assert forall i :: 0 <= i < |trace| ==> all[i] == trace[i];
  }

  /**
    Whatever the script, exactly the intended tables are executed, in order: all of them, or those
    before the plan breaks off, or those before the first one that fails; on a dependable connection an
    action fails for reasons of its own only. The flag tells whether any action saw a GOAWAY.
   */
  method ExecuteScript(h2c: Client, text: Text, actions: seq<Table>, out: OutputController)
    returns (sawGoAway: bool, outcome: Outcome, ghost trace: seq<Executed>)
    requires h2c.Valid()
    modifies h2c.Footprint(), out, out.capture
    ensures var w, s := WorldOf(h2c, text, out), old(Snap(h2c, out));
      && Chain(w, s, trace)
      && Follows(Plan(actions), TablesOf(trace), outcome)
      && (Dependable(h2c, out) ==> Ends(w, Plan(actions), s, trace, outcome))
      && (!outcome.ActionFailed? ==> Snap(h2c, out) == EndOf(s, trace))
    ensures sawGoAway == AnyGoAway(trace)
  {
    hide Steps, Breaks, Plan, PlanFor, IntendedAction, ActionForIteration, AnyGoAway, TablesOf, SawGoAway, Chain;
    hide Client.View, ParseRepeat, Iterations, EndOf;
    ghost var w, start := WorldOf(h2c, text, out), Snap(h2c, out);
    sawGoAway, trace := false, [];
    NothingExecuted(w, start);
    for i := 0 to |actions|
      invariant Plan(actions[..i]) == Planned(TablesOf(trace), true)
      invariant sawGoAway == AnyGoAway(trace)
      invariant Chain(w, start, trace) && Snap(h2c, out) == EndOf(start, trace)
    {
      var action := actions[i];
      PlanNext(actions, i);
      PlanGrows(actions, i + 1);
      var repeat := ParseRepeat(action);
      if repeat.None? {
        BadRepeatPlansNothing(action);
        return sawGoAway, Unplannable, trace;
      }
      PlannedByCount(action, repeat.value);
      ghost var before := TablesOf(trace);
      var iteration := 0;
      while iteration < repeat.value.count
        invariant 0 <= iteration <= repeat.value.count
        invariant Iterations(action, repeat.value, iteration).complete
        invariant TablesOf(trace) == before + Iterations(action, repeat.value, iteration).tables
        invariant sawGoAway == AnyGoAway(trace)
        invariant Chain(w, start, trace) && Snap(h2c, out) == EndOf(start, trace)
      {
        NextIteration(action, repeat.value, iteration);
        var it := CopyForIteration(action, repeat.value, iteration);
        if it.None? { return sawGoAway, Unplannable, trace; }
        var gotGoAway, ok, received := ExecuteScriptAction(h2c, text, it.value, out);
        if !ok { return sawGoAway, ActionFailed(it.value), trace; }
        ghost var x := Executed(it.value, received, Snap(h2c, out));
        TraceSnoc(w, start, trace, x);
        trace := trace + [x];
        sawGoAway := sawGoAway || gotGoAway;
        iteration := iteration + 1;
      }
    }
    assert actions[..|actions|] == actions;
    outcome := Finished;
  }

  lemma NothingExecuted(w: World, s: Snapshot)
    ensures Chain(w, s, []) && EndOf(s, []) == s && !AnyGoAway([]) && Plan([]) == Planned(TablesOf([]), true)
  {
  }

  lemma BadRepeatPlansNothing(action: Table)
    requires ParseRepeat(action).None?
    ensures PlanFor(action) == Planned([], false)
  {
  }

  lemma PlannedByCount(action: Table, repeat: Repeat)
    requires ParseRepeat(action) == Some(repeat)
    ensures repeat.count > 0 && PlanFor(action) == Iterations(action, repeat, repeat.count)
    ensures Iterations(action, repeat, 0) == Planned([], true)
  {
  }

  /** The machine's next table is the plan's next table, or the plan breaks off where the machine fails. */
  lemma NextIteration(action: Table, repeat: Repeat, i: int64)
    requires 0 <= i < repeat.count && Iterations(action, repeat, i).complete
    ensures var done := Iterations(action, repeat, i).tables;
      match ActionForIteration(action, repeat, i)
      case Some(it) =>
        && Iterations(action, repeat, i + 1) == Planned(done + [it], true)
        && done + [it] <= Iterations(action, repeat, repeat.count).tables
      case None => Iterations(action, repeat, repeat.count) == Planned(done, false)
  {
    hide IntendedAction, ActionForIteration;
    IterationsGrow(action, repeat, i + 1, repeat.count);
    FirstOverflowStops(action, repeat, i);
  }
}
