/** How often each action runs and with what table, told from the tables of the script alone. */
module ScriptPlanLaws {
  import opened Results
  import opened ScriptValues
  import opened ScriptFrames
  import opened ScriptSpecs
  import opened ScriptLaws
  import opened ScriptRun

  /** `repeat`, or once without it. */
  function TimesOf(action: Table): int {
    if KRepeat in action && action[KRepeat].Num? then action[KRepeat].number else 1
  }

  /** A number of 32 bits. */
  predicate HoldsUint32(action: Table, key: Key) {
    key in action && action[key].Num? && 0 <= action[key].number < 0x1_0000_0000
  }

  /** Repeating is well described: a positive count, and a step only with it and if no stream id gets too large. */
  predicate RepeatsWell(t: ActionType, action: Table) {
    && (KRepeat in action ==> action[KRepeat].Num? && action[KRepeat].number > 0)
    && (KStreamIDStep in action ==>
          && KRepeat in action && HoldsUint32(action, KStreamIDStep)
          && FieldKind(t, KStreamID).Some? && HoldsUint32(action, KStreamID)
          && action[KStreamID].number + action[KStreamIDStep].number * (TimesOf(action) - 1) < 0x1_0000_0000)
  }

  /** `table` is the `k`-th of an action, counted from 0: the stream id has taken `k` steps, all else is as written. */
  predicate IsNth(action: Table, k: int, table: Table) {
    if KStreamIDStep in action then
      && HoldsUint32(action, KStreamIDStep) && HoldsUint32(action, KStreamID)
      && table.Keys == action.Keys
      && table[KStreamID].Num?
      && table[KStreamID].number == action[KStreamID].number + action[KStreamIDStep].number * k
      && forall key :: key in action && key != KStreamID ==> table[key] == action[key]
    else table == action
  }

  /** The validator accepts exactly the repeats that are well described. */
  lemma RepeatIsTold(t: ActionType, action: Table)
    ensures RepeatAccepted(t, action) <==> RepeatsWell(t, action)
    ensures ParseRepeat(action).Some? ==> ParseRepeat(action).value.count == TimesOf(action)
    ensures ParseRepeat(action).Some? ==>
      ParseRepeat(action).value.step == if KStreamIDStep in action then Some(action[KStreamIDStep].number) else None
  {
    hide FieldKind;
  }

  lemma IntendedIsNth(action: Table, repeat: Repeat, k: nat)
    requires ParseRepeat(action) == Some(repeat) && IntendedAction(action, repeat, k).Some?
    ensures IsNth(action, k, IntendedAction(action, repeat, k).value)
  {
  }

  lemma {:induction false} IterationsAreTold(t: ActionType, action: Table, repeat: Repeat, n: nat)
    requires RepeatAccepted(t, action) && ParseRepeat(action) == Some(repeat) && n <= repeat.count
    ensures var plan := Iterations(action, repeat, n);
      plan.complete && |plan.tables| == n && forall k :: 0 <= k < n ==> IsNth(action, k, plan.tables[k])
  {
    if n > 0 {
      hide RepeatAccepted, ParseRepeat, IntendedAction, ActionForIteration, IsNth;
      IterationsAreTold(t, action, repeat, n - 1);
      AcceptedRepeatsNeverWrap(t, action, repeat, n - 1);
      IntendedIsNth(action, repeat, n - 1);
    }
  }

  /** An accepted action runs once, as written, or as often as it says, its stream id advancing by its step. */
  lemma AcceptedActionIsPlanned(t: ActionType, action: Table)
    requires RepeatAccepted(t, action)
    ensures var plan := PlanFor(action);
      && plan.complete && |plan.tables| == TimesOf(action) && TimesOf(action) > 0
      && forall k :: 0 <= k < |plan.tables| ==> IsNth(action, k, plan.tables[k])
  {
    hide Iterations, IsNth, FieldKind;
    RepeatIsTold(t, action);
    var repeat := ParseRepeat(action).value;
    IterationsAreTold(t, action, repeat, repeat.count);
  }

  /** `tables` are those of the actions, one action after the other. */
  predicate TablesTold(actions: seq<Table>, tables: seq<Table>) {
    if actions == [] then tables == []
    else
      var last := actions[|actions| - 1];
      var before := |tables| - TimesOf(last);
      && 0 <= before <= |tables|
      && (forall i :: before <= i < |tables| ==> IsNth(last, i - before, tables[i]))
      && TablesTold(actions[..|actions| - 1], tables[..before])
  }

  function Total(actions: seq<Table>): int {
    if actions == [] then 0 else Total(actions[..|actions| - 1]) + TimesOf(actions[|actions| - 1])
  }

  predicate AllRepeatWell(text: Text, actions: seq<Table>) {
    forall i :: 0 <= i < |actions| ==>
      ActionTypeOf(text, actions[i]).Some? && RepeatAccepted(ActionTypeOf(text, actions[i]).value, actions[i])
  }

  /** The plan of a script is the tables its actions tell, and there are as many as the repeats add up to. */
  lemma {:induction false} PlanIsTold(text: Text, actions: seq<Table>)
    requires AllRepeatWell(text, actions)
    ensures Plan(actions).complete && TablesTold(actions, Plan(actions).tables)
    ensures |Plan(actions).tables| == Total(actions)
  {
    if actions != [] {
      hide RepeatAccepted, ActionTypeOf, PlanFor, IsNth, TimesOf;
      var init, last := actions[..|actions| - 1], actions[|actions| - 1];
      PlanIsTold(text, init);
      AcceptedActionIsPlanned(ActionTypeOf(text, last).value, last);
      hide TablesTold;
      OneMoreTold(actions, Plan(init).tables, PlanFor(last).tables);
    }
  }

  lemma OneMoreTold(actions: seq<Table>, tables: seq<Table>, more: seq<Table>)
    requires actions != [] && TablesTold(actions[..|actions| - 1], tables)
    requires var last := actions[|actions| - 1];
      |more| == TimesOf(last) && forall k :: 0 <= k < |more| ==> IsNth(last, k, more[k])
    ensures TablesTold(actions, tables + more)
  {
    hide IsNth, TimesOf;
    var all := tables + more;
    assert all[..|tables|] == tables;
    assert forall i :: |tables| <= i < |all| ==> all[i] == more[i - |tables|];
  }

  lemma AcceptedScriptIsPlanned(text: Text, actions: seq<Table>)
    requires AcceptsActions(text, actions)
    ensures AllRepeatWell(text, actions)
  {
    hide TableOk, TypeChecks, RepeatAccepted, ActionTypeOf;
    forall i | 0 <= i < |actions|
      ensures ActionTypeOf(text, actions[i]).Some? && RepeatAccepted(ActionTypeOf(text, actions[i]).value, actions[i])
    {
      assert AcceptsAction(text, ActionTypeOf(text, actions[i]).value, actions[i]);
    }
  }
}
