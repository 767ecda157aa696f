/** What validation buys a script: exact repeat bounds, and frames that can be built. */
module ScriptLaws {
  import opened Results
  import opened Wire
  import opened ScriptValues
  import opened ScriptSpecs
  import opened RepeatArithmetic

  // ---------------------------------------------------------------- repeat arithmetic

  const TWO_TO_THE_64: nat := 0x1_0000_0000_0000_0000

  /** The action of one iteration as intended: fails only where the true id leaves 32 bits. */
  function IntendedAction(action: Table, repeat: Repeat, iteration: nat): Option<Table> {
    if repeat.step.None? then Some(action)
    else
      var base :- Require(Uint32Field(action, KStreamID));
      var id := TrueID(base, repeat.step.value, iteration);
      if id > MAX_UINT32 then None else Some(action[KStreamID := Num(id)])
  }

  lemma NoWrap(base: uint32, step: uint32, i: int64)
    requires i >= 0 && TrueID(base, step, i) < TWO_TO_THE_64
    ensures IterationID(base, step, i) == TrueID(base, step, i)
  {
    hide ToUint64;
    assert 0 <= step * i <= TrueID(base, step, i);
  }

  /**
    Once accepted, every iteration yields the intended action: the true stream id, without
    wrap-around, and every other field as written.
   */
  lemma AcceptedRepeatsNeverWrap(t: ActionType, action: Table, repeat: Repeat, i: int64)
    requires RepeatAccepted(t, action) && ParseRepeat(action) == Some(repeat)
    requires 0 <= i < repeat.count
    ensures ActionForIteration(action, repeat, i).Some?
    ensures ActionForIteration(action, repeat, i) == IntendedAction(action, repeat, i)
    ensures var it := ActionForIteration(action, repeat, i).value;
      && it.Keys == action.Keys
      && forall k :: k in action && k != KStreamID ==> it[k] == action[k]
  {
    if repeat.step.Some? {
      hide FieldKind, ParseRepeat, IterationID, TrueID;
      var base, step := Uint32Field(action, KStreamID).value, repeat.step.value;
      InRange(base, step, i, repeat.count - 1);
    }
  }

  lemma InRange(base: uint32, step: uint32, i: int64, last: int64)
    requires 0 <= i <= last && TrueID(base, step, last) <= MAX_UINT32
    ensures IterationID(base, step, i) == TrueID(base, step, i) <= MAX_UINT32
  {
    Grows(base, step, i, last);
    NoWrap(base, step, i);
  }

  /**
    Without validation the loop still never builds a wrapped id: it runs iterations in order, and the
    first one whose true id leaves 32 bits is the first to fail.
   */
  lemma FirstOverflowStops(action: Table, repeat: Repeat, i: int64)
    requires i >= 0
    requires i > 0 ==> IntendedAction(action, repeat, i - 1).Some?
    ensures ActionForIteration(action, repeat, i) == IntendedAction(action, repeat, i)
  {
    if repeat.step.Some? && Uint32Field(action, KStreamID).Present? {
      hide IterationID, TrueID;
      FirstOverflowID(Uint32Field(action, KStreamID).value, repeat.step.value, i);
    }
  }

  lemma FirstOverflowID(base: uint32, step: uint32, i: int64)
    requires i >= 0
    requires i > 0 ==> TrueID(base, step, i - 1) <= MAX_UINT32
    ensures IterationID(base, step, i) == TrueID(base, step, i)
  {
    if i > 0 {
      Grows(base, step, i - 1, i);
    }
    NoWrap(base, step, i);
  }

  /** Taken alone, a late iteration can wrap: this one is given stream 0 instead of failing. */
  lemma LateIterationWraps(action: Table)
    requires Uint32Field(action, KStreamID) == Present(1)
    ensures var repeat := Repeat(0x1_0000_0002, Some(0xffff_ffff));
      && ActionForIteration(action, repeat, 0x1_0000_0001) == Some(action[KStreamID := Num(0)])
      && IntendedAction(action, repeat, 0x1_0000_0001) == None
  {
  }

  /**
    Exactly when one iteration taken alone comes out right: its true id stays below 2^64, or what is
    left of it after wrapping is still too large for 32 bits.
   */
  lemma LoneIterationIsRightExactly(action: Table, repeat: Repeat, i: int64, base: uint32, step: uint32)
    requires i >= 0 && repeat.step == Some(step) && Uint32Field(action, KStreamID) == Present(base)
    ensures ActionForIteration(action, repeat, i) == IntendedAction(action, repeat, i)
       <==> TrueID(base, step, i) < TWO_TO_THE_64 || ToUint64(TrueID(base, step, i)) > MAX_UINT32
  {
    WrappedID(base, step, i);
    hide IterationID, TrueID, ToUint64;
  }

  lemma WrappedID(base: uint32, step: uint32, i: int64)
    requires i >= 0
    ensures IterationID(base, step, i) == ToUint64(TrueID(base, step, i))
  {
    AddThenWrap(base, step * i);
  }

  lemma AddThenWrap(a: nat, b: nat)
    ensures ToUint64(a + ToUint64(b)) == ToUint64(a + b)
  {
  }
}
