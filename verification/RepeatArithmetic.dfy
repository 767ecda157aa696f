/** The closed form that guards repeated stream ids (script_spec.go), over the integers. */
module RepeatArithmetic {
  import opened Wire

  /** The id of one iteration over the mathematical integers. */
  function TrueID(base: uint32, step: uint32, iteration: nat): nat {
    base + step * iteration
  }

  /** The validator's test: how many steps fit between the first id and the largest one. */
  predicate ClosedForm(base: uint32, step: uint32, count: int64) {
    step == 0 || count == 1 || count <= (MAX_UINT32 - base) / step + 1
  }

  lemma Distribute(step: nat, a: nat, b: nat)
    ensures step * (a + b) == step * a + step * b
  {
  }

  lemma Grows(base: uint32, step: uint32, i: nat, j: nat)
    requires i <= j
    ensures TrueID(base, step, i) <= TrueID(base, step, j)
    ensures TrueID(base, step, i + 1) == TrueID(base, step, i) + step
  {
    Distribute(step, i, j - i);
    Distribute(step, i, 1);
  }

  lemma Scale(step: nat, a: nat, b: nat)
    requires a <= b
    ensures step * a <= step * b
  {
    Distribute(step, a, b - a);
  }

  lemma Quotient(room: nat, step: nat)
    requires step > 0
    ensures step * (room / step) <= room < step * (room / step + 1)
  {
    assert room == step * (room / step) + room % step;
  }

  lemma QuotientBound(room: nat, step: nat, n: nat)
    requires step > 0
    ensures n <= room / step <==> step * n <= room
  {
    var q := room / step;
    Quotient(room, step);
    if n <= q { Scale(step, n, q); } else { Scale(step, q + 1, n); }
  }

  /** The bound is exact: the test passes if and only if the last iteration's true id fits 32 bits. */
  lemma ClosedFormIsExact(base: uint32, step: uint32, count: int64)
    requires count >= 1
    ensures ClosedForm(base, step, count) <==> TrueID(base, step, count - 1) <= MAX_UINT32
  {
    if step > 0 {
      QuotientBound(MAX_UINT32 - base, step, count - 1);
    }
  }
}
