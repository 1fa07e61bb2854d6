/**
 * Every timer and distance budget of the characters counts down by a
 * fixed amount per tick and is "done" once it is no longer positive.
 * Left(budget, step, n) is what remains after n decrements, and
 * Steps(budget, step) is how many decrements it takes to be done.
 */
module Countdown {

  /** The budget after n decrements by `step`. */
  function Left(budget: real, step: real, n: nat): real
  {
    if n == 0 then budget else Left(budget, step, n - 1) - step
  }

  /** The closed form: n decrements take n times the step off. */
  lemma {:induction false} LeftIsLinear(budget: real, step: real, n: nat)
    ensures Left(budget, step, n) == budget - (n as real) * step
  {
    if n > 0 {
      LeftIsLinear(budget, step, n - 1);
      assert ((n - 1) as real) * step + step == (n as real) * step;
    }
  }

  /** Counting down from a budget already decremented once is one decrement ahead. */
  lemma {:induction false} LeftShift(budget: real, step: real, n: nat)
    ensures Left(budget - step, step, n) == Left(budget, step, n + 1)
  {
    if n > 0 {
      LeftShift(budget, step, n - 1);
    }
  }

  /** The number of decrements by `step` after which `budget` is no longer positive. */
  function Steps(budget: real, step: real): nat
    requires step > 0.0
    decreases if budget <= 0.0 then 0 else (budget / step).Floor + 1
  {
    if budget <= 0.0 then 0
    else
      ShiftQuotient(budget, step);
      assert ((budget - step) / step).Floor == (budget / step).Floor - 1;
      1 + Steps(budget - step, step)
  }

  /** A product with a positive factor is zero only when the other factor is. */
  lemma CancelStep(x: real, step: real)
    requires step > 0.0 && x * step == 0.0
    ensures x == 0.0
  {
    if x > 0.0 { assert false; }
    if x < 0.0 { assert false; }
  }

  /** Taking one step off the budget takes one off its quotient by the step. */
  lemma ShiftQuotient(budget: real, step: real)
    requires step > 0.0
    ensures (budget - step) / step == budget / step - 1.0
  {
    var q := budget / step;
    var r := (budget - step) / step;
    assert q * step == budget;
    assert r * step == budget - step;
    assert (q - 1.0) * step == q * step - step;
    CancelStep(r - (q - 1.0), step);
  }

  /** After Steps(budget, step) decrements the budget is spent. */
  lemma {:induction false} SpentAfterSteps(budget: real, step: real)
    requires step > 0.0
    ensures !(Left(budget, step, Steps(budget, step)) > 0.0)
    decreases Steps(budget, step)
  {
    if budget > 0.0 {
      var k := Steps(budget - step, step);
      SpentAfterSteps(budget - step, step);
      LeftShift(budget, step, k);
    }
  }

  /** Before the last of them, every decrement leaves the budget positive. */
  lemma {:induction false} PositiveBefore(budget: real, step: real, j: nat)
    requires step > 0.0 && j < Steps(budget, step)
    ensures Left(budget, step, j) > 0.0
    decreases j
  {
    if j > 0 {
      PositiveBefore(budget - step, step, j - 1);
      LeftShift(budget, step, j - 1);
    }
  }

  /** Scaling by a positive step preserves strict order. */
  lemma ScaleOrder(x: real, y: real, step: real)
    requires step > 0.0 && x < y
    ensures x * step < y * step
  {
    assert y * step - x * step == (y - x) * step;
  }

  /** Comparing multiples of a positive step compares the multipliers. */
  lemma UnscaleOrder(x: real, y: real, step: real)
    requires step > 0.0
    ensures x * step < y * step ==> x < y
    ensures x * step <= y * step ==> x <= y
  {
    if y < x {
      ScaleOrder(y, x, step);
    }
    if y == x {
      assert x * step == y * step;
    }
  }

  /** Steps(budget, step) whole steps cover the budget and one fewer does not. */
  lemma StepsBracket(budget: real, step: real)
    requires step > 0.0 && budget > 0.0
    ensures var k := Steps(budget, step);
      k >= 1 && ((k - 1) as real) * step < budget <= (k as real) * step
  {
    var k := Steps(budget, step);
    SpentAfterSteps(budget, step);
    LeftIsLinear(budget, step, k);
    PositiveBefore(budget, step, k - 1);
    LeftIsLinear(budget, step, k - 1);
  }

  /**
   * The count is the ceiling of budget / step: the least whole number of
   * steps that covers the budget.
   */
  lemma StepsIsCeiling(budget: real, step: real)
    requires step > 0.0 && budget > 0.0
    ensures var k := Steps(budget, step); (k - 1) as real < budget / step <= k as real
  {
    var k := Steps(budget, step);
    var q := budget / step;
    assert q * step == budget;
    StepsBracket(budget, step);
    UnscaleOrder((k - 1) as real, q, step);
    UnscaleOrder(q, k as real, step);
  }
}
