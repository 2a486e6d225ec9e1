/** Sums of amounts. A Python `sum(...)` over a generator with a filter is
    modelled as the sum of a per-amount "part" function: the filter keeps an
    amount when its part is the amount itself, and drops it when its part is 0.
    Amounts are exact reals in place of Python floats. */
module Sums {

  /** Sum of `f(x)` over `xs`, accumulated left to right. */
  function SumOf(f: real -> real, xs: seq<real>): real
    decreases |xs|
  {
    if xs == [] then 0.0 else SumOf(f, xs[..|xs| - 1]) + f(xs[|xs| - 1])
  }

  /** Every amount as is: `sum(amounts)`. */
  function Whole(x: real): real { x }

  /** An amount counted as income: kept when `x > 0`. */
  function IncomePart(x: real): real { if x > 0.0 then x else 0.0 }

  /** An amount counted as expense: kept, with its sign, when `x < 0`. */
  function ExpensePart(x: real): real { if x < 0.0 then x else 0.0 }

  /** An amount counted as monthly outflow: `abs(x)` when `x <= 0` (the
      `else` branch of `if amount > 0`). */
  function OutflowPart(x: real): real { if x > 0.0 then 0.0 else -x }

  function Sum(xs: seq<real>): real { SumOf(Whole, xs) }

  /** Sum of the positive amounts. */
  function Income(xs: seq<real>): real { SumOf(IncomePart, xs) }

  /** Sum of the negative amounts (not negated). */
  function Expense(xs: seq<real>): real { SumOf(ExpensePart, xs) }

  /** Sum of `abs(x)` over the amounts `x <= 0`. */
  function Outflow(xs: seq<real>): real { SumOf(OutflowPart, xs) }

  lemma {:induction false} SumOfAppend(f: real -> real, xs: seq<real>, ys: seq<real>)
    ensures SumOf(f, xs + ys) == SumOf(f, xs) + SumOf(f, ys)
    decreases |ys|
  {
    if ys == [] {
      assert xs + ys == xs;
    } else {
      var ys' := ys[..|ys| - 1];
      assert (xs + ys)[..|xs + ys| - 1] == xs + ys';
      SumOfAppend(f, xs, ys');
    }
  }

  /** A sum of parts that are never negative is never negative. */
  lemma {:induction false} SumOfNonNegative(f: real -> real, xs: seq<real>)
    requires forall x :: f(x) >= 0.0
    ensures SumOf(f, xs) >= 0.0
    decreases |xs|
  {
    if xs != [] {
      SumOfNonNegative(f, xs[..|xs| - 1]);
    }
  }

  /** A sum of parts that are never positive is never positive. */
  lemma {:induction false} SumOfNonPositive(f: real -> real, xs: seq<real>)
    requires forall x :: f(x) <= 0.0
    ensures SumOf(f, xs) <= 0.0
    decreases |xs|
  {
    if xs != [] {
      SumOfNonPositive(f, xs[..|xs| - 1]);
    }
  }

  /** Income, expense and outflow have fixed signs. */
  lemma Signs(xs: seq<real>)
    ensures Income(xs) >= 0.0
    ensures Expense(xs) <= 0.0
    ensures Outflow(xs) >= 0.0
  {
    SumOfNonNegative(IncomePart, xs);
    SumOfNonPositive(ExpensePart, xs);
    SumOfNonNegative(OutflowPart, xs);
  }

  /** Every amount is income, expense or zero: the net sum splits into the
      positive and the negative sums, and also into income minus outflow. */
  lemma {:induction false} SumSplits(xs: seq<real>)
    ensures Sum(xs) == Income(xs) + Expense(xs)
    ensures Sum(xs) == Income(xs) - Outflow(xs)
    decreases |xs|
  {
    if xs != [] {
      SumSplits(xs[..|xs| - 1]);
    }
  }

  /** Scaling every amount by `c` scales the sum by `c`. */
  lemma {:induction false} SumScales(xs: seq<real>, ys: seq<real>, c: real)
    requires |xs| == |ys|
    requires forall i :: 0 <= i < |xs| ==> ys[i] == c * xs[i]
    ensures Sum(ys) == c * Sum(xs)
    decreases |xs|
  {
    if xs != [] {
      SumScales(xs[..|xs| - 1], ys[..|ys| - 1], c);
    }
  }

  /** Zero amounts are neither income nor outflow. */
  lemma {:induction false} ZeroParts(xs: seq<real>)
    requires forall i :: 0 <= i < |xs| ==> xs[i] == 0.0
    ensures Income(xs) == 0.0 && Outflow(xs) == 0.0
    decreases |xs|
  {
    if xs != [] {
      ZeroParts(xs[..|xs| - 1]);
    }
  }
}
