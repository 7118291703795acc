/**
 * The greedy two-pointer search of tof/optimization.py: starting from a
 * range [left, right], move one end inwards whenever that strictly improves
 * the target, trying the left end first, and stop when neither move helps or
 * the ends meet.
 */
module Optimization {
  import opened Common

  /**
   * _is_next_better: strictly greater for "max", strictly smaller for "min";
   * any other optima type returns None, which is never better.
   */
  predicate IsNextBetter(optimaType: string, current: real, next: real) {
    if optimaType == "max" then next > current
    else if optimaType == "min" then next < current
    else false
  }

  /** An equal value is never better, whatever the optima type: ties keep the larger range. */
  lemma TiesAreNotBetter(optimaType: string, x: real)
    ensures !IsNextBetter(optimaType, x, x)
  {
  }

  /**
   * The pointers and the value the loop ends with from pointers (l, r) and
   * current optimum `opt`: the left move is tried first, then the right one.
   */
  function Greedy(f: (int, int) -> real, optimaType: string, l: int, r: int, opt: real): (res: (int, int, real))
    ensures l <= r ==> l <= res.0 <= res.1 <= r
    ensures l > r ==> res == (l, r, opt)
    ensures (res.0, res.1) != (l, r) ==> res.2 == f(res.0, res.1)
    ensures (res.0, res.1) == (l, r) ==> res.2 == opt
    decreases r - l
  {
    if l < r then
      if IsNextBetter(optimaType, opt, f(l + 1, r)) then Greedy(f, optimaType, l + 1, r, f(l + 1, r))
      else if IsNextBetter(optimaType, opt, f(l, r - 1)) then Greedy(f, optimaType, l, r - 1, f(l, r - 1))
      else (l, r, opt)
    else (l, r, opt)
  }

  /**
   * two_pointer_discrete_optimize. The pointers stay within the initial
   * range and only move inwards, the returned value is the target at the
   * returned pointers and is at least as good as the initial one, and on
   * return the pointers have met or neither inward move is strictly better.
   */
  method TwoPointerDiscreteOptimize(f: (int, int) -> real, leftPointerInit: int, rightPointerInit: int,
                                    optimaType: string)
    returns (leftPointer: int, rightPointer: int, optimumValue: real)
    ensures (leftPointer, rightPointer, optimumValue) ==
            Greedy(f, optimaType, leftPointerInit, rightPointerInit, f(leftPointerInit, rightPointerInit))
    ensures optimumValue == f(leftPointer, rightPointer)
    ensures leftPointerInit <= rightPointerInit ==>
              leftPointerInit <= leftPointer <= rightPointer <= rightPointerInit
    ensures leftPointerInit > rightPointerInit ==>
              leftPointer == leftPointerInit && rightPointer == rightPointerInit
    ensures leftPointer < rightPointer ==>
              !IsNextBetter(optimaType, optimumValue, f(leftPointer + 1, rightPointer)) &&
              !IsNextBetter(optimaType, optimumValue, f(leftPointer, rightPointer - 1))
    ensures optimaType == "max" ==> optimumValue >= f(leftPointerInit, rightPointerInit)
    ensures optimaType == "min" ==> optimumValue <= f(leftPointerInit, rightPointerInit)
  {
    leftPointer := leftPointerInit;
    rightPointer := rightPointerInit;
    optimumValue := f(leftPointer, rightPointer);
    while leftPointer < rightPointer
      invariant Greedy(f, optimaType, leftPointer, rightPointer, optimumValue) ==
                Greedy(f, optimaType, leftPointerInit, rightPointerInit, f(leftPointerInit, rightPointerInit))
      invariant optimumValue == f(leftPointer, rightPointer)
      invariant leftPointerInit <= rightPointerInit ==>
                  leftPointerInit <= leftPointer <= rightPointer <= rightPointerInit
      invariant leftPointerInit > rightPointerInit ==>
                  leftPointer == leftPointerInit && rightPointer == rightPointerInit
      invariant optimaType == "max" ==> optimumValue >= f(leftPointerInit, rightPointerInit)
      invariant optimaType == "min" ==> optimumValue <= f(leftPointerInit, rightPointerInit)
      decreases rightPointer - leftPointer
    {
      var nextLeft := f(leftPointer + 1, rightPointer);
      var nextRight := f(leftPointer, rightPointer - 1);
      if IsNextBetter(optimaType, optimumValue, nextLeft) {
        leftPointer := leftPointer + 1;
        optimumValue := nextLeft;
      } else if IsNextBetter(optimaType, optimumValue, nextRight) {
        rightPointer := rightPointer - 1;
        optimumValue := nextRight;
      } else {
        break;
      }
    }
  }

  /** With an optima type other than "max" or "min" nothing moves: the initial pointers and value come back. */
  lemma OtherOptimaTypeKeepsInitialRange(f: (int, int) -> real, optimaType: string, l: int, r: int)
    requires optimaType != "max" && optimaType != "min"
    ensures Greedy(f, optimaType, l, r, f(l, r)) == (l, r, f(l, r))
  {
  }

  /**
   * A target that strictly drops whenever either end of a range inside
   * [lo, hi] moves inwards (the sum of a positive series, for one).
   */
  ghost predicate StrictlyShrinking(f: (int, int) -> real, lo: int, hi: int) {
    forall l, r | lo <= l < r <= hi :: f(l + 1, r) < f(l, r) && f(l, r - 1) < f(l, r)
  }

  /** On a strictly shrinking target, maximisation keeps the whole initial range. */
  lemma MaxKeepsShrinkingRange(f: (int, int) -> real, l: int, r: int)
    requires StrictlyShrinking(f, l, r)
    ensures Greedy(f, "max", l, r, f(l, r)) == (l, r, f(l, r))
  {
    if l < r {
      assert f(l + 1, r) < f(l, r) && f(l, r - 1) < f(l, r);
    }
  }

  /** On a strictly shrinking target, minimisation moves the left end all the way to the right one. */
  lemma {:induction false} MinCollapsesShrinkingRange(f: (int, int) -> real, l: int, r: int)
    requires l <= r && StrictlyShrinking(f, l, r)
    ensures Greedy(f, "min", l, r, f(l, r)) == (r, r, f(r, r))
    decreases r - l
  {
    if l < r {
      assert f(l + 1, r) < f(l, r);
      assert StrictlyShrinking(f, l + 1, r);
      MinCollapsesShrinkingRange(f, l + 1, r);
    }
  }

  /** The sum of the entries l..r of a series, the target of the optimisation tests; zero outside the series. */
  function WindowSum(data: seq<real>, l: int, r: int): real {
    if 0 <= l <= r < |data| then Sum(data[l..r + 1]) else 0.0
  }

  lemma {:induction false} SumOfFirstAndRest(s: seq<real>)
    requires |s| > 0
    ensures Sum(s) == s[0] + Sum(s[1..])
    decreases |s|
  {
    if |s| > 1 {
      SumOfFirstAndRest(s[..|s| - 1]);
      assert s[..|s| - 1][1..] == s[1..][..|s[1..]| - 1];
    }
  }

  /** The window sums of a positive series strictly shrink. */
  lemma PositiveSeriesShrinks(data: seq<real>)
    requires forall i | 0 <= i < |data| :: data[i] > 0.0
    ensures StrictlyShrinking((l, r) => WindowSum(data, l, r), 0, |data| - 1)
  {
    forall l, r | 0 <= l < r <= |data| - 1
      ensures WindowSum(data, l + 1, r) < WindowSum(data, l, r) && WindowSum(data, l, r - 1) < WindowSum(data, l, r)
    {
      var w := data[l..r + 1];
      SumOfFirstAndRest(w);
      assert w[1..] == data[l + 1..r + 1];
      assert w[..|w| - 1] == data[l..r];
    }
  }

  /**
   * The optimisation tests on a positive series: maximising keeps the whole
   * series, minimising collapses it to its last entry.
   */
  lemma PositiveSeriesOptima(data: seq<real>)
    requires |data| > 0 && forall i | 0 <= i < |data| :: data[i] > 0.0
    ensures var f := (l, r) => WindowSum(data, l, r);
            && Greedy(f, "max", 0, |data| - 1, f(0, |data| - 1)) == (0, |data| - 1, f(0, |data| - 1))
            && Greedy(f, "min", 0, |data| - 1, f(0, |data| - 1)).0 == Greedy(f, "min", 0, |data| - 1, f(0, |data| - 1)).1
  {
    var f := (l, r) => WindowSum(data, l, r);
    PositiveSeriesShrinks(data);
    MaxKeepsShrinkingRange(f, 0, |data| - 1);
    MinCollapsesShrinkingRange(f, 0, |data| - 1);
  }
}
