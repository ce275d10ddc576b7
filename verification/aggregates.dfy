/**
 * Sequence folds standing in for the SQL aggregates the router issues:
 * COUNT(...) WHERE ..., SUM, MIN and MAX over the rows a filter keeps.
 * Folds recurse from the last element, so `xs` and `xs[..|xs|-1] + [last]`
 * unfold the same way in every proof.
 */
module Aggregates {

  /** Number of elements of `xs` satisfying `f` (a `COUNT(*) WHERE f`). */
  function CountWhere<T>(xs: seq<T>, f: T -> bool): (n: nat)
    ensures n <= |xs|
    decreases |xs|
  {
    if |xs| == 0 then 0
    else CountWhere(xs[..|xs|-1], f) + (if f(xs[|xs|-1]) then 1 else 0)
  }

  /** Reference definition of a filtered count: the set of positions that satisfy `f`. */
  ghost function IndicesWhere<T>(xs: seq<T>, f: T -> bool): set<nat>
  {
    set i: nat | i < |xs| && f(xs[i])
  }

  /** The fold counts exactly the positions whose element satisfies `f`. */
  lemma {:induction false} CountWhereIsIndexCount<T>(xs: seq<T>, f: T -> bool)
    ensures CountWhere(xs, f) == |IndicesWhere(xs, f)|
    decreases |xs|
  {
    if |xs| == 0 {
      assert IndicesWhere(xs, f) == {};
    } else {
      var init := xs[..|xs|-1];
      var last := |xs| - 1;
      CountWhereIsIndexCount(init, f);
      var before := IndicesWhere(init, f);
      assert last !in before;
      if f(xs[last]) {
        assert IndicesWhere(xs, f) == before + {last};
      } else {
        assert IndicesWhere(xs, f) == before;
      }
    }
  }

  /** A weaker filter never counts more: if `f` implies `g`, COUNT WHERE f <= COUNT WHERE g. */
  lemma {:induction false} CountWhereMonotone<T>(xs: seq<T>, f: T -> bool, g: T -> bool)
    requires forall x :: f(x) ==> g(x)
    ensures CountWhere(xs, f) <= CountWhere(xs, g)
    decreases |xs|
  {
    if |xs| > 0 {
      CountWhereMonotone(xs[..|xs|-1], f, g);
    }
  }

  /** The elements of `xs` satisfying `f`, in their original order (the rows a WHERE keeps). */
  function Filter<T>(xs: seq<T>, f: T -> bool): (r: seq<T>)
    ensures |r| == CountWhere(xs, f)
    ensures forall i :: 0 <= i < |r| ==> f(r[i])
    decreases |xs|
  {
    if |xs| == 0 then []
    else
      var init := xs[..|xs|-1];
      var last := xs[|xs|-1];
      Filter(init, f) + (if f(last) then [last] else [])
  }

  /** The WHERE keeps exactly the qualifying rows: each kept row comes from
      the table, each qualifying row is kept, and no row is kept more often
      than it occurs (with the count of `Filter`, as often as it occurs). */
  lemma {:induction false} FilterKeepsTheQualifyingRows<T>(xs: seq<T>, f: T -> bool)
    ensures forall i :: 0 <= i < |Filter(xs, f)| ==> Filter(xs, f)[i] in xs
    ensures forall i :: 0 <= i < |xs| && f(xs[i]) ==> xs[i] in Filter(xs, f)
    ensures multiset(Filter(xs, f)) <= multiset(xs)
    decreases |xs|
  {
    if |xs| > 0 {
      var init, last := xs[..|xs|-1], xs[|xs|-1];
      FilterKeepsTheQualifyingRows(init, f);
      assert xs == init + [last];
    }
  }

  /** Appending a row the filter keeps appends it to the filtered rows. */
  lemma FilterSnoc<T>(init: seq<T>, last: T, f: T -> bool)
    requires f(last)
    ensures Filter(init + [last], f) == Filter(init, f) + [last]
  {
    assert (init + [last])[..|init|] == init;
  }

  /** A filter every element satisfies keeps the whole sequence, in order. */
  lemma {:induction false} FilterAll<T>(xs: seq<T>, f: T -> bool)
    requires forall i :: 0 <= i < |xs| ==> f(xs[i])
    ensures Filter(xs, f) == xs
    decreases |xs|
  {
    if |xs| > 0 {
      var init, last := xs[..|xs|-1], xs[|xs|-1];
      FilterAll(init, f);
      FilterSnoc(init, last, f);
      assert xs == init + [last];
    }
  }

  /** Sum of a sequence of reals (SQL SUM). */
  function SumOf(xs: seq<real>): real
    decreases |xs|
  {
    if |xs| == 0 then 0.0 else SumOf(xs[..|xs|-1]) + xs[|xs|-1]
  }

  /** Least element of a non-empty sequence (SQL MIN; MIN over no rows is NULL, hence the requires). */
  function MinOf(xs: seq<real>): (m: real)
    requires |xs| > 0
    ensures m in xs
    ensures forall i :: 0 <= i < |xs| ==> m <= xs[i]
    decreases |xs|
  {
    if |xs| == 1 then xs[0]
    else
      var m := MinOf(xs[..|xs|-1]);
      if xs[|xs|-1] < m then xs[|xs|-1] else m
  }

  /** Greatest element of a non-empty sequence (SQL MAX). */
  function MaxOf(xs: seq<real>): (m: real)
    requires |xs| > 0
    ensures m in xs
    ensures forall i :: 0 <= i < |xs| ==> xs[i] <= m
    decreases |xs|
  {
    if |xs| == 1 then xs[0]
    else
      var m := MaxOf(xs[..|xs|-1]);
      if xs[|xs|-1] > m then xs[|xs|-1] else m
  }

  /** A lower bound on every element bounds the sum from below by `|xs|` copies of it. */
  lemma {:induction false} SumAtLeast(xs: seq<real>, lo: real)
    requires forall i :: 0 <= i < |xs| ==> lo <= xs[i]
    ensures (|xs| as real) * lo <= SumOf(xs)
    decreases |xs|
  {
    if |xs| > 0 {
      SumAtLeast(xs[..|xs|-1], lo);
    }
  }

  /** An upper bound on every element bounds the sum from above by `|xs|` copies of it. */
  lemma {:induction false} SumAtMost(xs: seq<real>, hi: real)
    requires forall i :: 0 <= i < |xs| ==> xs[i] <= hi
    ensures SumOf(xs) <= (|xs| as real) * hi
    decreases |xs|
  {
    if |xs| > 0 {
      SumAtMost(xs[..|xs|-1], hi);
    }
  }

  /** Dividing `n * a <= s` by a positive `n`. */
  lemma DivideLower(a: real, s: real, n: real)
    requires n > 0.0 && n * a <= s
    ensures a <= s / n
  {
  }

  /** Dividing `s <= n * b` by a positive `n`. */
  lemma DivideUpper(s: real, b: real, n: real)
    requires n > 0.0 && s <= n * b
    ensures s / n <= b
  {
  }

  /** Any lower bound on the elements is a lower bound on their mean. */
  lemma MeanAtLeast(xs: seq<real>, lo: real)
    requires |xs| > 0
    requires forall i :: 0 <= i < |xs| ==> lo <= xs[i]
    ensures lo <= SumOf(xs) / (|xs| as real)
  {
    SumAtLeast(xs, lo);
    DivideLower(lo, SumOf(xs), |xs| as real);
  }

  /** Any upper bound on the elements is an upper bound on their mean. */
  lemma MeanAtMost(xs: seq<real>, hi: real)
    requires |xs| > 0
    requires forall i :: 0 <= i < |xs| ==> xs[i] <= hi
    ensures SumOf(xs) / (|xs| as real) <= hi
  {
    SumAtMost(xs, hi);
    DivideUpper(SumOf(xs), hi, |xs| as real);
  }

  /** The mean of a non-empty sequence lies between its minimum and its maximum. */
  lemma MeanBetweenMinAndMax(xs: seq<real>)
    requires |xs| > 0
    ensures MinOf(xs) <= SumOf(xs) / (|xs| as real) <= MaxOf(xs)
  {
    MeanAtLeast(xs, MinOf(xs));
    MeanAtMost(xs, MaxOf(xs));
  }
}
