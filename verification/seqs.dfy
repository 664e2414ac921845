/** The two array operations the views use on collections fetched from the server:
    `Array.prototype.filter` and `Array.prototype.find` (here by index). */
module Seqs {
  import opened Values

  /** `xs.filter(keep)`: the elements for which `keep` holds, in their order. */
  function Filter<T>(xs: seq<T>, keep: T -> bool): (r: seq<T>)
    ensures |r| <= |xs|
    ensures forall i :: 0 <= i < |r| ==> keep(r[i])
  {
    if |xs| == 0 then []
    else if keep(xs[0]) then [xs[0]] + Filter(xs[1..], keep)
    else Filter(xs[1..], keep)
  }

  /** Index of the first element satisfying `hit`, as `find` would return it. */
  function FirstIndex<T>(xs: seq<T>, hit: T -> bool): (r: Option<nat>)
    ensures r.Some? ==> r.value < |xs| && hit(xs[r.value])
    ensures r.Some? ==> forall j :: 0 <= j < r.value ==> !hit(xs[j])
    ensures r.None? <==> forall j :: 0 <= j < |xs| ==> !hit(xs[j])
  {
    if |xs| == 0 then None
    else if hit(xs[0]) then Some(0)
    else
      match FirstIndex(xs[1..], hit)
      case None => None
      case Some(k) => Some(k + 1)
  }

  /** `xs` occurs in `ys` in order, possibly with gaps. */
  ghost predicate SubsequenceOf<T>(xs: seq<T>, ys: seq<T>)
    decreases |ys|
  {
    |xs| == 0 ||
    (|ys| > 0 &&
      ((xs[0] == ys[0] && SubsequenceOf(xs[1..], ys[1..])) || SubsequenceOf(xs, ys[1..])))
  }

  /** The filtered sequence holds exactly the elements that pass. */
  lemma {:induction false} FilterExactly<T>(xs: seq<T>, keep: T -> bool)
    ensures forall x :: x in Filter(xs, keep) <==> x in xs && keep(x)
  {
    if |xs| > 0 {
      FilterExactly(xs[1..], keep);
      assert forall x :: x in xs <==> x == xs[0] || x in xs[1..];
    }
  }

  /** Filtering keeps every copy of a passing element and no copy of a failing one. */
  lemma {:induction false} FilterCount<T>(xs: seq<T>, keep: T -> bool, x: T)
    ensures multiset(Filter(xs, keep))[x] == if keep(x) then multiset(xs)[x] else 0
  {
    if |xs| > 0 {
      FilterCount(xs[1..], keep, x);
      assert xs == [xs[0]] + xs[1..];
    }
  }

  /** Filtering keeps the original order. */
  lemma {:induction false} FilterIsSubsequence<T>(xs: seq<T>, keep: T -> bool)
    ensures SubsequenceOf(Filter(xs, keep), xs)
  {
    if |xs| > 0 {
      FilterIsSubsequence(xs[1..], keep);
      var r := Filter(xs, keep);
      if keep(xs[0]) {
        assert r[0] == xs[0] && r[1..] == Filter(xs[1..], keep);
      }
    }
  }

  /** Filtering a concatenation filters each part. */
  lemma {:induction false} FilterAppend<T>(xs: seq<T>, ys: seq<T>, keep: T -> bool)
    ensures Filter(xs + ys, keep) == Filter(xs, keep) + Filter(ys, keep)
  {
    if |xs| == 0 {
      assert xs + ys == ys;
    } else {
      assert (xs + ys)[0] == xs[0];
      assert (xs + ys)[1..] == xs[1..] + ys;
      FilterAppend(xs[1..], ys, keep);
    }
  }

  /** Nothing is dropped exactly when every element passes. */
  lemma {:induction false} FilterKeepsAll<T>(xs: seq<T>, keep: T -> bool)
    ensures |Filter(xs, keep)| == |xs| <==> forall i :: 0 <= i < |xs| ==> keep(xs[i])
  {
    if |xs| > 0 {
      FilterKeepsAll(xs[1..], keep);
      assert forall i :: 1 <= i < |xs| ==> xs[i] == xs[1..][i - 1];
    }
  }

  /** Every element either passes or fails: the two filters split the length. */
  lemma {:induction false} FilterSplitsLength<T>(xs: seq<T>, keep: T -> bool, drop: T -> bool)
    requires forall x :: drop(x) <==> !keep(x)
    ensures |Filter(xs, keep)| + |Filter(xs, drop)| == |xs|
  {
    if |xs| > 0 {
      FilterSplitsLength(xs[1..], keep, drop);
    }
  }
}
