/**
 * The collection operations the order pages are built from: JavaScript's
 * `Array.prototype.findIndex`, `find` and `filter`, stated by what callers
 * rely on rather than by how they iterate.
 */
module Listas {

  datatype Option<+T> = None | Some(value: T)

  /** `xs.findIndex(pred)`: the first index whose element satisfies `pred`, or -1. */
  function FindIndex<T>(xs: seq<T>, pred: T -> bool): (i: int)
    ensures -1 <= i < |xs|
    ensures i == -1 <==> forall j :: 0 <= j < |xs| ==> !pred(xs[j])
    ensures 0 <= i ==> pred(xs[i]) && forall j :: 0 <= j < i ==> !pred(xs[j])
  {
    if xs == [] then -1
    else if pred(xs[0]) then 0
    else
      var k := FindIndex(xs[1..], pred);
      if k == -1 then -1 else k + 1
  }

  /** `xs.find(pred)`: the first element that satisfies `pred`, if there is one. */
  function Find<T>(xs: seq<T>, pred: T -> bool): (r: Option<T>)
    ensures r.None? <==> forall x :: x in xs ==> !pred(x)
    ensures r.Some? ==> r.value in xs && pred(r.value)
  {
    var i := FindIndex(xs, pred);
    if i == -1 then None else Some(xs[i])
  }

  /** `xs.filter(pred)`: the elements that satisfy `pred`, in their original order. */
  function Filter<T>(xs: seq<T>, pred: T -> bool): (r: seq<T>)
    ensures |r| <= |xs|
    ensures forall x :: x in r ==> x in xs && pred(x)
    ensures forall x :: x in xs && pred(x) ==> x in r
  {
    if xs == [] then []
    else (if pred(xs[0]) then [xs[0]] else []) + Filter(xs[1..], pred)
  }

  /** Filtering distributes over concatenation, so it keeps the relative order of what it keeps. */
  lemma {:induction false} FilterConcat<T>(xs: seq<T>, ys: seq<T>, pred: T -> bool)
    ensures Filter(xs + ys, pred) == Filter(xs, pred) + Filter(ys, pred)
  {
    if xs == [] {
      assert xs + ys == ys;
    } else {
      assert (xs + ys)[1..] == xs[1..] + ys;
      FilterConcat(xs[1..], ys, pred);
    }
  }

  /** A filter that every element passes changes nothing. */
  lemma {:induction false} FilterKeepsAll<T>(xs: seq<T>, pred: T -> bool)
    requires forall x :: x in xs ==> pred(x)
    ensures Filter(xs, pred) == xs
  {
    if xs != [] {
      assert forall x :: x in xs[1..] ==> x in xs;
      FilterKeepsAll(xs[1..], pred);
    }
  }

  predicate Distinct<T(==)>(xs: seq<T>)
  {
    forall i, j :: 0 <= i < j < |xs| ==> xs[i] != xs[j]
  }

  /** Elements whose keys are pairwise different. */
  predicate DistinctBy<T, K(==)>(xs: seq<T>, key: T -> K)
  {
    forall i, j :: 0 <= i < j < |xs| ==> key(xs[i]) != key(xs[j])
  }

  /** Filtering a list whose keys do not repeat gives a list whose keys do not repeat. */
  lemma {:induction false} FilterDistinctBy<T, K>(xs: seq<T>, key: T -> K, pred: T -> bool)
    ensures DistinctBy(xs, key) ==> DistinctBy(Filter(xs, pred), key)
  {
    if xs != [] && DistinctBy(xs, key) {
      FilterDistinctBy(xs[1..], key, pred);
      var rest := Filter(xs[1..], pred);
      if pred(xs[0]) {
        forall j | 0 <= j < |rest| ensures key(rest[j]) != key(xs[0]) {
          assert rest[j] in xs[1..];
        }
        assert Filter(xs, pred) == [xs[0]] + rest;
      }
    }
  }

  /** Filtering a list without repeats gives a list without repeats. */
  lemma FilterDistinct<T>(xs: seq<T>, pred: T -> bool)
    requires Distinct(xs)
    ensures Distinct(Filter(xs, pred))
  {
    var self := (x: T) => x;
    FilterDistinctBy(xs, self, pred);
    assert DistinctBy(Filter(xs, pred), self);
  }

  /**
   * A prefix of a filter of a list without repeats is closed to the left:
   * an element that passes the filter and comes before a kept one is kept.
   */
  lemma {:induction false} FilterPrefixClosed<T>(xs: seq<T>, pred: T -> bool, k: nat, i: int, j: int)
    requires Distinct(xs) && 0 <= i < j < |xs| && pred(xs[i])
    requires k <= |Filter(xs, pred)| && xs[j] in Filter(xs, pred)[..k]
    ensures xs[i] in Filter(xs, pred)[..k]
  {
    var rest := Filter(xs[1..], pred);
    if pred(xs[0]) {
      assert Filter(xs, pred) == [xs[0]] + rest;
      if i > 0 {
        assert xs[j] != xs[0];
        assert Filter(xs, pred)[..k] == [xs[0]] + rest[..k - 1];
        assert xs[1..][j - 1] in rest[..k - 1];
        FilterPrefixClosed(xs[1..], pred, k - 1, i - 1, j - 1);
        assert xs[1..][i - 1] == xs[i];
      } else {
        assert Filter(xs, pred)[..k][0] == xs[0];
      }
    } else {
      assert Filter(xs, pred) == rest;
      assert xs[1..][j - 1] == xs[j];
      FilterPrefixClosed(xs[1..], pred, k, i - 1, j - 1);
      assert xs[1..][i - 1] == xs[i];
    }
  }

  /** A filter nothing passes gives the empty list. */
  lemma {:induction false} FilterNone<T>(xs: seq<T>, pred: T -> bool)
    requires forall x :: x in xs ==> !pred(x)
    ensures Filter(xs, pred) == []
  {
    if xs != [] {
      assert xs[0] in xs;
      assert forall x :: x in xs[1..] ==> x in xs;
      FilterNone(xs[1..], pred);
    }
  }

  /** What a filter keeps, stated by position. */
  lemma FilterIndices<T>(xs: seq<T>, pred: T -> bool)
    ensures forall i :: 0 <= i < |Filter(xs, pred)| ==> Filter(xs, pred)[i] in xs && pred(Filter(xs, pred)[i])
  {
    var r := Filter(xs, pred);
    forall i | 0 <= i < |r| ensures r[i] in xs && pred(r[i]) {
      assert r[i] in r;
    }
  }
}
