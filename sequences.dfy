/** The array operations the source leans on: `filter`, `findIndex` and `find`,
    over immutable sequences. */
module Sequences {
  import opened Types

  /** `a` can be obtained from `b` by deleting elements, keeping order. */
  predicate IsSubsequence<T(==)>(a: seq<T>, b: seq<T>)
  {
    if a == [] then true
    else if b == [] then false
    else (a[0] == b[0] && IsSubsequence(a[1..], b[1..])) || IsSubsequence(a, b[1..])
  }

  /** `xs.filter(p)`: the elements satisfying `p`, in order, each as often as in `xs`. */
  function Filter<T(==,!new)>(xs: seq<T>, p: T -> bool): (r: seq<T>)
    ensures |r| <= |xs|
    ensures IsSubsequence(r, xs)
    ensures forall x :: multiset(r)[x] == if p(x) then multiset(xs)[x] else 0
    ensures forall x :: x in r <==> x in xs && p(x)
    ensures (forall i :: 0 <= i < |xs| ==> p(xs[i])) ==> r == xs
  {
    if xs == [] then []
    else
      var rest := Filter(xs[1..], p);
      var r := if p(xs[0]) then [xs[0]] + rest else rest;
      FilterStepCount(xs, p, rest);
      CountMembers(r, xs, p);
      assert IsSubsequence(r, xs) by { FilterStepOrder(xs, p, rest); }
      r
  }

  /** One step of `Filter`: the head is counted exactly when it passes. */
  lemma FilterStepCount<T(!new)>(xs: seq<T>, p: T -> bool, rest: seq<T>)
    requires xs != []
    requires forall x :: multiset(rest)[x] == if p(x) then multiset(xs[1..])[x] else 0
    ensures forall x :: multiset(if p(xs[0]) then [xs[0]] + rest else rest)[x] ==
                        if p(x) then multiset(xs)[x] else 0
  {
    assert xs == [xs[0]] + xs[1..];
    assert multiset(xs) == multiset{xs[0]} + multiset(xs[1..]);
  }

  /** One step of `Filter`: the result stays a subsequence. */
  lemma FilterStepOrder<T>(xs: seq<T>, p: T -> bool, rest: seq<T>)
    requires xs != [] && IsSubsequence(rest, xs[1..])
    ensures IsSubsequence(if p(xs[0]) then [xs[0]] + rest else rest, xs)
  {
    if p(xs[0]) {
      assert ([xs[0]] + rest)[1..] == rest;
    } else if rest != [] {
      assert IsSubsequence(rest, xs[1..]);
    }
  }

  /** Exact per-value counts fix membership. */
  lemma CountMembers<T(!new)>(r: seq<T>, xs: seq<T>, p: T -> bool)
    requires forall x :: multiset(r)[x] == if p(x) then multiset(xs)[x] else 0
    ensures forall x :: x in r <==> x in xs && p(x)
  {
    forall x ensures x in r <==> x in xs && p(x) {
      assert x in r <==> multiset(r)[x] > 0;
      assert x in xs <==> multiset(xs)[x] > 0;
    }
  }

  /** Filtering twice with the same predicate is filtering once. */
  lemma FilterIdempotent<T(!new)>(xs: seq<T>, p: T -> bool)
    ensures Filter(Filter(xs, p), p) == Filter(xs, p)
  {
    var r := Filter(xs, p);
    forall i | 0 <= i < |r| ensures p(r[i]) {
      assert r[i] in r;
    }
  }

  /** `xs.findIndex(p)`: the first index whose element satisfies `p`; `None` stands for -1. */
  function FindIndex<T>(xs: seq<T>, p: T -> bool): (r: Option<nat>)
    ensures r.Some? ==> r.value < |xs| && p(xs[r.value])
    ensures r.Some? ==> forall j :: 0 <= j < r.value ==> !p(xs[j])
    ensures r.None? <==> forall j :: 0 <= j < |xs| ==> !p(xs[j])
  {
    if xs == [] then None
    else if p(xs[0]) then Some(0)
    else match FindIndex(xs[1..], p)
      case None => None
      case Some(i) => Some(i + 1)
  }

  /** `xs.find(p)`: the first element satisfying `p`. */
  function Find<T>(xs: seq<T>, p: T -> bool): (r: Option<T>)
    ensures r.Some? <==> exists i :: 0 <= i < |xs| && p(xs[i])
    ensures r.Some? ==> exists i :: 0 <= i < |xs| && xs[i] == r.value && p(xs[i]) &&
                                     forall j :: 0 <= j < i ==> !p(xs[j])
  {
    match FindIndex(xs, p)
    case None => None
    case Some(i) => Some(xs[i])
  }
}
