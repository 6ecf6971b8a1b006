/**
  The JavaScript collection built-ins that the views compose their derived values from:
  `Array.prototype.find`, `Array.prototype.filter`, `Array.prototype.flatMap` and
  `Array.from(new Set(xs))`, which keeps the first occurrence of each element in insertion
  order. Each is stated against an independent description of what the built-in returns.
*/
module ArrayOps {
  import opened Wrappers

  /** `a` can be obtained from `b` by deleting elements, keeping the order of the rest. */
  ghost predicate IsSubsequence<T>(a: seq<T>, b: seq<T>)
    decreases |b|
  {
    |a| == 0 || (|b| > 0 && ((a[0] == b[0] && IsSubsequence(a[1..], b[1..])) || IsSubsequence(a, b[1..])))
  }

  /** Index of the first element satisfying `p`, or `|xs|` when there is none (`findIndex`, with -1 read as `|xs|`). */
  function FindIndex<T>(xs: seq<T>, p: T -> bool): (i: nat)
    ensures i <= |xs|
    ensures forall j :: 0 <= j < i ==> !p(xs[j])
    ensures i < |xs| ==> p(xs[i])
  {
    if |xs| == 0 then 0
    else if p(xs[0]) then 0
    else 1 + FindIndex(xs[1..], p)
  }

  /** `xs.find(p)`: the first element satisfying `p`, or `undefined`. */
  function Find<T>(xs: seq<T>, p: T -> bool): (r: Option<T>)
    ensures r.None? <==> forall i :: 0 <= i < |xs| ==> !p(xs[i])
    ensures r.Some? ==> p(r.value) && r.value in xs
  {
    var i := FindIndex(xs, p);
    if i < |xs| then Some(xs[i]) else None
  }

  /** The first match is what `find` returns, whatever follows it. */
  lemma FindReturnsFirstMatch<T>(xs: seq<T>, p: T -> bool, k: nat)
    requires k < |xs| && p(xs[k])
    requires forall j :: 0 <= j < k ==> !p(xs[j])
    ensures Find(xs, p) == Some(xs[k])
  {
  }

  /** `xs.filter(p)`. */
  function Filter<T>(xs: seq<T>, p: T -> bool): (r: seq<T>)
    ensures IsSubsequence(r, xs)
    ensures forall x :: x in r ==> x in xs && p(x)
    ensures forall x :: x in xs && p(x) ==> multiset(r)[x] == multiset(xs)[x]
  {
    if |xs| == 0 then []
    else
      var rest := Filter(xs[1..], p);
      assert xs == [xs[0]] + xs[1..];
      if p(xs[0]) then
        assert ([xs[0]] + rest)[1..] == rest;
        [xs[0]] + rest
      else
        rest
  }

  /** `xs.flatMap(f)`: the concatenation of `f(x)` over `xs`, in order. */
  function FlatMap<T, U>(xs: seq<T>, f: T -> seq<U>): (r: seq<U>)
    ensures forall i, y :: 0 <= i < |xs| && y in f(xs[i]) ==> y in r
    ensures forall y :: y in r ==> exists i :: 0 <= i < |xs| && y in f(xs[i])
    ensures |xs| == 0 ==> r == []
    ensures |xs| == 1 ==> r == f(xs[0])
  {
    if |xs| == 0 then []
    else
      var rest := FlatMap(xs[1..], f);
      assert forall y :: y in rest ==> exists i :: 1 <= i < |xs| && y in f(xs[i]) by {
        forall y | y in rest ensures exists i :: 1 <= i < |xs| && y in f(xs[i]) {
          var i :| 0 <= i < |xs[1..]| && y in f(xs[1..][i]);
          assert y in f(xs[i + 1]);
        }
      }
      f(xs[0]) + rest
  }

  /** Mapping a concatenation concatenates the results: `FlatMap` keeps the order of `xs`. */
  lemma {:induction false} FlatMapAppend<T, U>(xs: seq<T>, ys: seq<T>, f: T -> seq<U>)
    ensures FlatMap(xs + ys, f) == FlatMap(xs, f) + FlatMap(ys, f)
  {
    if |xs| == 0 {
      assert xs + ys == ys;
    } else {
      assert (xs + ys)[1..] == xs[1..] + ys;
      FlatMapAppend(xs[1..], ys, f);
    }
  }

  /** Position of the first occurrence of `x` in `xs` (`indexOf`), `|xs|` when absent. */
  function IndexOf<T(==)>(xs: seq<T>, x: T): (i: nat)
    ensures i <= |xs|
    ensures i < |xs| <==> x in xs
    ensures i < |xs| ==> xs[i] == x
    ensures forall j :: 0 <= j < i ==> xs[j] != x
  {
    if |xs| == 0 then 0
    else if xs[0] == x then 0
    else 1 + IndexOf(xs[1..], x)
  }

  predicate NoDuplicates<T(==)>(xs: seq<T>) {
    forall i, j :: 0 <= i < j < |xs| ==> xs[i] != xs[j]
  }

  /** Appending leaves the first occurrence of every element already present where it was. */
  lemma IndexOfAppend<T>(xs: seq<T>, a: T, x: T)
    ensures IndexOf(xs + [a], x) == if x in xs then IndexOf(xs, x) else if x == a then |xs| else |xs| + 1
  {
    var k := IndexOf(xs, x);
    if x in xs {
      assert (xs + [a])[k] == x;
    } else if x == a {
      assert (xs + [a])[|xs|] == x;
    } else {
      assert x !in xs + [a];
    }
  }

  /**
    `Array.from(new Set(xs))`: every element of `xs` once, ordered by where it first occurs.
    Built the way a Set is filled, by inserting the elements of `xs` from left to right.
  */
  function Distinct<T(==)>(xs: seq<T>): (r: seq<T>)
    ensures NoDuplicates(r)
    ensures forall x :: x in r ==> x in xs
    ensures forall x :: x in xs ==> x in r
    ensures forall i, j :: 0 <= i < j < |r| ==> IndexOf(xs, r[i]) < IndexOf(xs, r[j])
  {
    if |xs| == 0 then []
    else
      var init := xs[..|xs| - 1];
      var last := xs[|xs| - 1];
      var d := Distinct(init);
      assert xs == init + [last];
      forall x | x in d ensures IndexOf(xs, x) == IndexOf(init, x) {
        IndexOfAppend(init, last, x);
      }
      if last in d then
        d
      else
        IndexOfAppend(init, last, last);
        d + [last]
  }
}
