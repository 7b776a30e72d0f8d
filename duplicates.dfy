/** The duplicate test the camera service runs on the names and the orders of
    PTZ movements: `xs.filter((x, i) => xs.indexOf(x) !== i)`
    (src/modules/cameras/cameras.service.ts). */
module Duplicates {

  predicate Distinct<T(==)>(xs: seq<T>) {
    forall i, j :: 0 <= i < j < |xs| ==> xs[i] != xs[j]
  }

  /** `xs.indexOf(x)`: the first position of `x`, or -1. */
  function IndexOf<T(==)>(xs: seq<T>, x: T): (i: int)
    ensures -1 <= i < |xs|
    ensures i == -1 <==> x !in xs
    ensures i >= 0 ==> xs[i] == x && x !in xs[..i]
    decreases |xs|
  {
    if xs == [] then -1
    else if xs[0] == x then 0
    else
      var j := IndexOf(xs[1..], x);
      if j == -1 then -1
      else
        assert xs[..j + 1] == [xs[0]] + xs[1..][..j];
        j + 1
  }

  /** The filter applied to the first `n` positions of `xs`. */
  function RepeatsUpTo<T(==)>(xs: seq<T>, n: nat): seq<T>
    requires n <= |xs|
  {
    if n == 0 then []
    else RepeatsUpTo(xs, n - 1) + (if IndexOf(xs, xs[n - 1]) != n - 1 then [xs[n - 1]] else [])
  }

  /** Every element that occurs earlier in `xs` too, once per repeat, in order. */
  function Repeats<T(==)>(xs: seq<T>): seq<T> {
    RepeatsUpTo(xs, |xs|)
  }

  /** The filter keeps position `j` exactly when its element occurred before. */
  lemma KeptIffSeenBefore<T>(xs: seq<T>, j: nat)
    requires j < |xs|
    ensures IndexOf(xs, xs[j]) != j <==> xs[j] in xs[..j]
  {
    var i := IndexOf(xs, xs[j]);
    if xs[j] in xs[..j] {
      var k :| 0 <= k < j && xs[..j][k] == xs[j];
      assert xs[k] == xs[j];
    }
  }

  /** One more position: the filter grows by that element exactly when it
      occurred before. */
  lemma RepeatsStep<T>(xs: seq<T>, n: nat)
    requires 0 < n <= |xs|
    ensures RepeatsUpTo(xs, n) ==
      RepeatsUpTo(xs, n - 1) + (if xs[n - 1] in xs[..n - 1] then [xs[n - 1]] else [])
  {
    KeptIffSeenBefore(xs, n - 1);
  }

  lemma TakeSnoc<T>(xs: seq<T>, n: nat)
    requires 0 < n <= |xs|
    ensures xs[..n] == xs[..n - 1] + [xs[n - 1]]
  {
  }

  lemma DistinctSnoc<T>(p: seq<T>, y: T)
    ensures Distinct(p + [y]) <==> Distinct(p) && y !in p
  {
    var q := p + [y];
    if Distinct(q) {
      forall i, j | 0 <= i < j < |p| ensures p[i] != p[j] {
        assert q[i] == p[i] && q[j] == p[j];
      }
      forall k | 0 <= k < |p| ensures p[k] != y {
        assert q[k] == p[k] && q[|p|] == y;
      }
    }
  }

  lemma {:induction false} RepeatsUpToEmptyIff<T>(xs: seq<T>, n: nat)
    requires n <= |xs|
    ensures RepeatsUpTo(xs, n) == [] <==> Distinct(xs[..n])
  {
    if n > 0 {
      var p, y := xs[..n - 1], xs[n - 1];
      assert (RepeatsUpTo(xs, n) == []) == (RepeatsUpTo(xs, n - 1) == [] && y !in p) by {
        RepeatsStep(xs, n);
        assert |RepeatsUpTo(xs, n)| == |RepeatsUpTo(xs, n - 1)| + (if y in p then 1 else 0);
      }
      assert Distinct(xs[..n]) == (Distinct(p) && y !in p) by {
        DistinctSnoc(p, y);
        TakeSnoc(xs, n);
      }
      RepeatsUpToEmptyIff(xs, n - 1);
    }
  }

  /** The filter is empty exactly when no value repeats. */
  lemma RepeatsEmptyIff<T>(xs: seq<T>)
    ensures Repeats(xs) == [] <==> Distinct(xs)
  {
    RepeatsUpToEmptyIff(xs, |xs|);
    assert xs[..|xs|] == xs;
  }

  function OneLess(c: nat): nat {
    if c == 0 then 0 else c - 1
  }

  /** The count bookkeeping of one step: `r` holds every repeat of `p`;
      appending `y` to `p` adds a repeat exactly when `y` was seen. */
  lemma CountSnoc<T>(r: seq<T>, p: seq<T>, y: T, x: T)
    requires multiset(r)[x] == OneLess(multiset(p)[x])
    ensures multiset(r + (if y in p then [y] else []))[x] == OneLess(multiset(p + [y])[x])
  {
    assert multiset(p + [y]) == multiset(p) + multiset{y};
    assert y in p <==> multiset(p)[y] > 0;
  }

  lemma {:induction false} RepeatsUpToCount<T>(xs: seq<T>, n: nat, x: T)
    requires n <= |xs|
    ensures multiset(RepeatsUpTo(xs, n))[x] == OneLess(multiset(xs[..n])[x])
  {
    if n > 0 {
      var p, y := xs[..n - 1], xs[n - 1];
      RepeatsUpToCount(xs, n - 1, x);
      CountSnoc(RepeatsUpTo(xs, n - 1), p, y, x);
      RepeatsStep(xs, n);
      TakeSnoc(xs, n);
    }
  }

  /** Each value appears in the filter once less often than in `xs`. */
  lemma RepeatsCount<T>(xs: seq<T>, x: T)
    ensures multiset(Repeats(xs))[x] == if x in xs then multiset(xs)[x] - 1 else 0
  {
    RepeatsUpToCount(xs, |xs|, x);
    assert xs[..|xs|] == xs;
  }
}
