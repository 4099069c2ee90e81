/**
 * Order-preserving selection over list positions: the LINQ `Where` that the
 * visitors and the compiler use to pick elements out of the bucket's lists.
 */
module Sequences {
  /** The positions 0 .. n-1 of a list, in order. */
  function Positions(n: nat): (r: seq<nat>)
    ensures |r| == n
    ensures forall i :: 0 <= i < n ==> r[i] == i
    ensures forall i :: i in r <==> 0 <= i < n
    ensures Increasing(r)
  {
    if n == 0 then [] else Positions(n - 1) + [n - 1]
  }

  /** An order-preserving filter over positions (LINQ `Where`). */
  function Where(xs: seq<nat>, p: nat -> bool): (r: seq<nat>)
    ensures forall x :: x in r <==> x in xs && p(x)
    ensures |r| <= |xs|
  {
    if xs == [] then [] else (if p(xs[0]) then [xs[0]] else []) + Where(xs[1..], p)
  }

  lemma {:induction false} WhereAppend(xs: seq<nat>, x: nat, p: nat -> bool)
    ensures Where(xs + [x], p) == Where(xs, p) + (if p(x) then [x] else [])
  {
    if xs != [] {
      assert (xs + [x])[1..] == xs[1..] + [x];
      WhereAppend(xs[1..], x, p);
    }
  }

  /** A filter no element passes keeps nothing. */
  lemma {:induction false} WhereNone(xs: seq<nat>, p: nat -> bool)
    requires forall x :: x in xs ==> !p(x)
    ensures Where(xs, p) == []
  {
    if xs != [] {
      assert forall x :: x in xs[1..] ==> x in xs;
      WhereNone(xs[1..], p);
    }
  }

  /** Strictly increasing positions: no position appears twice. */
  predicate Increasing(xs: seq<nat>)
  {
    forall a, b :: 0 <= a < b < |xs| ==> xs[a] < xs[b]
  }

  /** Filtering keeps the positions in increasing order. */
  lemma {:induction false} WhereIncreasing(xs: seq<nat>, p: nat -> bool)
    requires Increasing(xs)
    ensures Increasing(Where(xs, p))
  {
    if xs != [] {
      WhereIncreasing(xs[1..], p);
      var rest := Where(xs[1..], p);
      forall k | 0 <= k < |rest|
        ensures xs[0] < rest[k]
      {
        assert rest[k] in xs[1..];
      }
    }
  }

  /** A sequence with no members is empty. */
  lemma EmptyWithoutMembers(xs: seq<nat>)
    ensures (forall x :: x !in xs) ==> xs == []
  {
    if xs != [] {
      assert xs[0] in xs;
    }
  }

  /** The first two of increasing positions differ. */
  lemma FirstTwoDiffer(xs: seq<nat>)
    requires Increasing(xs)
    ensures |xs| >= 2 ==> xs[0] < xs[1]
  {
  }

  /** A filter every element passes keeps everything. */
  lemma {:induction false} KeepAll(xs: seq<nat>, p: nat -> bool)
    requires forall x :: x in xs ==> p(x)
    ensures Where(xs, p) == xs
  {
    if xs != [] {
      assert forall x :: x in xs[1..] ==> x in xs;
      KeepAll(xs[1..], p);
    }
  }

  /** Filtering a list with a first element decides that element, then filters the rest. */
  lemma WhereCons(x: nat, xs: seq<nat>, p: nat -> bool)
    ensures Where([x] + xs, p) == (if p(x) then [x] else []) + Where(xs, p)
  {
    assert ([x] + xs)[0] == x && ([x] + xs)[1..] == xs;
  }

  /** Filtering distributes over concatenation. */
  lemma {:induction false} WhereConcat(xs: seq<nat>, ys: seq<nat>, p: nat -> bool)
    ensures Where(xs + ys, p) == Where(xs, p) + Where(ys, p)
  {
    if xs != [] {
      assert (xs + ys)[0] == xs[0] && (xs + ys)[1..] == xs[1..] + ys;
      WhereConcat(xs[1..], ys, p);
    } else {
      assert xs + ys == ys;
    }
  }

  /** The elements of a list of lists, list after list (LINQ `SelectMany`). */
  function Flatten(xss: seq<seq<nat>>): (r: seq<nat>)
    ensures forall x :: x in r <==> exists k :: 0 <= k < |xss| && x in xss[k]
  {
    if xss == [] then [] else
      var r := Flatten(xss[..|xss| - 1]) + xss[|xss| - 1];
      assert forall k :: 0 <= k < |xss| - 1 ==> xss[..|xss| - 1][k] == xss[k];
      r
  }
}
