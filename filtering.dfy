/** Python's list comprehension with a condition, `[x for x in xs if keep(x)]`, and what
    it selects. */
module Filtering {

  /** The elements of `xs` for which `keep` holds, in their order in `xs`. */
  function Filter<T>(xs: seq<T>, keep: T -> bool): (r: seq<T>)
    ensures |r| <= |xs|
    ensures forall k :: 0 <= k < |r| ==> r[k] in xs && keep(r[k])
  {
    if xs == [] then []
    else (if keep(xs[0]) then [xs[0]] else []) + Filter(xs[1..], keep)
  }

  /** An element is kept exactly when it is in `xs` and satisfies `keep`. */
  lemma {:induction false} FilterMembers<T>(xs: seq<T>, keep: T -> bool, x: T)
    ensures x in Filter(xs, keep) <==> x in xs && keep(x)
  {
    if xs != [] {
      FilterMembers(xs[1..], keep, x);
      assert xs == [xs[0]] + xs[1..];
    }
  }

  /** The positions, from `from` on, of the elements of `xs` that satisfy `keep`. */
  ghost function PositionsFrom<T>(xs: seq<T>, keep: T -> bool, from: nat): seq<nat>
    requires from <= |xs|
    decreases |xs| - from
  {
    if from == |xs| then []
    else (if keep(xs[from]) then [from] else []) + PositionsFrom(xs, keep, from + 1)
  }

  /** `positions` lists, in increasing order, exactly the positions from `from` on of the
      elements satisfying `keep`, and `kept` is the elements at those positions. */
  ghost predicate SelectsFrom<T>(xs: seq<T>, keep: T -> bool, from: nat, kept: seq<T>, positions: seq<nat>)
  {
    && |positions| == |kept|
    && (forall k :: 0 <= k < |positions| ==>
          from <= positions[k] < |xs| && kept[k] == xs[positions[k]])
    && (forall k, l :: 0 <= k < l < |positions| ==> positions[k] < positions[l])
    && (forall i :: from <= i < |xs| ==> (i in positions <==> keep(xs[i])))
  }

  /** A kept element at `from` goes in front of the selection made from `from + 1` on. */
  lemma SelectsKept<T>(xs: seq<T>, keep: T -> bool, from: nat, kept: seq<T>, rest: seq<nat>)
    requires from < |xs| && keep(xs[from])
    requires SelectsFrom(xs, keep, from + 1, kept, rest)
    ensures SelectsFrom(xs, keep, from, [xs[from]] + kept, [from] + rest)
  {
    var positions := [from] + rest;
    forall k | 0 < k < |positions|
      ensures from <= positions[k] < |xs| && ([xs[from]] + kept)[k] == xs[positions[k]]
    {
      assert positions[k] == rest[k - 1];
    }
    forall k, l | 0 <= k < l < |positions|
      ensures positions[k] < positions[l]
    {
      assert positions[l] == rest[l - 1];
    }
  }

  /** A dropped element at `from` leaves the selection made from `from + 1` on as it is. */
  lemma SelectsDropped<T>(xs: seq<T>, keep: T -> bool, from: nat, kept: seq<T>, rest: seq<nat>)
    requires from < |xs| && !keep(xs[from])
    requires SelectsFrom(xs, keep, from + 1, kept, rest)
    ensures SelectsFrom(xs, keep, from, kept, rest)
  {
  }

  /** The filter of `xs[from..]` is the sub-sequence at `PositionsFrom(xs, keep, from)`. */
  lemma {:induction false} FilterFrom<T>(xs: seq<T>, keep: T -> bool, from: nat)
    requires from <= |xs|
    ensures SelectsFrom(xs, keep, from, Filter(xs[from..], keep), PositionsFrom(xs, keep, from))
    decreases |xs| - from
  {
    if from < |xs| {
      FilterFrom(xs, keep, from + 1);
      var rest := PositionsFrom(xs, keep, from + 1);
      var kept := Filter(xs[from + 1..], keep);
      assert xs[from..][1..] == xs[from + 1..];
      if keep(xs[from]) {
        SelectsKept(xs, keep, from, kept, rest);
      } else {
        SelectsDropped(xs, keep, from, kept, rest);
      }
    }
  }

  /** The filter's result is the sub-sequence of `xs` at exactly the positions whose
      element satisfies `keep`, listed in increasing order. */
  lemma FilterPositions<T>(xs: seq<T>, keep: T -> bool)
    ensures SelectsFrom(xs, keep, 0, Filter(xs, keep), PositionsFrom(xs, keep, 0))
  {
    FilterFrom(xs, keep, 0);
    assert xs[0..] == xs;
  }
}
