/**
 * `Array.prototype.filter` with a pure predicate, as the three log pages
 * use it, and what it guarantees: the kept items are exactly the matching
 * ones, in their original order.
 */
module LogFilter {

  function Filter<T>(xs: seq<T>, p: T -> bool): (ys: seq<T>)
    ensures |ys| <= |xs|
    decreases |xs|
  {
    if xs == [] then []
    else
      var i := |xs| - 1;
      Filter(xs[..i], p) + (if p(xs[i]) then [xs[i]] else [])
  }

  /** An item is kept exactly when it is in the input and matches. */
  lemma {:induction false} FilterMembership<T>(xs: seq<T>, p: T -> bool, x: T)
    ensures x in Filter(xs, p) <==> x in xs && p(x)
    decreases |xs|
  {
    if xs != [] {
      var i := |xs| - 1;
      FilterMembership(xs[..i], p, x);
      assert xs == xs[..i] + [xs[i]];
    }
  }

  /** The positions of the items `Filter` keeps, in the order it keeps them. */
  function Positions<T>(xs: seq<T>, p: T -> bool): seq<nat>
    decreases |xs|
  {
    if xs == [] then []
    else
      var i := |xs| - 1;
      Positions(xs[..i], p) + (if p(xs[i]) then [i] else [])
  }

  lemma {:induction false} PositionsLength<T>(xs: seq<T>, p: T -> bool)
    ensures |Positions(xs, p)| == |Filter(xs, p)|
    decreases |xs|
  {
    if xs != [] {
      PositionsLength(xs[..|xs| - 1], p);
    }
  }

  lemma {:induction false} PositionsPointAtKept<T>(xs: seq<T>, p: T -> bool)
    ensures |Positions(xs, p)| == |Filter(xs, p)|
    ensures forall k :: 0 <= k < |Positions(xs, p)| ==>
              Positions(xs, p)[k] < |xs| && Filter(xs, p)[k] == xs[Positions(xs, p)[k]]
    decreases |xs|
  {
    PositionsLength(xs, p);
    if xs != [] {
      var i := |xs| - 1;
      var prefix := xs[..i];
      PositionsPointAtKept(prefix, p);
      forall k | 0 <= k < |Positions(prefix, p)|
        ensures prefix[Positions(prefix, p)[k]] == xs[Positions(prefix, p)[k]]
      {
      }
    }
  }

  lemma {:induction false} PositionsAscending<T>(xs: seq<T>, p: T -> bool)
    ensures forall k :: 0 <= k < |Positions(xs, p)| ==> Positions(xs, p)[k] < |xs|
    ensures forall k, m :: 0 <= k < m < |Positions(xs, p)| ==> Positions(xs, p)[k] < Positions(xs, p)[m]
    decreases |xs|
  {
    if xs != [] {
      PositionsAscending(xs[..|xs| - 1], p);
    }
  }

  lemma {:induction false} PositionsComplete<T>(xs: seq<T>, p: T -> bool)
    ensures forall j :: 0 <= j < |xs| && p(xs[j]) ==> j in Positions(xs, p)
    decreases |xs|
  {
    if xs != [] {
      var i := |xs| - 1;
      var prefix := xs[..i];
      PositionsComplete(prefix, p);
      forall j | 0 <= j < i && p(xs[j])
        ensures j in Positions(prefix, p)
      {
        assert prefix[j] == xs[j];
      }
    }
  }

  /**
   * The kept items are the items at ascending positions of the input, and
   * every matching position is among them: the result is the order-preserving
   * subsequence of matching items.
   */
  lemma FilterPositions<T>(xs: seq<T>, p: T -> bool) returns (positions: seq<nat>)
    ensures |positions| == |Filter(xs, p)|
    ensures forall k :: 0 <= k < |positions| ==>
              positions[k] < |xs| && Filter(xs, p)[k] == xs[positions[k]] && p(xs[positions[k]])
    ensures forall k, m :: 0 <= k < m < |positions| ==> positions[k] < positions[m]
    ensures forall i :: 0 <= i < |xs| && p(xs[i]) ==> i in positions
  {
    positions := Positions(xs, p);
    PositionsPointAtKept(xs, p);
    PositionsAscending(xs, p);
    PositionsComplete(xs, p);
    forall k | 0 <= k < |positions|
      ensures p(xs[positions[k]])
    {
      FilterMembership(xs, p, Filter(xs, p)[k]);
    }
  }

  /** When every item matches, nothing is dropped. */
  lemma {:induction false} FilterKeepsAll<T>(xs: seq<T>, p: T -> bool)
    requires forall i :: 0 <= i < |xs| ==> p(xs[i])
    ensures Filter(xs, p) == xs
    decreases |xs|
  {
    if xs != [] {
      var i := |xs| - 1;
      FilterKeepsAll(xs[..i], p);
      assert xs == xs[..i] + [xs[i]];
    }
  }

  /** Two predicates that agree on the input keep the same items. */
  lemma {:induction false} FilterCongruent<T>(xs: seq<T>, p: T -> bool, q: T -> bool)
    requires forall i :: 0 <= i < |xs| ==> p(xs[i]) == q(xs[i])
    ensures Filter(xs, p) == Filter(xs, q)
    decreases |xs|
  {
    if xs != [] {
      FilterCongruent(xs[..|xs| - 1], p, q);
    }
  }

  /** The positions of the matching items. */
  function MatchingIndices<T>(xs: seq<T>, p: T -> bool): set<int> {
    set i | 0 <= i < |xs| && p(xs[i])
  }

  /** The number of kept items is the number of matching positions. */
  lemma {:induction false} FilterCount<T>(xs: seq<T>, p: T -> bool)
    ensures |Filter(xs, p)| == |MatchingIndices(xs, p)|
    decreases |xs|
  {
    if xs == [] {
      assert MatchingIndices(xs, p) == {};
    } else {
      var i := |xs| - 1;
      FilterCount(xs[..i], p);
      var before := MatchingIndices(xs[..i], p);
      assert i !in before;
      if p(xs[i]) {
        assert MatchingIndices(xs, p) == before + {i};
      } else {
        assert MatchingIndices(xs, p) == before;
      }
    }
  }

  /** Filtering a prefix gives a prefix of the filtered whole. */
  lemma {:induction false} FilterPrefix<T>(xs: seq<T>, p: T -> bool, n: nat)
    requires n <= |xs|
    ensures Filter(xs[..n], p) <= Filter(xs, p)
    decreases |xs|
  {
    if n < |xs| {
      var i := |xs| - 1;
      assert xs[..i][..n] == xs[..n];
      FilterPrefix(xs[..i], p, n);
    } else {
      assert xs[..n] == xs;
    }
  }
}
