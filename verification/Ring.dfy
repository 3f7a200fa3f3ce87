/** Points on a ring shared out among the positions of a list; a point listed twice belongs to the last. */
module Ring {
  import opened Choice
  import opened Sorting

  type Point = int

  ghost function Union(shares: seq<set<Point>>): set<Point> {
    if shares == [] then {} else Union(shares[..|shares| - 1]) + shares[|shares| - 1]
  }

  lemma {:induction false} UnionContains(shares: seq<set<Point>>, p: Point)
    ensures p in Union(shares) <==> exists k :: 0 <= k < |shares| && p in shares[k]
  {
    if shares != [] {
      var n := |shares| - 1;
      UnionContains(shares[..n], p);
      assert forall k :: 0 <= k < n ==> shares[..n][k] == shares[k];
    }
  }

  /** `p` is the first of the points clockwise from `x`. */
  ghost predicate Clockwise(points: set<Point>, x: Point, p: Point) {
    && p in points
    && (p >= x ==> forall q :: q in points && q >= x ==> p <= q)
    && (p < x ==> forall q :: q in points ==> q < x && p <= q)
  }

  ghost predicate LastWith(shares: seq<set<Point>>, p: Point, k: nat) {
    && k < |shares| && p in shares[k]
    && forall m :: k < m < |shares| ==> p !in shares[m]
  }

  /** Position `k` owns `x`: it is the last to have the first point clockwise from it. */
  ghost predicate Owns(shares: seq<set<Point>>, x: Point, k: nat, p: Point) {
    Clockwise(Union(shares), x, p) && LastWith(shares, p, k)
  }

  lemma OwnerIsUnique(shares: seq<set<Point>>, x: Point, k: nat, p: Point, k': nat, p': Point)
    requires Owns(shares, x, k, p) && Owns(shares, x, k', p')
    ensures k == k' && p == p'
  {
    assert p == p';
  }

  /** A first clockwise point stays first among fewer points. */
  lemma ClockwiseShrinks(points: set<Point>, fewer: set<Point>, x: Point, p: Point)
    requires Clockwise(points, x, p) && fewer <= points && p in fewer
    ensures Clockwise(fewer, x, p)
  {
  }

  /** `fewer` holds, in order, parts of the shares that `shares` has at the positions `at`. */
  ghost predicate Within(at: seq<nat>, fewer: seq<set<Point>>, shares: seq<set<Point>>) {
    && |at| == |fewer| && StrictlySorted(at)
    && forall i :: 0 <= i < |at| ==> at[i] < |shares| && fewer[i] <= shares[at[i]]
  }

  /** The owner of a point keeps it when other positions go away or shrink. */
  lemma OwnerSurvives(at: seq<nat>, fewer: seq<set<Point>>, shares: seq<set<Point>>, x: Point, i: nat, p: Point)
    requires Within(at, fewer, shares) && i < |at| && p in fewer[i] && Owns(shares, x, at[i], p)
    ensures Owns(fewer, x, i, p)
  {
    assert Union(fewer) <= Union(shares) by {
      forall q | q in Union(fewer)
        ensures q in Union(shares)
      {
        UnionContains(fewer, q);
        UnionContains(shares, q);
        var k :| 0 <= k < |fewer| && q in fewer[k];
        assert q in shares[at[k]];
      }
    }
    UnionContains(fewer, p);
    ClockwiseShrinks(Union(shares), Union(fewer), x, p);
    forall m | i < m < |fewer|
      ensures p !in fewer[m]
    {
      assert at[i] < at[m];
      assert p !in shares[at[m]];
    }
  }

  /** Every point of a non-empty ring has an owner. */
  lemma OwnerExists(shares: seq<set<Point>>, x: Point) returns (k: nat, p: Point)
    requires |Union(shares)| > 0
    ensures Owns(shares, x, k, p)
  {
    p := FirstClockwise(Union(shares), x);
    k := LastHolder(shares, p);
  }

  lemma LastHolder(shares: seq<set<Point>>, p: Point) returns (k: nat)
    requires p in Union(shares)
    ensures LastWith(shares, p, k)
  {
    var n := |shares| - 1;
    if p in shares[n] {
      k := n;
    } else {
      k := LastHolder(shares[..n], p);
      forall m | k < m < |shares|
        ensures p !in shares[m]
      {
        assert m < n ==> shares[..n][m] == shares[m];
      }
    }
  }

  lemma FirstClockwise(points: set<Point>, x: Point) returns (p: Point)
    requires |points| > 0
    ensures Clockwise(points, x, p)
  {
    var ahead := set q | q in points && q >= x;
    p := Minimum(if |ahead| > 0 then ahead else points);
    forall q | q in points
      ensures (p >= x && q >= x ==> p <= q) && (p < x ==> q < x && p <= q)
    {
      assert q >= x ==> q in ahead;
      assert p >= x ==> p in points ==> p in ahead;
    }
  }

  lemma Minimum(s: set<Point>) returns (p: Point)
    requires |s| > 0
    ensures p in s && forall q :: q in s ==> p <= q
  {
    var y := Element(s);
    var rest := s - {y};
    if |rest| == 0 {
      p := y;
    } else {
      p := Minimum(rest);
      if y < p {
        p := y;
      }
    }
    forall q | q in s
      ensures p <= q
    {
      assert q == y || q in rest;
    }
  }

  /** The index a binary search for the first entry not below `x` ends on, wrapped, holds the clockwise point. */
  lemma FoundIsClockwise(ring: seq<Point>, points: set<Point>, x: Point, i: nat)
    requires Sorted(ring) && i < |ring| && forall p :: p in ring <==> p in points
    requires forall m :: 0 <= m < i ==> ring[m] < x
    requires ring[i] >= x || (i == 0 && forall m :: 0 <= m < |ring| ==> ring[m] < x)
    ensures Clockwise(points, x, ring[i])
  {
    forall q | q in points
      ensures (ring[i] >= x && q >= x ==> ring[i] <= q) && (ring[i] < x ==> q < x && ring[i] <= q)
    {
      var m :| 0 <= m < |ring| && ring[m] == q;
    }
  }
}
