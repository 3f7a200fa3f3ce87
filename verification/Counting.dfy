/** Counting the entries of a map that satisfy a predicate, under single-entry updates. */
module Counting {

  ghost function Matching<K, V>(m: map<K, V>, p: V -> bool): set<K> {
    set k | k in m && p(m[k])
  }

  ghost function Count<K, V>(m: map<K, V>, p: V -> bool): nat {
    |Matching(m, p)|
  }

  function Bit(b: bool): int {
    if b then 1 else 0
  }

  lemma CountUpdate<K, V>(m: map<K, V>, p: V -> bool, k: K, v: V)
    ensures Count(m[k := v], p) == Count(m, p) - Bit(k in m && p(m[k])) + Bit(p(v))
  {
    var before, after := Matching(m, p), Matching(m[k := v], p);
    SizeWithout(before, k);
    SizeWithout(after, k);
    assert after - {k} == before - {k} by {
      forall x
        ensures x in after - {k} <==> x in before - {k}
      {
      }
    }
  }

  lemma SizeWithout<K>(s: set<K>, k: K)
    ensures |s| == |s - {k}| + Bit(k in s)
  {
    if k !in s {
      assert s - {k} == s;
    }
  }

  lemma CountPositive<K, V>(m: map<K, V>, p: V -> bool, k: K)
    requires k in m && p(m[k])
    ensures Count(m, p) > 0
  {
    assert k in Matching(m, p);
  }

  lemma CountMonotone<K, V>(m: map<K, V>, p: V -> bool, q: V -> bool)
    requires forall k :: k in m && p(m[k]) ==> q(m[k])
    ensures Count(m, p) <= Count(m, q)
  {
    SubsetSize(Matching(m, p), Matching(m, q));
  }

  lemma SubsetSize<K>(a: set<K>, b: set<K>)
    requires a <= b
    ensures |a| <= |b|
  {
    assert b == a + (b - a);
  }

  /** The matching entries are those that also match `q` and those that do not. */
  lemma CountSplit<K, V(!new)>(m: map<K, V>, p: V -> bool, both: V -> bool, only: V -> bool, q: V -> bool)
    requires forall v :: both(v) <==> p(v) && q(v)
    requires forall v :: only(v) <==> p(v) && !q(v)
    ensures Count(m, p) == Count(m, both) + Count(m, only)
  {
    var a, b := Matching(m, both), Matching(m, only);
    assert Matching(m, p) == a + b && a !! b;
  }

  /** The numbers below `n`. */
  ghost function Below(n: nat): (r: set<nat>)
    ensures |r| == n && forall k: nat :: k in r <==> k < n
  {
    if n == 0 then {} else Below(n - 1) + {n - 1}
  }
}
