/** Sorting integers: `sort.Ints`, `sort.Slice` with `<`, and lists without repetition. */
module Sorting {
  import opened Subsequences

  predicate Sorted(s: seq<int>) {
    forall i, j :: 0 <= i < j < |s| ==> s[i] <= s[j]
  }

  method InsertInto(r: seq<int>, x: int) returns (r': seq<int>)
    requires Sorted(r)
    ensures Sorted(r') && multiset(r') == multiset(r) + multiset{x}
  {
    var k := |r|;
    while k > 0 && r[k - 1] > x
      invariant 0 <= k <= |r|
      invariant forall m :: k <= m < |r| ==> r[m] > x
    {
      k := k - 1;
    }
    InsertedKeepsElements(r, k, x);
    InsertedIsSorted(r, k, x);
    r' := r[..k] + [x] + r[k..];
  }

  lemma InsertedKeepsElements(r: seq<int>, k: nat, x: int)
    requires k <= |r|
    ensures multiset(r[..k] + [x] + r[k..]) == multiset(r) + multiset{x}
  {
    assert r == r[..k] + r[k..];
  }

  lemma InsertedIsSorted(r: seq<int>, k: nat, x: int)
    requires Sorted(r) && k <= |r|
    requires k > 0 ==> r[k - 1] <= x
    requires k < |r| ==> x <= r[k]
    ensures Sorted(r[..k] + [x] + r[k..])
  {
    var r' := r[..k] + [x] + r[k..];
    forall i, j | 0 <= i < j < |r'|
      ensures r'[i] <= r'[j]
    {
      var a := if i < k then r[i] else if i == k then x else r[i - 1];
      var b := if j < k then r[j] else if j == k then x else r[j - 1];
      assert r'[i] == a && r'[j] == b;
    }
  }

  /** `sort.Ints` */
  method SortInts(s: seq<int>) returns (r: seq<int>)
    ensures Sorted(r) && multiset(r) == multiset(s)
  {
    r := [];
    for i := 0 to |s|
      invariant Sorted(r) && multiset(r) == multiset(s[..i])
    {
      assert s[..i + 1] == s[..i] + [s[i]];
      r := InsertInto(r, s[i]);
    }
    assert s[..|s|] == s;
  }

  // ---------- strictly increasing lists ----------

  function Elements(s: seq<int>): set<int> {
    set x | x in s
  }

  predicate StrictlySorted(s: seq<int>) {
    forall i, j :: 0 <= i < j < |s| ==> s[i] < s[j]
  }

  lemma ElementsConcat(a: seq<int>, b: seq<int>)
    ensures Elements(a + b) == Elements(a) + Elements(b)
  {
  }

  lemma PrependSorted(h: int, r: seq<int>)
    requires StrictlySorted(r) && forall x :: x in Elements(r) ==> h < x
    ensures StrictlySorted([h] + r)
  {
    forall i, j | 0 <= i < j < |[h] + r|
      ensures ([h] + r)[i] < ([h] + r)[j]
    {
      assert r[j - 1] in Elements(r);
    }
  }

  function InsertDistinct(s: seq<int>, x: int): (r: seq<int>)
    requires StrictlySorted(s)
    ensures StrictlySorted(r) && Elements(r) == Elements(s) + {x}
  {
    if s == [] then [x]
    else if x < s[0] then [x] + s
    else if x == s[0] then s
    else
      var r := InsertDistinct(s[1..], x);
      assert s == [s[0]] + s[1..];
      ElementsConcat([s[0]], s[1..]);
      ElementsConcat([s[0]], r);
      PrependSorted(s[0], r);
      [s[0]] + r
  }

  /** The elements of a list, each once, in increasing order. */
  function SortedDistinct(s: seq<int>): (r: seq<int>)
    ensures StrictlySorted(r) && Elements(r) == Elements(s)
  {
    if s == [] then []
    else
      assert s == s[..|s| - 1] + [s[|s| - 1]];
      InsertDistinct(SortedDistinct(s[..|s| - 1]), s[|s| - 1])
  }

  lemma NonEmptyElements(s: seq<int>)
    ensures Elements(s) == {} <==> s == []
  {
    if s != [] {
      assert s[0] in Elements(s);
    }
  }

  /** A strictly sorted list is determined by its elements. */
  lemma {:induction false} StrictlySortedUnique(a: seq<int>, b: seq<int>)
    requires StrictlySorted(a) && StrictlySorted(b) && Elements(a) == Elements(b)
    ensures a == b
  {
    NonEmptyElements(a);
    NonEmptyElements(b);
    if a != [] {
      assert a[0] in Elements(b) && b[0] in Elements(a);
      assert a[0] == b[0];
      assert Elements(a[1..]) == Elements(a) - {a[0]} && Elements(b[1..]) == Elements(b) - {b[0]};
      StrictlySortedUnique(a[1..], b[1..]);
    }
  }

  lemma SameElements(a: seq<int>, b: seq<int>)
    requires multiset(a) == multiset(b)
    ensures Elements(a) == Elements(b)
  {
    forall x
      ensures x in a <==> x in b
    {
      assert x in a <==> x in multiset(a);
      assert x in b <==> x in multiset(b);
    }
  }

  lemma SortedDistinctIsStrict(s: seq<int>, r: seq<int>)
    requires NoDup(s) && Sorted(r) && multiset(r) == multiset(s)
    ensures StrictlySorted(r)
  {
    forall i, j | 0 <= i < j < |r|
      ensures r[i] < r[j]
    {
      if r[i] == r[j] {
        OccursTwice(r, i, j);
        OccursOnce(s, r[i]);
      }
    }
  }

  lemma OccursTwice(r: seq<int>, i: nat, j: nat)
    requires i < j < |r| && r[i] == r[j]
    ensures multiset(r)[r[i]] >= 2
  {
    assert r == r[..i] + [r[i]] + r[i + 1..j] + [r[j]] + r[j + 1..];
  }

  lemma {:induction false} OccursOnce(s: seq<int>, x: int)
    requires NoDup(s)
    ensures multiset(s)[x] <= 1
  {
    if s != [] {
      OccursOnce(s[1..], x);
      assert s == [s[0]] + s[1..];
      if x == s[0] {
        assert x !in s[1..];
        assert x !in multiset(s[1..]);
      }
    }
  }
}
