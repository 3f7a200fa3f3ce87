/** The last element of a sequence, sequences without repetition, and order-preserving selection. */
module Subsequences {
  function Last<T>(s: seq<T>): T
    requires s != []
  {
    s[|s| - 1]
  }

  ghost predicate NoDup<T>(s: seq<T>) {
    forall i, j :: 0 <= i < j < |s| ==> s[i] != s[j]
  }

  /** `a` is what `b` holds at the increasing positions `at`. */
  ghost predicate Selects<T>(at: seq<nat>, a: seq<T>, b: seq<T>) {
    && |at| == |a|
    && (forall i :: 0 <= i < |a| ==> at[i] < |b| && b[at[i]] == a[i])
    && (forall i, j :: 0 <= i < j < |at| ==> at[i] < at[j])
  }

  /** `a` is obtained from `b` by leaving elements out. */
  ghost predicate IsSubseq<T>(a: seq<T>, b: seq<T>) {
    exists at: seq<nat> :: Selects(at, a, b)
  }

  lemma SubseqGrow<T>(a: seq<T>, b: seq<T>, x: T)
    requires IsSubseq(a, b)
    ensures IsSubseq(a, b + [x]) && IsSubseq(a + [x], b + [x])
  {
    var at: seq<nat> :| Selects(at, a, b);
    assert Selects(at, a, b + [x]);
    assert Selects(at + [|b|], a + [x], b + [x]);
  }

  lemma SelectedIsIn<T>(a: seq<T>, b: seq<T>, x: T)
    requires IsSubseq(a, b) && x in a
    ensures x in b
  {
    var at: seq<nat> :| Selects(at, a, b);
    var i :| 0 <= i < |a| && a[i] == x;
    assert b[at[i]] == x;
  }

  lemma NoDupAppend<T>(s: seq<T>, x: T)
    requires NoDup(s) && x !in s
    ensures NoDup(s + [x])
  {
  }

  lemma NoDupConcat<T>(a: seq<T>, b: seq<T>)
    requires NoDup(a) && NoDup(b) && forall x :: x in a ==> x !in b
    ensures NoDup(a + b)
  {
    forall i, j | 0 <= i < j < |a + b|
      ensures (a + b)[i] != (a + b)[j]
    {
      if i < |a| <= j {
        assert a[i] in a && b[j - |a|] in b;
      }
    }
  }
}
