/** Decimal printing as Go's `%d` and `strconv.FormatInt` do it, and the colon-joined keys built from it.

The reward grant key and the command idempotency key both print three integers as `%d:%d:%d`.
Two rows are the same row exactly when those strings are equal, so the protocols that rely on the
keys need the printed text to determine the three numbers. */
module Decimal {

  function DigitChar(d: nat): (c: char)
    requires d < 10
    ensures '0' <= c <= '9' && (c as int) - ('0' as int) == d
  {
    (('0' as int) + d) as char
  }

  function PrintNat(n: nat): (s: string)
    ensures |s| > 0 && AllDigits(s)
  {
    if n < 10 then [DigitChar(n)] else PrintNat(n / 10) + [DigitChar(n % 10)]
  }

  function Print(n: int): string {
    if n < 0 then "-" + PrintNat(-n) else PrintNat(n)
  }

  /** `fmt.Sprintf("%d:%d:%d", a, b, c)` */
  function TripleKey(a: int, b: int, c: int): string {
    Print(a) + ":" + (Print(b) + ":" + Print(c))
  }

  predicate AllDigits(s: string) {
    forall i :: 0 <= i < |s| ==> '0' <= s[i] <= '9'
  }

  function ReadNat(s: string): nat
    requires AllDigits(s)
  {
    if s == [] then 0
    else 10 * ReadNat(s[..|s| - 1]) + (s[|s| - 1] as int - '0' as int)
  }

  lemma {:induction false} ReadsBack(n: nat)
    ensures ReadNat(PrintNat(n)) == n
  {
    if n < 10 {
      assert PrintNat(n)[..0] == [];
    } else {
      ReadsBack(n / 10);
      assert PrintNat(n)[..|PrintNat(n)| - 1] == PrintNat(n / 10);
    }
  }

  lemma PrintNatInjective(a: nat, b: nat)
    requires PrintNat(a) == PrintNat(b)
    ensures a == b
  {
    ReadsBack(a);
    ReadsBack(b);
  }

  lemma PrintInjective(a: int, b: int)
    requires Print(a) == Print(b)
    ensures a == b
  {
    var x := PrintNat(if a < 0 then -a else a);
    var y := PrintNat(if b < 0 then -b else b);
    assert (a < 0) == (Print(a)[0] == '-') && (b < 0) == (Print(b)[0] == '-');
    if a < 0 {
      assert x == Print(a)[1..] && y == Print(b)[1..];
      PrintNatInjective(-a, -b);
    } else {
      PrintNatInjective(a, b);
    }
  }

  lemma NoColon(n: int)
    ensures ':' !in Print(n)
  {
  }

  /** A string with no colon in front of a colon is determined by the whole. */
  lemma SplitAtColon(x: string, u: string, y: string, v: string)
    requires ':' !in x && ':' !in y
    requires x + ":" + u == y + ":" + v
    ensures x == y && u == v
  {
    var w := x + ":" + u;
    assert w[|x|] == ':' && w[|y|] == ':';
    assert forall i :: 0 <= i < |x| ==> w[i] == x[i];
    assert forall i :: 0 <= i < |y| ==> w[i] == y[i];
    assert |x| == |y|;
    assert x == w[..|x|] == y;
    assert u == w[|x| + 1..] == v;
  }

  lemma TripleKeyInjective(a: int, b: int, c: int, a': int, b': int, c': int)
    ensures TripleKey(a, b, c) == TripleKey(a', b', c') <==> a == a' && b == b' && c == c'
  {
    if TripleKey(a, b, c) == TripleKey(a', b', c') {
      NoColon(a); NoColon(a'); NoColon(b); NoColon(b');
      SplitAtColon(Print(a), Print(b) + ":" + Print(c), Print(a'), Print(b') + ":" + Print(c'));
      SplitAtColon(Print(b), Print(c), Print(b'), Print(c'));
      PrintInjective(a, a');
      PrintInjective(b, b');
      PrintInjective(c, c');
    }
  }
}
