/** The claimed-index lists of a user's mail: merging and finding the new ones. */
module LootIndexes {
  import opened Sorting
  import opened Subsequences

  /** The indexes a claim still has to grant, and the list it saves. */
  function Fresh(existing: seq<int>, next: seq<int>): (r: seq<int>)
    ensures StrictlySorted(r) && Elements(r) == Elements(next) - Elements(existing)
  {
    var r := SortedDistinct(Without(next, existing));
    r
  }

  function Merged(existing: seq<int>, next: seq<int>): (r: seq<int>)
    ensures StrictlySorted(r) && Elements(r) == Elements(existing) + Elements(next)
  {
    assert Elements(existing + next) == Elements(existing) + Elements(next);
    SortedDistinct(existing + next)
  }

  function Without(s: seq<int>, gone: seq<int>): (r: seq<int>)
    ensures Elements(r) == Elements(s) - Elements(gone)
  {
    if s == [] then []
    else
      assert s == [s[0]] + s[1..];
      var rest := Without(s[1..], gone);
      ElementsConcat([s[0]], s[1..]);
      ElementsConcat([s[0]], rest);
      if s[0] in gone then rest else [s[0]] + rest
  }

  method MergeLootIndexes(existing: seq<int>, next: seq<int>) returns (merged: seq<int>)
    ensures merged == Merged(existing, next)
  {
    var all := existing + next;
    var seen: set<int> := {};
    merged := [];
    for i := 0 to |all|
      invariant NoDup(merged) && seen == Elements(merged) == Elements(all[..i])
    {
      assert all[..i + 1] == all[..i] + [all[i]];
      if all[i] !in seen {
        seen := seen + {all[i]};
        merged := merged + [all[i]];
      }
    }
    assert all[..|all|] == all;
    var r := SortInts(merged);
    SameElements(r, merged);
    SortedDistinctIsStrict(merged, r);
    StrictlySortedUnique(r, Merged(existing, next));
    merged := r;
  }

  method NewLootIndexes(existing: seq<int>, next: seq<int>) returns (out: seq<int>)
    ensures out == Fresh(existing, next)
  {
    var seen: set<int> := {};
    for i := 0 to |existing|
      invariant seen == Elements(existing[..i])
    {
      assert existing[..i + 1] == existing[..i] + [existing[i]];
      seen := seen + {existing[i]};
    }
    assert existing[..|existing|] == existing;
    out := [];
    for i := 0 to |next|
      invariant NoDup(out) && Elements(out) == Elements(next[..i]) - Elements(existing)
      invariant seen == Elements(existing) + Elements(next[..i])
    {
      assert next[..i + 1] == next[..i] + [next[i]];
      ElementsConcat(next[..i], [next[i]]);
      ElementsConcat(out, [next[i]]);
      if next[i] !in seen {
        seen := seen + {next[i]};
        out := out + [next[i]];
      }
    }
    assert next[..|next|] == next;
    var r := SortInts(out);
    SameElements(r, out);
    SortedDistinctIsStrict(out, r);
    StrictlySortedUnique(r, Fresh(existing, next));
    out := r;
  }
}
