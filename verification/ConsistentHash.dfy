/** Consistent hashing of accounts onto player servers: the ring, the search and how little a change moves. */
module ConsistentHash {
  import opened Options
  import opened Decimal
  import opened Sorting
  import opened Ring

  datatype Instance = Instance(id: string, grpcAddr: string, frpcAddr: string, weight: int) {
    function EffectiveWeight(): (w: int)
      ensures w > 0
    {
      if weight <= 0 then 100 else weight
    }
  }

  /** How many virtual nodes an instance gets. */
  function Replicas(virtualNodes: int, inst: Instance): (n: nat)
    requires virtualNodes > 0
    ensures n > 0
  {
    var replicas := virtualNodes * inst.EffectiveWeight() / 100;
    if replicas <= 0 then 1 else replicas
  }

  function VirtualPoint(hash: string -> Point, id: string, i: nat): Point {
    hash(id + "#" + Print(i))
  }

  function UidPoint(hash: string -> Point, uid: int): Point {
    hash(Print(uid))
  }

  /** The points of the first `n` virtual nodes of an instance. */
  ghost function FirstPoints(hash: string -> Point, id: string, n: nat): set<Point> {
    if n == 0 then {} else FirstPoints(hash, id, n - 1) + {VirtualPoint(hash, id, n - 1)}
  }

  ghost function Points(hash: string -> Point, vn: int, inst: Instance): set<Point>
    requires vn > 0
  {
    if inst.id == "" then {} else FirstPoints(hash, inst.id, Replicas(vn, inst))
  }

  ghost function Shares(hash: string -> Point, vn: int, list: seq<Instance>): (s: seq<set<Point>>)
    requires vn > 0
    ensures |s| == |list| && forall k :: 0 <= k < |list| ==> s[k] == Points(hash, vn, list[k])
  {
    if list == [] then []
    else Shares(hash, vn, list[..|list| - 1]) + [Points(hash, vn, list[|list| - 1])]
  }

  /** What the node map holds after the list has been worked through: later instances overwrite. */
  ghost function NodesOf(hash: string -> Point, vn: int, list: seq<Instance>): map<Point, Instance>
    requires vn > 0
  {
    if list == [] then map[]
    else
      var inst := list[|list| - 1];
      NodesOf(hash, vn, list[..|list| - 1]) + map p | p in Points(hash, vn, inst) :: inst
  }

  /** The node map sends every point to the last instance of the list that has it. */
  lemma {:induction false} NodesAreLast(hash: string -> Point, vn: int, list: seq<Instance>)
    requires vn > 0
    ensures NodesOf(hash, vn, list).Keys == Union(Shares(hash, vn, list))
    ensures forall p, k: nat :: LastWith(Shares(hash, vn, list), p, k) ==>
              p in NodesOf(hash, vn, list) && NodesOf(hash, vn, list)[p] == list[k]
  {
    if list != [] {
      var n := |list| - 1;
      var shares, fewer := Shares(hash, vn, list), Shares(hash, vn, list[..n]);
      NodesAreLast(hash, vn, list[..n]);
      assert shares[..n] == fewer;
      forall p, k: nat | LastWith(shares, p, k)
        ensures p in NodesOf(hash, vn, list) && NodesOf(hash, vn, list)[p] == list[k]
      {
        if k < n {
          LastWithShrinks(shares, fewer, p, k);
        }
      }
    }
  }

  lemma LastWithShrinks(shares: seq<set<Point>>, fewer: seq<set<Point>>, p: Point, k: nat)
    requires |shares| > 0 && fewer == shares[..|shares| - 1] && LastWith(shares, p, k) && k < |fewer|
    ensures LastWith(fewer, p, k) && p !in shares[|shares| - 1]
  {
  }

  // ---------- the router ----------

  class ConsistentHashRouter {
    const virtualNodes: int
    const hash: string -> Point
    var ring: seq<Point>
    var nodes: map<Point, Instance>
    ghost var instances: seq<Instance>   // the list the ring was built from

    ghost predicate Valid()
      reads this
    {
      && virtualNodes > 0
      && Sorted(ring)
      && (forall p :: p in ring <==> p in nodes.Keys)
      && nodes == NodesOf(hash, virtualNodes, instances)
    }

    constructor (hash: string -> Point, list: seq<Instance>, virtualNodes: int)
      ensures Valid() && instances == list && this.hash == hash
      ensures this.virtualNodes == if virtualNodes <= 0 then 100 else virtualNodes
    {
      this.hash := hash;
      this.virtualNodes := if virtualNodes <= 0 then 100 else virtualNodes;
      ring, nodes, instances := [], map[], [];
      new;
      Update(list);
    }

    /** Rebuild the ring from a list of instances. */
    method Update(list: seq<Instance>)
      requires virtualNodes > 0
      modifies this
      ensures Valid() && instances == list
    {
      ring, nodes := [], map[];
      for k := 0 to |list|
        invariant forall p :: p in ring <==> p in nodes.Keys
        invariant nodes == NodesOf(hash, virtualNodes, list[..k])
      {
        assert list[..k + 1][..k] == list[..k] && list[..k + 1][k] == list[k];
        if list[k].id != "" {
          AddReplicas(list[k]);
        }
      }
      assert list[..|list|] == list;
      var sorted := SortInts(ring);
      assert forall p :: p in sorted <==> p in multiset(sorted);
      assert forall p :: p in ring <==> p in multiset(ring);
      ring := sorted;
      instances := list;
    }

    /** The inner loop of Update: one virtual node after the other. */
    method AddReplicas(inst: Instance)
      requires virtualNodes > 0 && inst.id != "" && forall p :: p in ring <==> p in nodes.Keys
      modifies this`ring, this`nodes
      ensures nodes == old(nodes) + map p | p in Points(hash, virtualNodes, inst) :: inst
      ensures forall p :: p in ring <==> p in nodes.Keys
    {
      var replicas := Replicas(virtualNodes, inst);
      for i := 0 to replicas
        invariant nodes == old(nodes) + map p | p in FirstPoints(hash, inst.id, i) :: inst
        invariant forall p :: p in ring <==> p in nodes.Keys
      {
        var point := VirtualPoint(hash, inst.id, i);
        ring := ring + [point];
        nodes := nodes[point := inst];
      }
    }

    /** The instance that owns an account's point, or None when no instance is usable. */
    method RouteUID(uid: int) returns (r: Option<Instance>)
      requires Valid()
      ensures r == Route(hash, virtualNodes, instances, uid)
    {
      ghost var shares := Shares(hash, virtualNodes, instances);
      NodesAreLast(hash, virtualNodes, instances);
      if |ring| == 0 {
        NothingServes(hash, virtualNodes, instances, uid);
        return None;
      }
      var x := UidPoint(hash, uid);
      var i := FirstNotBelow(x);
      if i == |ring| {
        i := 0;
      }
      FoundIsClockwise(ring, nodes.Keys, x, i);
      ghost var k := LastHolder(shares, ring[i]);
      RouteIs(hash, virtualNodes, instances, uid, k, ring[i]);
      r := Some(nodes[ring[i]]);
    }

    /** `sort.Search` for the first entry of the ring that is not below `x`. */
    method FirstNotBelow(x: Point) returns (i: nat)
      requires Sorted(ring)
      ensures i <= |ring|
      ensures forall m :: 0 <= m < i ==> ring[m] < x
      ensures forall m :: i <= m < |ring| ==> ring[m] >= x
    {
      i := 0;
      var j := |ring|;
      while i < j
        invariant i <= j <= |ring|
        invariant forall m :: 0 <= m < i ==> ring[m] < x
        invariant forall m :: j <= m < |ring| ==> ring[m] >= x
      {
        var h := (i + j) / 2;
        if ring[h] >= x {
          j := h;
        } else {
          i := h + 1;
        }
      }
    }
  }

  // ---------- what routing computes ----------

  /** Position `k` of the list is where an account goes. */
  ghost predicate Serves(hash: string -> Point, vn: int, list: seq<Instance>, uid: int, k: nat)
    requires vn > 0
  {
    exists p :: Owns(Shares(hash, vn, list), UidPoint(hash, uid), k, p)
  }

  /** The instance at the serving position, if there is one. */
  ghost function Route(hash: string -> Point, vn: int, list: seq<Instance>, uid: int): Option<Instance>
    requires vn > 0
  {
    if exists k: nat :: Serves(hash, vn, list, uid, k)
    then var k: nat :| Serves(hash, vn, list, uid, k); assert k < |list|; Some(list[k])
    else None
  }

  lemma NothingServes(hash: string -> Point, vn: int, list: seq<Instance>, uid: int)
    requires vn > 0 && forall p :: p !in Union(Shares(hash, vn, list))
    ensures Route(hash, vn, list, uid) == None
  {
  }

  lemma RouteIs(hash: string -> Point, vn: int, list: seq<Instance>, uid: int, k: nat, p: Point)
    requires vn > 0 && Owns(Shares(hash, vn, list), UidPoint(hash, uid), k, p)
    ensures k < |list| && Route(hash, vn, list, uid) == Some(list[k])
  {
    assert Serves(hash, vn, list, uid, k);
    forall k': nat | Serves(hash, vn, list, uid, k')
      ensures k' == k
    {
      var p' :| Owns(Shares(hash, vn, list), UidPoint(hash, uid), k', p');
      OwnerIsUnique(Shares(hash, vn, list), UidPoint(hash, uid), k, p, k', p');
    }
  }

  /** An account is routed exactly when some instance has a non-empty ID. */
  lemma RoutedIffUsable(hash: string -> Point, vn: int, list: seq<Instance>, uid: int)
    requires vn > 0
    ensures Route(hash, vn, list, uid).None? <==> forall k :: 0 <= k < |list| ==> list[k].id == ""
  {
    var shares := Shares(hash, vn, list);
    if exists k :: 0 <= k < |list| && list[k].id != "" {
      var k :| 0 <= k < |list| && list[k].id != "";
      var p := VirtualPoint(hash, list[k].id, Replicas(vn, list[k]) - 1);
      assert p in shares[k];
      UnionContains(shares, p);
      assert |Union(shares)| > 0;
      var o, q := OwnerExists(shares, UidPoint(hash, uid));
      RouteIs(hash, vn, list, uid, o, q);
    } else {
      forall p
        ensures p !in Union(shares)
      {
        UnionContains(shares, p);
      }
      NothingServes(hash, vn, list, uid);
    }
  }

  /** `part` is `list` with the positions outside `at` left out. */
  ghost predicate Remaining(at: seq<nat>, part: seq<Instance>, list: seq<Instance>) {
    && |at| == |part| && StrictlySorted(at)
    && forall i :: 0 <= i < |at| ==> at[i] < |list| && part[i] == list[at[i]]
  }

  /** Removing instances moves only the accounts of removed instances, whatever points collide. */
  lemma RemovalKeepsOthers(hash: string -> Point, vn: int, at: seq<nat>, part: seq<Instance>, list: seq<Instance>,
                           uid: int, k: nat)
    requires vn > 0 && Remaining(at, part, list) && Serves(hash, vn, list, uid, k) && k in at
    ensures k < |list| && Route(hash, vn, part, uid) == Route(hash, vn, list, uid) == Some(list[k])
  {
    var shares, fewer, x := Shares(hash, vn, list), Shares(hash, vn, part), UidPoint(hash, uid);
    var p :| Owns(shares, x, k, p);
    var i :| 0 <= i < |at| && at[i] == k;
    assert Within(at, fewer, shares);
    OwnerSurvives(at, fewer, shares, x, i, p);
    RouteIs(hash, vn, list, uid, k, p);
    RouteIs(hash, vn, part, uid, i, p);
  }

  /** Adding instances anywhere in the list moves an account only to an added instance. */
  lemma AddingMovesOnlyToAdded(hash: string -> Point, vn: int, at: seq<nat>, before: seq<Instance>, after: seq<Instance>,
                               uid: int)
    requires vn > 0 && Remaining(at, before, after) && Route(hash, vn, before, uid) != Route(hash, vn, after, uid)
    ensures exists k: nat :: k < |after| && k !in at && Serves(hash, vn, after, uid, k)
                             && Route(hash, vn, after, uid) == Some(after[k])
  {
    if Route(hash, vn, after, uid).None? {
      RoutedIffUsable(hash, vn, after, uid);
      RoutedIffUsable(hash, vn, before, uid);
    } else {
      var k: nat :| Serves(hash, vn, after, uid, k) && k < |after| && Route(hash, vn, after, uid) == Some(after[k]);
      if k in at {
        RemovalKeepsOthers(hash, vn, at, before, after, uid, k);
      }
    }
  }

  lemma {:induction false} FirstPointsGrow(hash: string -> Point, id: string, n: nat, m: nat)
    requires n <= m
    ensures FirstPoints(hash, id, n) <= FirstPoints(hash, id, m)
    decreases m
  {
    if n < m {
      FirstPointsGrow(hash, id, n, m - 1);
    }
  }

  /** A heavier weight means no fewer virtual nodes. */
  lemma HeavierHasMore(vn: int, light: Instance, heavy: Instance)
    requires vn > 0 && light.EffectiveWeight() <= heavy.EffectiveWeight()
    ensures Replicas(vn, light) <= Replicas(vn, heavy)
  {
    assert vn * light.EffectiveWeight() <= vn * heavy.EffectiveWeight();
  }

  /** Raising the weight of one instance moves an account only to that instance. */
  lemma RaisingMovesOnlyToHeavier(hash: string -> Point, vn: int, list: seq<Instance>, i: nat, heavy: Instance,
                                  uid: int, k: nat)
    requires vn > 0 && i < |list| && heavy.id == list[i].id && list[i].EffectiveWeight() <= heavy.EffectiveWeight()
    requires Serves(hash, vn, list[i := heavy], uid, k) && k != i
    ensures k < |list| && Route(hash, vn, list, uid) == Route(hash, vn, list[i := heavy], uid) == Some(list[k])
  {
    var list' := list[i := heavy];
    var shares, fewer, x := Shares(hash, vn, list'), Shares(hash, vn, list), UidPoint(hash, uid);
    var p :| Owns(shares, x, k, p);
    var at := seq(|list|, j requires 0 <= j < |list| => j as nat);
    HeavierHasMore(vn, list[i], heavy);
    FirstPointsGrow(hash, heavy.id, Replicas(vn, list[i]), Replicas(vn, heavy));
    assert Within(at, fewer, shares);
    OwnerSurvives(at, fewer, shares, x, k, p);
    RouteIs(hash, vn, list', uid, k, p);
    RouteIs(hash, vn, list, uid, k, p);
  }

  /** Different instances of the list share no point. */
  ghost predicate NoCollisions(hash: string -> Point, vn: int, list: seq<Instance>)
    requires vn > 0
  {
    forall a, b :: a in list && b in list && a != b ==> Points(hash, vn, a) !! Points(hash, vn, b)
  }

  ghost predicate SameMembers(a: seq<Instance>, b: seq<Instance>) {
    forall x :: x in a <==> x in b
  }

  /** Without collisions the order of the list does not matter. */
  lemma OrderDoesNotMatter(hash: string -> Point, vn: int, a: seq<Instance>, b: seq<Instance>, uid: int)
    requires vn > 0 && SameMembers(a, b) && NoCollisions(hash, vn, a)
    ensures Route(hash, vn, a, uid) == Route(hash, vn, b, uid)
  {
    var sa, sb, x := Shares(hash, vn, a), Shares(hash, vn, b), UidPoint(hash, uid);
    SameUnion(hash, vn, a, b);
    SameUnion(hash, vn, b, a);
    assert Union(sa) == Union(sb);
    if |Union(sa)| > 0 {
      var p := FirstClockwise(Union(sa), x);
      var i := LastHolder(sa, p);
      var j := LastHolder(sb, p);
      RouteIs(hash, vn, a, uid, i, p);
      RouteIs(hash, vn, b, uid, j, p);
      assert a[i] in a && b[j] in a && p in Points(hash, vn, a[i]) * Points(hash, vn, b[j]);
    } else {
      NothingServes(hash, vn, a, uid);
      NothingServes(hash, vn, b, uid);
    }
  }

  lemma SameUnion(hash: string -> Point, vn: int, a: seq<Instance>, b: seq<Instance>)
    requires vn > 0 && SameMembers(a, b)
    ensures Union(Shares(hash, vn, a)) <= Union(Shares(hash, vn, b))
  {
    forall p | p in Union(Shares(hash, vn, a))
      ensures p in Union(Shares(hash, vn, b))
    {
      UnionContains(Shares(hash, vn, a), p);
      UnionContains(Shares(hash, vn, b), p);
      var k :| 0 <= k < |a| && p in Shares(hash, vn, a)[k];
      assert a[k] in b;
      var j :| 0 <= j < |b| && b[j] == a[k];
      assert p in Shares(hash, vn, b)[j];
    }
  }
}
