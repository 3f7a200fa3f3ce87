/** The gateway's sharded session pool with its connection index.

Each shard is a map from uid to session and an index from connection ID to uid. The pool is proved to behave
as one flat map, and to keep account of every connection that enters it: a connection is held by sessions and
closed, together, exactly as often as it was put in. */
module ConnectionPool {
  import opened Options
  import opened Choice
  import opened Counting

  datatype Session = Session(
    uid: int, roleId: int, serverId: int,
    connId: string, gatewayAddr: string, clientIp: string, deviceId: string,
    connectedAt: int, lastHeartbeatAt: int, lastRenewAt: int, expireAt: int,
    conn: Option<nat>)

  datatype Shard = Shard(sessions: map<int, Session>, connIndex: map<string, int>)

  /** The uids whose session holds connection `c`. */
  ghost function Holders(flat: map<int, Session>, c: nat): set<int> {
    set u | u in flat && flat[u].conn == Some(c)
  }

  /** How often a connection is held or has been closed. */
  ghost function Accounted(flat: map<int, Session>, closed: multiset<nat>, c: nat): nat {
    |Holders(flat, c)| + closed[c]
  }

  predicate Expired(now: int, session: Session) {
    now > session.expireAt
  }

  /** The sessions a sweep leaves. */
  function Unexpired(flat: map<int, Session>, now: int): map<int, Session> {
    map u | u in flat && !Expired(now, flat[u]) :: flat[u]
  }

  function Closing(conn: Option<nat>): multiset<nat> {
    if conn.Some? then multiset{conn.value} else multiset{}
  }

  /** The connection ID is used by one session at most. */
  ghost predicate Single(flat: map<int, Session>, id: string) {
    forall u, v :: u in flat && v in flat && flat[u].connId == id == flat[v].connId ==> u == v
  }

  lemma SinglePart(flat: map<int, Session>, part: map<int, Session>, id: string)
    requires Single(flat, id) && forall u :: u in part ==> u in flat && flat[u] == part[u]
    ensures Single(part, id)
  {
  }

  // ---------- one shard ----------

  /** Every index entry points at a session with that connection ID. */
  ghost predicate ShardOk(shard: Shard) {
    && (forall u :: u in shard.sessions ==> shard.sessions[u].uid == u)
    && (forall id :: id in shard.connIndex ==>
          && id != "" && shard.connIndex[id] in shard.sessions
          && shard.sessions[shard.connIndex[id]].connId == id)
  }

  /** A live session with this connection ID is in the index. */
  ghost predicate ShardIndexes(shard: Shard, id: string) {
    forall u :: u in shard.sessions && shard.sessions[u].connId == id != "" ==> id in shard.connIndex
  }

  function Unindex(index: map<string, int>, id: string): map<string, int> {
    map k | k in index && k != id :: index[k]
  }

  /** A shard after storing a session. */
  function WithSession(shard: Shard, session: Session): Shard {
    var u, id := session.uid, session.connId;
    var index :=
      if u in shard.sessions && shard.sessions[u].connId != "" && shard.sessions[u].connId != id
      then Unindex(shard.connIndex, shard.sessions[u].connId) else shard.connIndex;
    Shard(shard.sessions[u := session], if id != "" then index[id := u] else index)
  }

  /** A shard after dropping a session. */
  function WithoutSession(shard: Shard, u: int): Shard {
    Shard(shard.sessions - {u},
          if u in shard.sessions && shard.sessions[u].connId != ""
          then Unindex(shard.connIndex, shard.sessions[u].connId) else shard.connIndex)
  }

  lemma WithSessionOk(shard: Shard, session: Session)
    requires ShardOk(shard)
    ensures ShardOk(WithSession(shard, session))
    ensures forall id :: ShardIndexes(shard, id) && Single(shard.sessions, id) ==>
              ShardIndexes(WithSession(shard, session), id)
  {
  }

  lemma WithoutSessionOk(shard: Shard, u: int)
    requires ShardOk(shard)
    ensures ShardOk(WithoutSession(shard, u))
    ensures forall id :: ShardIndexes(shard, id) && Single(shard.sessions, id) ==>
              ShardIndexes(WithoutSession(shard, u), id)
  {
  }

  /** Two sessions in one shard with the same connection ID: dropping the later one loses the index entry of the
  other, so the lookup by a connection ID needs it to be used by one session. */
  lemma DuplicateConnIdLosesIndex(shard: Shard, a: Session, b: Session)
    requires a.uid != b.uid && a.connId == b.connId != ""
    ensures var left := WithoutSession(WithSession(WithSession(shard, a), b), b.uid);
            a.uid in left.sessions && left.sessions[a.uid].connId == a.connId && a.connId !in left.connIndex
  {
  }

  class Pool {
    const hash: int -> nat               // FNV-1a of the uid's decimal text
    const shards: array<Shard>
    var closed: multiset<nat>            // connections closed so far
    ghost var flat: map<int, Session>    // what the shards hold together

    function ShardIndex(uid: int): (i: int)
      requires shards.Length > 0
      ensures 0 <= i < shards.Length
    {
      hash(uid) % shards.Length
    }

    ghost predicate Valid()
      reads this`flat, shards
    {
      && shards.Length > 0
      && (forall i :: 0 <= i < shards.Length ==> ShardOk(shards[i]))
      && (forall i, u :: 0 <= i < shards.Length && u in shards[i].sessions ==> ShardIndex(u) == i)
      && (forall u :: u in flat <==> u in shards[ShardIndex(u)].sessions)
      && (forall u :: u in flat ==> flat[u] == shards[ShardIndex(u)].sessions[u])
    }

    /** A live session with this connection ID is in the index of its shard. */
    ghost predicate Indexes(id: string)
      reads shards
    {
      forall i :: 0 <= i < shards.Length ==> ShardIndexes(shards[i], id)
    }

    /** What was indexed, and used by one session at most, still is indexed. */
    twostate predicate KeepsIndex()
      reads this`flat, shards
    {
      forall id :: old(Indexes(id)) && Single(old(flat), id) ==> Indexes(id)
    }

    constructor (hash: int -> nat, shardCount: int)
      ensures Valid() && fresh(shards) && forall id :: Indexes(id)
      ensures flat == map[] && closed == multiset{}
      ensures shards.Length == if shardCount <= 0 then 32 else shardCount
    {
      this.hash := hash;
      shards := new Shard[if shardCount <= 0 then 32 else shardCount](_ => Shard(map[], map[]));
      closed, flat := multiset{}, map[];
    }

    method Get(uid: int) returns (r: Option<Session>)
      requires Valid()
      ensures r == Options.Get(flat, uid)
    {
      var shard := shards[ShardIndex(uid)];
      if uid in shard.sessions {
        return Some(shard.sessions[uid]);
      }
      return None;
    }

    /** The session with a connection ID, looked up shard by shard in the indexes. */
    method GetByConnID(connId: string) returns (r: Option<Session>)
      requires Valid()
      ensures r.Some? ==> connId != "" && r.value.connId == connId && Options.Get(flat, r.value.uid) == r
      ensures Indexes(connId) ==> (r.Some? <==> connId != "" && exists u :: u in flat && flat[u].connId == connId)
    {
      if connId == "" {
        return None;
      }
      for i := 0 to shards.Length
        invariant forall j :: 0 <= j < i ==> connId !in shards[j].connIndex
      {
        var shard := shards[i];
        if connId in shard.connIndex {
          assert ShardOk(shard);
          var uid := shard.connIndex[connId];
          assert ShardIndex(uid) == i;
          return Some(shard.sessions[uid]);
        }
      }
      if Indexes(connId) {
        forall u | u in flat
          ensures flat[u].connId != connId
        {
          assert ShardIndexes(shards[ShardIndex(u)], connId);
        }
      }
      return None;
    }

    /** Write one shard back, with the flat view that goes with it. */
    method Store(i: int, shard: Shard, ghost view: map<int, Session>)
      requires Valid() && 0 <= i < shards.Length && ShardOk(shard)
      requires forall u :: u in shard.sessions ==> ShardIndex(u) == i
      requires forall u :: ShardIndex(u) == i ==> Options.Get(view, u) == Options.Get(shard.sessions, u)
      requires forall u :: ShardIndex(u) != i ==> Options.Get(view, u) == Options.Get(flat, u)
      modifies shards, this`flat
      ensures Valid() && flat == view && shards[..] == old(shards[..])[i := shard]
      ensures forall id :: old(Indexes(id)) && ShardIndexes(shard, id) ==> Indexes(id)
    {
      shards[i] := shard;
      flat := view;
      assert forall u :: Options.Get(view, u) == Options.Get(shards[ShardIndex(u)].sessions, u);
    }

    /** A shard's own sessions, seen in the flat map. */
    lemma ShardInFlat(i: int)
      requires Valid() && 0 <= i < shards.Length
      ensures forall u :: u in shards[i].sessions ==> u in flat && flat[u] == shards[i].sessions[u]
      ensures forall u :: ShardIndex(u) == i ==> Options.Get(flat, u) == Options.Get(shards[i].sessions, u)
      ensures forall id :: Single(flat, id) ==> Single(shards[i].sessions, id)
    {
      assert forall u :: u in shards[i].sessions ==> ShardIndex(u) == i;
      forall id | Single(flat, id)
        ensures Single(shards[i].sessions, id)
      {
        SinglePart(flat, shards[i].sessions, id);
      }
    }

    /** Store a session; a different connection it replaces is closed. */
    method Set(session: Session)
      requires Valid()
      modifies shards, this`closed, this`flat
      ensures Valid() && flat == old(flat)[session.uid := session]
      ensures closed == old(closed) + Replaced(old(flat), session)
      ensures KeepsIndex()
    {
      var i := ShardIndex(session.uid);
      ShardInFlat(i);
      var shard, shut := StoreInShard(shards[i], session);
      WithSessionOk(shards[i], session);
      closed := closed + shut;
      Store(i, shard, flat[session.uid := session]);
    }

    /** Drop a session and close its connection. */
    method Delete(uid: int)
      requires Valid()
      modifies shards, this`closed, this`flat
      ensures Valid() && flat == old(flat) - {uid}
      ensures closed == old(closed) + if uid in old(flat) then Closing(old(flat)[uid].conn) else multiset{}
      ensures KeepsIndex()
    {
      var i := ShardIndex(uid);
      var shard := shards[i];
      var index := shard.connIndex;
      ShardInFlat(i);
      if uid in shard.sessions {
        var was := shard.sessions[uid];
        if was.connId != "" {
          index := Unindex(index, was.connId);
        }
        if was.conn.Some? {
          closed := closed + multiset{was.conn.value};
        }
      }
      WithoutSessionOk(shard, uid);
      assert Shard(shard.sessions - {uid}, index) == WithoutSession(shard, uid);
      Store(i, Shard(shard.sessions - {uid}, index), flat - {uid});
    }

    /** Replace one shard by what is left of it once the sessions in `gone` are dropped and `shut` is closed. */
    method Drop(i: int, shard: Shard, shut: multiset<nat>, ghost gone: set<int>)
      requires Valid() && 0 <= i < shards.Length && ShardOk(shard)
      requires gone <= shards[i].sessions.Keys && shard.sessions == shards[i].sessions - gone
      requires SameAccount(shards[i].sessions, multiset{}, shard.sessions, shut)
      modifies shards, this`closed, this`flat
      ensures Valid() && flat == old(flat) - gone && shards[..] == old(shards[..])[i := shard]
      ensures SameAccount(old(flat), old(closed), flat, closed)
      ensures forall id :: old(Indexes(id)) && ShardIndexes(shard, id) ==> Indexes(id)
    {
      ShardInFlat(i);
      LiftAccount(flat, closed, shards[i].sessions, gone, shut);
      closed := closed + shut;
      Store(i, shard, flat - gone);
    }

    /** The expired sessions of the first `n` shards. */
    ghost function ExpiredBelow(view: map<int, Session>, now: int, n: int): set<int>
      requires shards.Length > 0
    {
      set u | u in view && ShardIndex(u) < n && Expired(now, view[u])
    }

    /** Below the number of shards are all. */
    lemma AllShards(view: map<int, Session>, now: int)
      requires shards.Length > 0
      ensures ExpiredBelow(view, now, shards.Length) == set u | u in view && Expired(now, view[u])
    {
      assert forall u :: ShardIndex(u) < shards.Length;
    }

    /** Drop every expired session and close its connection. */
    method SweepExpired(now: int) returns (expired: seq<Session>)
      requires Valid()
      modifies shards, this`closed, this`flat
      ensures Valid() && flat == Unexpired(old(flat), now)
      ensures Swept(expired, old(flat), now)
      ensures SameAccount(old(flat), old(closed), flat, closed)
      ensures KeepsIndex()
    {
      expired := [];
      ghost var gone: set<int> := {};
      for i := 0 to shards.Length
        invariant Valid() && gone == ExpiredBelow(old(flat), now, i) && flat == old(flat) - gone
        invariant Lists(expired, old(flat), gone)
        invariant SameAccount(old(flat), old(closed), flat, closed)
        invariant KeepsIndex()
      {
        var more, here := SweepShard(i, now, old(flat));
        ListsConcat(expired, more, old(flat), gone, here);
        expired := expired + more;
        gone := gone + here;
      }
      AllShards(old(flat), now);
      SweptIsUnexpired(old(flat), now, gone);
    }

    /** The sweep of one shard; `view` is the flat map the whole sweep started from. */
    method SweepShard(i: int, now: int, ghost view: map<int, Session>) returns (expired: seq<Session>, ghost gone: set<int>)
      requires Valid() && 0 <= i < shards.Length && flat == view - ExpiredBelow(view, now, i)
      modifies shards, this`closed, this`flat
      ensures Valid() && flat == old(flat) - gone == view - ExpiredBelow(view, now, i + 1)
      ensures ExpiredBelow(view, now, i + 1) == ExpiredBelow(view, now, i) + gone
      ensures Lists(expired, old(flat), gone)
      ensures SameAccount(old(flat), old(closed), flat, closed)
      ensures forall id :: old(Indexes(id)) && Single(view, id) ==> Indexes(id)
    {
      ShardInFlat(i);
      var shard, shut;
      shard, expired, shut, gone := SweepSessions(shards[i], now);
      ListsLift(expired, shards[i].sessions, flat, gone);
      forall id | Single(view, id)
        ensures Single(flat, id)
      {
        SinglePart(view, flat, id);
      }
      assert forall u :: u in gone <==> u in flat && ShardIndex(u) == i && Expired(now, flat[u]) by {
        assert forall u :: u in flat && ShardIndex(u) == i ==> Options.Get(flat, u) == Options.Get(shards[i].sessions, u);
      }
      ExpiredStep(i, now, view, flat, gone);
      Drop(i, shard, shut, gone);
    }

    /** One more shard swept: the expired uids below `i + 1` are those below `i` and the ones dropped here. */
    lemma ExpiredStep(i: int, now: int, view: map<int, Session>, left: map<int, Session>, gone: set<int>)
      requires shards.Length > 0 && left == view - ExpiredBelow(view, now, i)
      requires forall u :: u in gone <==> u in left && ShardIndex(u) == i && Expired(now, left[u])
      ensures ExpiredBelow(view, now, i + 1) == ExpiredBelow(view, now, i) + gone
      ensures left - gone == view - ExpiredBelow(view, now, i + 1)
    {
      forall u
        ensures u in ExpiredBelow(view, now, i + 1) <==> u in ExpiredBelow(view, now, i) || u in gone
      {
      }
    }

    /** Close every connection and empty the pool. */
    method CloseAll()
      requires Valid()
      modifies shards, this`closed, this`flat
      ensures Valid() && flat == map[] && forall id :: Indexes(id)
      ensures forall c :: closed[c] == Accounted(old(flat), old(closed), c)
    {
      for i := 0 to shards.Length
        invariant Valid() && SameAccount(old(flat), old(closed), flat, closed)
        invariant forall j :: 0 <= j < i ==> shards[j] == Shard(map[], map[])
      {
        var sessions := shards[i].sessions;
        var shut := CloseSessions(sessions);
        assert sessions - sessions.Keys == map[];
        Drop(i, Shard(map[], map[]), shut, sessions.Keys);
      }
      assert forall u :: u !in flat;
      NobodyHolds(flat, closed);
    }
  }

  // ---------- working on one shard ----------

  /** The critical section of Set: reindex, replace, and close the connection that goes. */
  method StoreInShard(shard: Shard, session: Session) returns (updated: Shard, shut: multiset<nat>)
    ensures updated == WithSession(shard, session) && shut == Replaced(shard.sessions, session)
  {
    var index := shard.connIndex;
    shut := multiset{};
    if session.uid in shard.sessions {
      var was := shard.sessions[session.uid];
      if was.connId != "" && was.connId != session.connId {
        index := Unindex(index, was.connId);
      }
      if was.conn.Some? && was.conn != session.conn {
        shut := multiset{was.conn.value};
      }
    }
    if session.connId != "" {
      index := index[session.connId := session.uid];
    }
    updated := Shard(shard.sessions[session.uid := session], index);
  }

  /** The loop of a sweep over one shard, in whatever order the map is walked. */
  method SweepSessions(start: Shard, now: int)
    returns (shard: Shard, expired: seq<Session>, shut: multiset<nat>, ghost gone: set<int>)
    requires ShardOk(start)
    ensures ShardOk(shard) && shard.sessions == start.sessions - gone
    ensures forall u :: u in gone <==> u in start.sessions && Expired(now, start.sessions[u])
    ensures gone <= start.sessions.Keys
    ensures Lists(expired, start.sessions, gone)
    ensures SameAccount(start.sessions, multiset{}, shard.sessions, shut)
    ensures forall id :: ShardIndexes(start, id) && Single(start.sessions, id) ==> ShardIndexes(shard, id)
  {
    shard, expired, shut, gone := start, [], multiset{}, {};
    var keys := start.sessions.Keys;
    while keys != {}
      invariant ShardOk(shard) && shard.sessions == start.sessions - gone && keys <= shard.sessions.Keys
      invariant forall id :: ShardIndexes(start, id) && Single(start.sessions, id) ==> ShardIndexes(shard, id)
      invariant forall u :: u in gone <==> u in start.sessions && u !in keys && Expired(now, start.sessions[u])
      invariant Lists(expired, start.sessions, gone)
      invariant SameAccount(start.sessions, multiset{}, shard.sessions, shut)
      decreases keys
    {
      var uid := Any(keys);
      keys := keys - {uid};
      var session := shard.sessions[uid];
      if now > session.expireAt {
        DeleteAccounts(shard.sessions, shut, uid);
        WithoutSessionOk(shard, uid);
        assert shard.sessions - {uid} == start.sessions - (gone + {uid});
        expired := expired + [session];
        shut := shut + Closing(session.conn);
        shard := WithoutSession(shard, uid);
        gone := gone + {uid};
      }
    }
  }

  method CloseSessions(sessions: map<int, Session>) returns (shut: multiset<nat>)
    ensures SameAccount(sessions, multiset{}, map[], shut)
  {
    shut := multiset{};
    var keys := sessions.Keys;
    ghost var left := sessions;
    while keys != {}
      invariant keys <= sessions.Keys && left == sessions - (sessions.Keys - keys)
      invariant SameAccount(sessions, multiset{}, left, shut)
      decreases keys
    {
      var uid := Any(keys);
      keys := keys - {uid};
      DeleteAccounts(left, shut, uid);
      shut := shut + Closing(sessions[uid].conn);
      left := left - {uid};
    }
    assert left == map[];
  }

  /** An account kept within a part of the map is kept within the whole. */
  lemma LiftAccount(flat: map<int, Session>, closed: multiset<nat>, part: map<int, Session>, gone: set<int>, shut: multiset<nat>)
    requires forall u :: u in part ==> u in flat && flat[u] == part[u]
    requires gone <= part.Keys && SameAccount(part, multiset{}, part - gone, shut)
    ensures SameAccount(flat, closed, flat - gone, closed + shut)
  {
    forall c: nat
      ensures Accounted(flat - gone, closed + shut, c) == Accounted(flat, closed, c)
    {
      LostHolders(flat, part, gone, c);
      LostHolders(part, part, gone, c);
      assert Accounted(part - gone, shut, c) == Accounted(part, multiset{}, c);
    }
  }

  lemma LostHolders(flat: map<int, Session>, part: map<int, Session>, gone: set<int>, c: nat)
    requires forall u :: u in part ==> u in flat && flat[u] == part[u]
    requires gone <= part.Keys
    ensures |Holders(flat, c)| == |Holders(flat - gone, c)| + |set u | u in gone && part[u].conn == Some(c)|
  {
    var lost := set u | u in gone && part[u].conn == Some(c);
    var left := Holders(flat - gone, c);
    forall u
      ensures u in Holders(flat, c) <==> u in left || u in lost
    {
    }
    assert Holders(flat, c) == left + lost && left !! lost;
  }

  /** Every connection is held or closed as often after as before. */
  ghost predicate SameAccount(flat: map<int, Session>, closed: multiset<nat>, flat': map<int, Session>, closed': multiset<nat>) {
    forall c :: Accounted(flat', closed', c) == Accounted(flat, closed, c)
  }

  lemma SweptIsUnexpired(flat: map<int, Session>, now: int, gone: set<int>)
    requires gone == set u | u in flat && Expired(now, flat[u])
    ensures flat - gone == Unexpired(flat, now)
  {
  }

  lemma ListsLift(expired: seq<Session>, part: map<int, Session>, flat: map<int, Session>, gone: set<int>)
    requires Lists(expired, part, gone) && forall u :: u in part ==> u in flat && flat[u] == part[u]
    ensures Lists(expired, flat, gone)
  {
  }

  lemma ListsConcat(a: seq<Session>, b: seq<Session>, flat: map<int, Session>, gone: set<int>, more: set<int>)
    requires Lists(a, flat, gone) && Lists(b, flat - gone, more)
    ensures Lists(a + b, flat, gone + more)
  {
    forall i, j | 0 <= i < j < |a + b|
      ensures (a + b)[i].uid != (a + b)[j].uid
    {
      if i < |a| <= j {
        assert a[i].uid in gone && b[j - |a|].uid in more;
      }
    }
  }

  /** The sessions of the uids in `gone`, each once. */
  ghost predicate Lists(expired: seq<Session>, flat: map<int, Session>, gone: set<int>) {
    && (forall i :: 0 <= i < |expired| ==> expired[i].uid in gone && Options.Get(flat, expired[i].uid) == Some(expired[i]))
    && (forall u :: u in gone ==> u in flat && flat[u] in expired)
    && (forall i, j :: 0 <= i < j < |expired| ==> expired[i].uid != expired[j].uid)
  }

  /** What a sweep returns: the expired sessions, each once. */
  ghost predicate Swept(expired: seq<Session>, flat: map<int, Session>, now: int) {
    Lists(expired, flat, set u | u in flat && Expired(now, flat[u]))
  }

  /** Dropping a session and closing its connection keeps the account of every connection. */
  lemma DeleteAccounts(flat: map<int, Session>, closed: multiset<nat>, uid: int)
    requires uid in flat
    ensures forall c :: Accounted(flat - {uid}, closed + Closing(flat[uid].conn), c) == Accounted(flat, closed, c)
  {
    forall c
      ensures Accounted(flat - {uid}, closed + Closing(flat[uid].conn), c) == Accounted(flat, closed, c)
    {
      assert Holders(flat - {uid}, c) == Holders(flat, c) - {uid};
    }
  }

  /** Only the holder whose session changes is counted anew. */
  lemma HoldersAfterSet(flat: map<int, Session>, session: Session, c: nat)
    ensures |Holders(flat[session.uid := session], c)|
            == |Holders(flat, c)| - Bit(session.uid in Holders(flat, c)) + Bit(session.conn == Some(c))
  {
    var u := session.uid;
    var before, after := Holders(flat, c), Holders(flat[u := session], c);
    SizeWithout(before, u);
    SizeWithout(after, u);
    assert after - {u} == before - {u} by {
      forall x
        ensures x in after - {u} <==> x in before - {u}
      {
      }
    }
  }

  /** Storing a session adds its connection to the account, unless the session it replaces held it already. */
  lemma SetAccounts(flat: map<int, Session>, closed: multiset<nat>, session: Session, c: nat)
    ensures var entered := session.conn == Some(c) && !(session.uid in flat && flat[session.uid].conn == Some(c));
            Accounted(flat[session.uid := session], closed + Replaced(flat, session), c)
            == Accounted(flat, closed, c) + if entered then 1 else 0
  {
    HoldersAfterSet(flat, session, c);
  }

  lemma NobodyHolds(flat: map<int, Session>, closed: multiset<nat>)
    requires flat == map[]
    ensures forall c :: Accounted(flat, closed, c) == closed[c]
  {
    assert forall c :: Holders(flat, c) == {};
  }

  /** The connection that storing a session closes. */
  function Replaced(flat: map<int, Session>, session: Session): multiset<nat> {
    if session.uid in flat && flat[session.uid].conn != session.conn then Closing(flat[session.uid].conn) else multiset{}
  }
}
