/** What every run of non-overlapping manager calls keeps: the account of connections and the leases. */
module ConnectionRuns {
  import opened Options
  import opened ConnectionPool
  import opened ConnectionManager
  import opened Subsequences

  // ---------- connections ----------

  predicate Brings(call: Call, x: nat) {
    call.Bind? && call.req.conn == Some(x)
  }

  /** Connection `x` was bound by one of the first `n` calls. */
  ghost predicate BoundBy(calls: seq<Call>, n: nat, x: nat)
    requires n <= |calls|
  {
    exists i :: 0 <= i < n && Brings(calls[i], x) && calls[i].fault.Fine?
  }

  /** A connection that was bound is not brought again. */
  ghost predicate FreshConnections(calls: seq<Call>) {
    forall i, j, x :: 0 <= i < j < |calls| && Brings(calls[i], x) && calls[i].fault.Fine? ==> !Brings(calls[j], x)
  }

  ghost predicate KeyedByUid(v: View) {
    forall u :: u in v.flat ==> v.flat[u].uid == u
  }

  lemma NextKeepsKeys(c: Config, v: View, call: Call, v': View)
    requires KeyedByUid(v) && Next(c, v, call, v')
    ensures KeyedByUid(v')
  {
  }

  /** How one call changes the account of one connection. */
  lemma NextAccounts(c: Config, v: View, call: Call, v': View, x: nat)
    requires KeyedByUid(v) && Next(c, v, call, v')
    ensures Accounted(v'.flat, v'.closed, x) ==
            Accounted(v.flat, v.closed, x)
            + if Brings(call, x) && call.fault.Fine? && !(call.req.uid in Holders(v.flat, x)) then 1 else 0
  {
    match call
    case Bind(req, now, fault) => SetAccounts(v.flat, v.closed, NewSession(c, req, now), x);
    case Heartbeat(uid, connId, now, fault) =>
      if uid in v.flat {
        SetAccounts(v.flat, v.closed, Beaten(c, v.flat[uid], now), x);
      }
    case Disconnect(uid, fault) =>
      if uid in v.flat {
        DeleteAccounts(v.flat, v.closed, uid);
      } else {
        assert v.flat - {uid} == v.flat;
      }
    case Sweep(now) =>
    case CloseAll =>
  }

  lemma {:induction false} RunAccounts(c: Config, views: seq<View>, calls: seq<Call>, n: nat, x: nat)
    requires IsRun(c, views, calls) && n < |views| && FreshConnections(calls)
    ensures KeyedByUid(views[n])
    ensures Accounted(views[n].flat, views[n].closed, x) == if BoundBy(calls, n, x) then 1 else 0
  {
    if n == 0 {
      assert Holders(views[0].flat, x) == {};
    } else {
      RunAccounts(c, views, calls, n - 1, x);
      assert CallAt(c, views, calls, n - 1);
      NextKeepsKeys(c, views[n - 1], calls[n - 1], views[n]);
      NextAccounts(c, views[n - 1], calls[n - 1], views[n], x);
      if Brings(calls[n - 1], x) {
        assert !BoundBy(calls, n - 1, x);
        assert |Holders(views[n - 1].flat, x)| == 0;
      }
    }
  }

  /** With a fresh connection per bind, a bound connection is held by exactly one session and not closed, or held
  by none and closed exactly once; one that was never bound is neither. */
  lemma ConnectionClosedOnceOnLeaving(c: Config, views: seq<View>, calls: seq<Call>, n: nat, x: nat)
    requires IsRun(c, views, calls) && n < |views| && FreshConnections(calls)
    ensures var held, closed := |Holders(views[n].flat, x)|, views[n].closed[x];
            if BoundBy(calls, n, x) then held + closed == 1 else held == closed == 0
  {
    RunAccounts(c, views, calls, n, x);
  }

  // ---------- leases ----------

  function TimeOf(call: Call, before: int): int {
    match call
    case Bind(_, now, _) => now
    case Heartbeat(_, _, now, _) => now
    case Sweep(now) => now
    case Disconnect(_, _) => before
    case CloseAll => before
  }

  /** The clock never runs backwards. */
  ghost predicate Monotone(calls: seq<Call>, clock: seq<int>) {
    && |clock| == |calls| + 1
    && forall i :: 0 <= i < |calls| ==> Ticks(calls[i], clock, i)
  }

  predicate Ticks(call: Call, clock: seq<int>, i: nat)
    requires i + 1 < |clock|
  {
    clock[i] <= clock[i + 1] == TimeOf(call, clock[i])
  }

  /** The store entry of a session is no older than its last renewal and no newer than now. */
  predicate Leased(c: Config, session: Session, stored: Option<int>, clock: int) {
    && stored.Some? && session.lastRenewAt + c.sessionTtl <= stored.value <= clock + c.sessionTtl
    && session.expireAt == session.lastHeartbeatAt + c.sessionTtl
    && session.lastRenewAt <= session.lastHeartbeatAt <= clock
    && session.lastHeartbeatAt - session.lastRenewAt < c.renewInterval
  }

  ghost predicate LeasesOk(c: Config, v: View, clock: int) {
    forall u :: u in v.flat ==> v.flat[u].uid == u && Leased(c, v.flat[u], Get(v.stored, u), clock)
  }

  lemma NextKeepsLeases(c: Config, v: View, call: Call, v': View, clock: int)
    requires c.renewInterval > 0 && LeasesOk(c, v, clock) && Next(c, v, call, v') && TimeOf(call, clock) >= clock
    ensures LeasesOk(c, v', TimeOf(call, clock))
  {
    forall u | u in v'.flat
      ensures v'.flat[u].uid == u && Leased(c, v'.flat[u], Get(v'.stored, u), TimeOf(call, clock))
    {
      if u in v.flat {
        assert v.flat[u].uid == u && Leased(c, v.flat[u], Get(v.stored, u), clock);
      }
      match call
      case Bind(req, now, fault) =>
      case Heartbeat(uid, connId, now, fault) =>
      case Disconnect(uid, fault) =>
      case Sweep(now) =>
      case CloseAll =>
    }
  }

  /** Whatever writes fail, with or without effect. */
  lemma {:induction false} RunKeepsLeases(c: Config, views: seq<View>, calls: seq<Call>, clock: seq<int>, n: nat)
    requires c.renewInterval > 0 && IsRun(c, views, calls) && Monotone(calls, clock) && n < |views|
    ensures LeasesOk(c, views[n], clock[n])
  {
    if n > 0 {
      RunKeepsLeases(c, views, calls, clock, n - 1);
      assert CallAt(c, views, calls, n - 1) && Ticks(calls[n - 1], clock, n - 1);
      NextKeepsLeases(c, views[n - 1], calls[n - 1], views[n], clock[n - 1]);
    }
  }

  /** After a heartbeat that succeeds, the stored expiry lags the local one by less than the renew interval, and
  when that interval is at most the session's lifetime the stored entry is still live. */
  lemma HeartbeatKeepsEntryLive(c: Config, views: seq<View>, calls: seq<Call>, clock: seq<int>, n: nat)
    requires c.renewInterval > 0 && IsRun(c, views, calls) && Monotone(calls, clock) && n < |calls|
    requires calls[n].Heartbeat? && calls[n].fault.Fine?
    requires calls[n].uid in views[n].flat && Matches(views[n].flat[calls[n].uid], calls[n].connId)
    ensures var u := calls[n].uid;
            && u in views[n + 1].flat && u in views[n + 1].stored
            && views[n + 1].flat[u].expireAt == calls[n].now + c.sessionTtl
            && 0 <= views[n + 1].flat[u].expireAt - views[n + 1].stored[u] < c.renewInterval
            && (c.renewInterval <= c.sessionTtl ==> views[n + 1].stored[u] > calls[n].now)
  {
    RunKeepsLeases(c, views, calls, clock, n + 1);
    assert CallAt(c, views, calls, n) && Ticks(calls[n], clock, n);
  }

  // ---------- store entries and sweeps ----------

  /** The call writes the store entry of `u`, whether or not it reports an error. */
  predicate Writes(c: Config, v: View, call: Call, u: int) {
    match call
    case Bind(req, _, fault) => req.uid == u && !fault.Lost?
    case Heartbeat(uid, connId, now, fault) =>
      uid == u && u in v.flat && Matches(v.flat[u], connId) && Renews(c, v.flat[u], now) && !fault.Lost?
    case _ => false
  }

  /** When the store entry of `u` was written last. */
  ghost function WrittenAt(c: Config, views: seq<View>, calls: seq<Call>, n: nat, u: int): Option<int>
    requires |views| == |calls| + 1 && n <= |calls|
  {
    if n == 0 then None
    else if Writes(c, views[n - 1], calls[n - 1], u) then Some(TimeOf(calls[n - 1], 0))
    else WrittenAt(c, views, calls, n - 1, u)
  }

  /** The entry of a live session is the one written last. */
  lemma {:induction false} EntryIsLastWrite(c: Config, views: seq<View>, calls: seq<Call>, n: nat, u: int)
    requires IsRun(c, views, calls) && n < |views| && u in views[n].flat
    ensures KeyedByUid(views[n])
    ensures var at := WrittenAt(c, views, calls, n, u);
            at.Some? && Get(views[n].stored, u) == Some(at.value + c.sessionTtl)
  {
    RunKeepsKeys(c, views, calls, n);
    RunKeepsKeys(c, views, calls, n - 1);
    assert CallAt(c, views, calls, n - 1);
    if u in views[n - 1].flat {
      EntryIsLastWrite(c, views, calls, n - 1, u);
    }
  }

  lemma {:induction false} RunKeepsKeys(c: Config, views: seq<View>, calls: seq<Call>, n: nat)
    requires IsRun(c, views, calls) && n < |views|
    ensures KeyedByUid(views[n])
  {
    if n > 0 {
      RunKeepsKeys(c, views, calls, n - 1);
      assert CallAt(c, views, calls, n - 1);
      NextKeepsKeys(c, views[n - 1], calls[n - 1], views[n]);
    }
  }

  /** In any run: when a session is swept, its entry has expired exactly if the last write of it lies more than the
  session's lifetime back. */
  lemma SweptEntryExpiredIff(c: Config, views: seq<View>, calls: seq<Call>, n: nat, u: int)
    requires IsRun(c, views, calls) && n < |calls| && calls[n].Sweep? && u in views[n].flat && u !in views[n + 1].flat
    ensures u in views[n].stored
    ensures var at := WrittenAt(c, views, calls, n, u);
            at.Some? && (views[n].stored[u] < calls[n].now <==> at.value + c.sessionTtl < calls[n].now)
  {
    EntryIsLastWrite(c, views, calls, n, u);
  }

  /** A write for `u` that reports an error has not taken effect. */
  predicate CleanFor(call: Call, u: int) {
    match call
    case Bind(req, _, fault) => req.uid == u ==> !fault.Late?
    case Heartbeat(uid, _, _, fault) => uid == u ==> !fault.Late?
    case _ => true
  }

  /** Without late writes for the account, the entry of a live session is that of its last renewal. */
  lemma {:induction false} CleanEntryIsLastRenewal(c: Config, views: seq<View>, calls: seq<Call>, n: nat, u: int)
    requires IsRun(c, views, calls) && n < |views| && u in views[n].flat
    requires forall i :: 0 <= i < n ==> CleanFor(calls[i], u)
    ensures Get(views[n].stored, u) == Some(views[n].flat[u].lastRenewAt + c.sessionTtl)
  {
    RunKeepsKeys(c, views, calls, n - 1);
    assert CallAt(c, views, calls, n - 1) && CleanFor(calls[n - 1], u);
    if u in views[n - 1].flat {
      CleanEntryIsLastRenewal(c, views, calls, n - 1, u);
    }
  }

  /** So when its session is swept the entry has already expired. */
  lemma SweptEntryHasExpired(c: Config, views: seq<View>, calls: seq<Call>, clock: seq<int>, n: nat, u: int)
    requires c.renewInterval > 0 && IsRun(c, views, calls) && Monotone(calls, clock) && n < |calls|
    requires forall i :: 0 <= i < n ==> CleanFor(calls[i], u)
    requires calls[n].Sweep? && u in views[n].flat && u !in views[n + 1].flat
    ensures u in views[n].stored && views[n].stored[u] < calls[n].now
  {
    RunKeepsLeases(c, views, calls, clock, n);
    CleanEntryIsLastRenewal(c, views, calls, n, u);
    assert CallAt(c, views, calls, n);
  }

  /** The session of a request whose connection needs no more than a uid. */
  function Plain(u: int): BindRequest {
    BindRequest(u, 0, 0, "", "", "", "", None)
  }

  /** Without clean writes the entry can outlive the session, in every configuration: the session is bound at 0, its
  first renewal is written but reported as failed, and it is swept while the entry is live. */
  lemma LateWriteOutlivesSession(c: Config, u: int) returns (views: seq<View>, calls: seq<Call>, clock: seq<int>)
    requires c.sessionTtl > 0 && c.renewInterval > 0
    ensures IsRun(c, views, calls) && Monotone(calls, clock) && |calls| == 3 && calls[2].Sweep?
    ensures u in views[2].flat && u !in views[3].flat
    ensures u in views[3].stored && views[3].stored[u] >= calls[2].now
  {
    var sweepAt := if c.renewInterval <= c.sessionTtl then c.sessionTtl + 1 else c.renewInterval;
    views, calls, clock := [View(map[], multiset{}, map[])], [], [0, 0, c.renewInterval, sweepAt];
    views, calls := Extend(c, views, calls, Bind(Plain(u), 0, Fine), AfterBind(c, Last(views), Plain(u), 0, Fine));
    var beat := Heartbeat(u, "", c.renewInterval, Late);
    views, calls := Extend(c, views, calls, beat, AfterHeartbeat(c, Last(views), u, "", c.renewInterval, Late));
    var v := Last(views);
    var swept := v.(flat := Unexpired(v.flat, sweepAt));
    assert SameAccount(v.flat, v.closed, swept.flat, swept.closed) by {
      assert forall x :: Holders(v.flat, x) == {} && Holders(swept.flat, x) == {};
    }
    views, calls := Extend(c, views, calls, Sweep(sweepAt), swept);
  }
}
