/** Binding, heartbeats, disconnects and sweeps over the session pool and the shared connection store.

Manager calls do not overlap. The store is a map from uid to the expiry of the entry written for it; a write
to it may fail with or without having taken effect. */
module ConnectionManager {
  import opened Options
  import opened ConnectionPool
  import opened Subsequences

  datatype Config = Config(gatewayAddr: string, sessionTtl: int, renewInterval: int)

  /** `NewConnectionManager`, in seconds. */
  function Configure(gatewayAddr: string, sessionTtl: int, renewInterval: int): (c: Config)
    ensures c.sessionTtl > 0 && c.renewInterval > 0
  {
    Config(gatewayAddr,
           if sessionTtl <= 0 then 90 else sessionTtl,
           if renewInterval <= 0 then 30 else renewInterval)
  }

  datatype BindRequest = BindRequest(
    uid: int, roleId: int, serverId: int,
    connId: string, gatewayAddr: string, clientIp: string, deviceId: string,
    conn: Option<nat>)

  datatype View = View(
    flat: map<int, Session>,
    closed: multiset<nat>,
    stored: map<int, int>)

  datatype Fault = Fine | Lost | Late    // no error; error without effect; error after taking effect

  datatype Call =
    | Bind(req: BindRequest, now: int, fault: Fault)
    | Heartbeat(uid: int, connId: string, now: int, fault: Fault)
    | Disconnect(uid: int, fault: Fault)
    | Sweep(now: int)
    | CloseAll

  function NewSession(c: Config, req: BindRequest, now: int): Session {
    Session(req.uid, req.roleId, req.serverId, req.connId,
            if req.gatewayAddr == "" then c.gatewayAddr else req.gatewayAddr, req.clientIp, req.deviceId,
            now, now, now, now + c.sessionTtl, req.conn)
  }

  /** The session a heartbeat finds and may extend. */
  predicate Matches(session: Session, connId: string) {
    connId == "" || session.connId == "" || connId == session.connId
  }

  predicate Renews(c: Config, session: Session, now: int) {
    now - session.lastRenewAt >= c.renewInterval
  }

  function Beaten(c: Config, session: Session, now: int): Session {
    session.(lastHeartbeatAt := now,
             expireAt := now + c.sessionTtl,
             lastRenewAt := if Renews(c, session, now) then now else session.lastRenewAt)
  }

  function Written(stored: map<int, int>, session: Session, fault: Fault): map<int, int> {
    if fault.Lost? then stored else stored[session.uid := session.expireAt]
  }

  function WithPut(v: View, session: Session): View {
    v.(flat := v.flat[session.uid := session], closed := v.closed + Replaced(v.flat, session))
  }

  function AfterBind(c: Config, v: View, req: BindRequest, now: int, fault: Fault): View {
    var session := NewSession(c, req, now);
    var v' := v.(stored := Written(v.stored, session, fault));
    if fault.Fine? then WithPut(v', session) else v'
  }

  function AfterHeartbeat(c: Config, v: View, uid: int, connId: string, now: int, fault: Fault): View {
    if uid !in v.flat || !Matches(v.flat[uid], connId) then v
    else
      var session := Beaten(c, v.flat[uid], now);
      if !Renews(c, v.flat[uid], now) then WithPut(v, session)
      else
        var v' := v.(stored := Written(v.stored, session, fault));
        if fault.Fine? then WithPut(v', session) else v'
  }

  function AfterDisconnect(v: View, uid: int, fault: Fault): View {
    View(v.flat - {uid},
         v.closed + if uid in v.flat then Closing(v.flat[uid].conn) else multiset{},
         if fault.Lost? then v.stored else v.stored - {uid})
  }

  /** One manager call. A sweep and a close-all close connections in any order; what is fixed is the account. */
  ghost predicate Next(c: Config, v: View, call: Call, v': View) {
    match call
    case Bind(req, now, fault) => v' == AfterBind(c, v, req, now, fault)
    case Heartbeat(uid, connId, now, fault) => v' == AfterHeartbeat(c, v, uid, connId, now, fault)
    case Disconnect(uid, fault) => v' == AfterDisconnect(v, uid, fault)
    case Sweep(now) =>
      v'.flat == Unexpired(v.flat, now) && v'.stored == v.stored && SameAccount(v.flat, v.closed, v'.flat, v'.closed)
    case CloseAll =>
      v'.flat == map[] && v'.stored == v.stored && SameAccount(v.flat, v.closed, v'.flat, v'.closed)
  }

  // ---------- runs of calls ----------

  ghost predicate CallAt(c: Config, views: seq<View>, calls: seq<Call>, i: nat)
    requires |views| == |calls| + 1 && i < |calls|
  {
    Next(c, views[i], calls[i], views[i + 1])
  }

  ghost predicate IsRun(c: Config, views: seq<View>, calls: seq<Call>) {
    && |views| == |calls| + 1
    && views[0] == View(map[], multiset{}, map[])
    && forall i :: 0 <= i < |calls| ==> CallAt(c, views, calls, i)
  }

  /** A run goes on with any call. */
  lemma Extend(c: Config, views: seq<View>, calls: seq<Call>, call: Call, v': View)
      returns (views': seq<View>, calls': seq<Call>)
    requires IsRun(c, views, calls) && Next(c, Last(views), call, v')
    ensures IsRun(c, views', calls') && views' == views + [v'] && calls' == calls + [call]
  {
    views', calls' := views + [v'], calls + [call];
    forall i | 0 <= i < |calls'|
      ensures CallAt(c, views', calls', i)
    {
      assert i < |calls| ==> CallAt(c, views, calls, i);
    }
  }

  /** No two live sessions ever had this connection ID at once. */
  ghost predicate AlwaysSingle(views: seq<View>, id: string) {
    forall i :: 0 <= i < |views| ==> Single(views[i].flat, id)
  }

  // ---------- the manager ----------

  /** The manager carries the run of calls that led to its state. */
  class Manager {
    const config: Config
    const pool: Pool
    var stored: map<int, int>
    ghost var views: seq<View>
    ghost var calls: seq<Call>

    ghost predicate Valid()
      reads this, pool, pool.shards
    {
      && pool.Valid() && (forall u :: u in pool.flat ==> pool.flat[u].uid == u)
      && IsRun(config, views, calls) && Last(views) == Seen()
      && (forall id :: AlwaysSingle(views, id) ==> pool.Indexes(id))
    }

    ghost function Seen(): View
      reads this, pool
    {
      View(pool.flat, pool.closed, stored)
    }

    /** The call `call` was added to the run. */
    twostate predicate Recorded(call: Call)
      reads this
    {
      views != [] && views == old(views) + [Last(views)] && calls == old(calls) + [call]
    }

    /** `NewConnectionManager` */
    constructor (hash: int -> nat, gatewayAddr: string, sessionTtl: int, renewInterval: int)
      ensures Valid() && Seen() == View(map[], multiset{}, map[]) && calls == []
      ensures config == Configure(gatewayAddr, sessionTtl, renewInterval)
      ensures fresh(pool) && fresh(pool.shards)
    {
      config := Configure(gatewayAddr, sessionTtl, renewInterval);
      pool := new Pool(hash, 32);
      stored := map[];
      views, calls := [View(map[], multiset{}, map[])], [];
    }

    /** Add a call to the run; pool and store must already show its effect. */
    ghost method Record(call: Call)
      requires pool.Valid() && forall u :: u in pool.flat ==> pool.flat[u].uid == u
      requires IsRun(config, views, calls) && Next(config, Last(views), call, Seen())
      requires forall id :: AlwaysSingle(views, id) ==> pool.Indexes(id)
      modifies this`views, this`calls
      ensures Valid() && Recorded(call)
    {
      ghost var was := views;
      views, calls := Extend(config, views, calls, call, Seen());
      forall id | AlwaysSingle(views, id)
        ensures AlwaysSingle(was, id)
      {
        assert forall i :: 0 <= i < |was| ==> views[i] == was[i];
      }
    }

    method SetGateConn(session: Session) returns (fault: Fault)
      modifies this`stored
      ensures stored == Written(old(stored), session, fault)
    {
      fault := *;
      if !fault.Lost? {
        stored := stored[session.uid := session.expireAt];
      }
    }

    /** Put a session into the pool, as the last step of a call. */
    method Put(session: Session, ghost call: Call)
      requires pool.Valid() && forall u :: u in pool.flat ==> pool.flat[u].uid == u
      requires IsRun(config, views, calls) && Last(views).flat == pool.flat && Last(views).closed == pool.closed
      requires forall id :: AlwaysSingle(views, id) ==> pool.Indexes(id)
      requires Next(config, Last(views), call, WithPut(Seen(), session))
      modifies this`views, this`calls, pool, pool.shards
      ensures Valid() && Recorded(call)
    {
      assert forall id :: AlwaysSingle(views, id) ==> Single(Last(views).flat, id);
      pool.Set(session);
      Record(call);
    }

    method BindSession(req: BindRequest, now: int) returns (r: Option<Session>, fault: Fault)
      requires Valid()
      modifies this, pool, pool.shards
      ensures Valid() && Recorded(Bind(req, now, fault))
      ensures r == if fault.Fine? then Some(NewSession(config, req, now)) else None
    {
      var addr := req.gatewayAddr;
      if addr == "" {
        addr := config.gatewayAddr;
      }
      var session := Session(req.uid, req.roleId, req.serverId, req.connId, addr, req.clientIp, req.deviceId,
                             now, now, now, now + config.sessionTtl, req.conn);
      fault := SetGateConn(session);
      if !fault.Fine? {
        Record(Bind(req, now, fault));
        return None, fault;
      }
      Put(session, Bind(req, now, fault));
      r := Some(session);
    }

    /** Renew the store entry when it is due. */
    method Renew(session: Session, now: int) returns (renewed: Session, fault: Fault)
      modifies this`stored
      ensures var beaten := Beaten(config, session, now);
              if Renews(config, session, now) then renewed == beaten && stored == Written(old(stored), beaten, fault)
              else renewed == beaten && stored == old(stored) && fault.Fine?
    {
      renewed, fault := session.(lastHeartbeatAt := now, expireAt := now + config.sessionTtl), Fine;
      if now - session.lastRenewAt >= config.renewInterval {
        renewed := renewed.(lastRenewAt := now);
        fault := SetGateConn(renewed);
      }
    }

    method BeatSession(uid: int, connId: string, now: int) returns (r: Option<Session>, fault: Fault)
      requires Valid()
      modifies this, pool, pool.shards
      ensures Valid() && Recorded(Heartbeat(uid, connId, now, fault))
      ensures r.Some? <==> uid in old(pool.flat) && Matches(old(pool.flat)[uid], connId) && fault.Fine?
      ensures r.Some? ==> r.value == Beaten(config, old(pool.flat)[uid], now)
    {
      var found := pool.Get(uid);
      if found.None? || (connId != "" && found.value.connId != "" && connId != found.value.connId) {
        Record(Heartbeat(uid, connId, now, Fine));
        return None, Fine;
      }
      r, fault := BeatFound(uid, connId, found.value, now);
    }

    /** The heartbeat of a session that was found. */
    method BeatFound(uid: int, connId: string, session: Session, now: int) returns (r: Option<Session>, fault: Fault)
      requires Valid() && Get(pool.flat, uid) == Some(session) && Matches(session, connId)
      modifies this, pool, pool.shards
      ensures Valid() && Recorded(Heartbeat(uid, connId, now, fault))
      ensures r == if fault.Fine? then Some(Beaten(config, session, now)) else None
    {
      var beaten;
      beaten, fault := Renew(session, now);
      if !fault.Fine? {
        Record(Heartbeat(uid, connId, now, fault));
        return None, fault;
      }
      Put(beaten, Heartbeat(uid, connId, now, fault));
      r := Some(beaten);
    }

    method DisconnectSession(uid: int) returns (fault: Fault)
      requires Valid()
      modifies this, pool, pool.shards
      ensures Valid() && Recorded(Disconnect(uid, fault))
    {
      assert forall id :: AlwaysSingle(views, id) ==> Single(Last(views).flat, id);
      pool.Delete(uid);
      fault := *;
      if !fault.Lost? {
        stored := stored - {uid};
      }
      Record(Disconnect(uid, fault));
    }

    method SweepSessions(now: int) returns (expired: seq<Session>)
      requires Valid()
      modifies this, pool, pool.shards
      ensures Valid() && Recorded(Sweep(now)) && Swept(expired, old(pool.flat), now)
    {
      assert forall id :: AlwaysSingle(views, id) ==> Single(Last(views).flat, id);
      expired := pool.SweepExpired(now);
      Record(Sweep(now));
    }

    method CloseSessions()
      requires Valid()
      modifies this, pool, pool.shards
      ensures Valid() && Recorded(CloseAll)
    {
      pool.CloseAll();
      NobodyHolds(pool.flat, pool.closed);
      Record(CloseAll);
    }

    /** The lookup by connection ID: what it finds is live and has the ID, and if no two live sessions ever shared this
    ID it finds one exactly when there is one. */
    method SessionByConnID(connId: string) returns (r: Option<Session>)
      requires Valid()
      ensures r.Some? ==> connId != "" && r.value.connId == connId && Get(pool.flat, r.value.uid) == r
      ensures AlwaysSingle(views, connId) ==>
                (r.Some? <==> connId != "" && exists u :: u in pool.flat && pool.flat[u].connId == connId)
    {
      r := pool.GetByConnID(connId);
    }
  }
}
