/** What the Redis projection, the sent mark and the local snapshots say about MySQL, in every run. */
module ProjectionSafety {
  import opened Options
  import opened GlobalMail
  import opened MailPipeline
  import PublishSafety

  /** Every mail held is the MySQL row. */
  ghost predicate Faithful(held: map<int, Mail>, mails: map<int, Mail>) {
    forall id :: id in held ==> id in mails && held[id] == mails[id]
  }

  ghost predicate RedisOk(mails: map<int, Mail>, redis: Redis, advanced: set<int>) {
    && Faithful(redis.details, mails)
    && (forall id :: id in redis.index ==> id in mails && redis.index[id] == Unix(mails[id].expireTime))
    && (forall id :: id in advanced ==> id in redis.index && id in mails)
  }

  /** The lease names its row. */
  predicate LeaseOk(outbox: map<int, Event>, l: Lease) {
    l.event in outbox && outbox[l.event].mail == l.mail && outbox[l.event].version == l.version
  }

  /** What is already done when a relay has come to this stage of an event. */
  predicate StageOk(w: World, l: Lease, stage: Stage) {
    && (stage.SetDetail? || stage.SetIndex? ==> l.mail in w.db.mails && stage.mail == w.db.mails[l.mail])
    && (stage.SetIndex? || stage.Raise? || stage.Notify? || stage.MarkSent? ==> l.mail in w.detailed)
    && (stage.Raise? || stage.Notify? || stage.MarkSent? ==> l.mail in w.redis.index)
    && (stage.Notify? || stage.MarkSent? ==> w.redis.version >= l.version && l.mail in w.advanced)
    && (stage.MarkSent? ==> l.event in w.notified)
  }

  ghost predicate RelayOk(w: World, r: Relay) {
    r.Working? ==> r.todo != [] && (forall i :: 0 <= i < |r.todo| ==> LeaseOk(w.db.outbox, r.todo[i]))
                   && StageOk(w, r.todo[0], r.stage)
  }

  /** The mail of the event is projected and the event went out. */
  predicate Delivered(w: World, event: int)
    requires event in w.db.outbox
  {
    var e := w.db.outbox[event];
    && e.mail in w.detailed && e.mail in w.redis.index && e.mail in w.advanced
    && w.redis.version >= e.version && event in w.notified
  }

  ghost predicate SentOk(w: World) {
    forall e :: e in w.db.outbox && w.db.outbox[e].status.Sent? ==> Delivered(w, e)
  }

  ghost predicate Covers(mails: map<int, Mail>, must: set<int>, now: int, ids: set<int>) {
    forall m :: m in must && m in mails && InWindow(mails[m], now) ==> m in ids
  }

  ghost predicate TaskOk(w: World, t: Task) {
    && t.must <= w.advanced
    && (t.pc.Getting? ==> Faithful(t.pc.got, w.db.mails)
                          && Covers(w.db.mails, t.must, t.pc.now, t.pc.todo + t.pc.got.Keys))
    && (t.pc.Refilling? ==> Faithful(t.pc.got, w.db.mails) && Covers(w.db.mails, t.must, t.pc.now, t.pc.got.Keys))
  }

  ghost predicate Inv(w: World) {
    && PublishSafety.Inv(w) && RedisOk(w.db.mails, w.redis, w.advanced) && SentOk(w)
    && (forall r :: r in w.relays ==> RelayOk(w, w.relays[r]))
    && (forall t :: t in w.tasks ==> TaskOk(w, w.tasks[t]))
    && (forall k :: k in w.caches ==> Faithful(w.caches[k].mails, w.db.mails))
  }

  /** What no step takes back. */
  ghost predicate Grows(w: World, w': World) {
    PublishSafety.Extends(w.db, w'.db) && Accumulates(w, w')
  }

  ghost predicate Accumulates(w: World, w': World) {
    && w.redis.index.Keys <= w'.redis.index.Keys && w.redis.version <= w'.redis.version
    && w.detailed <= w'.detailed && w.advanced <= w'.advanced && w.notified <= w'.notified
  }

  lemma StepAccumulates(c: Config, w: World, step: Step)
    requires Enabled(w, step)
    ensures Accumulates(w, Apply(c, w, step))
  {
    match step
    case Tick(_) =>
    case DetailExpires(_) =>
    case Publish(_, _) =>
    case Relaying(id, act) =>
    case Refresh(id, act) =>
  }

  lemma StepGrows(c: Config, w: World, step: Step)
    requires PublishSafety.Inv(w) && Enabled(w, step)
    ensures PublishSafety.Inv(Apply(c, w, step)) && Grows(w, Apply(c, w, step))
  {
    PublishSafety.StepKeepsInv(c, w, step);
    StepAccumulates(c, w, step);
  }

  lemma GrowthKeepsRelay(w: World, w': World, r: Relay)
    requires RelayOk(w, r) && Grows(w, w')
    ensures RelayOk(w', r)
  {
  }

  lemma GrowthKeepsTask(w: World, w': World, t: Task)
    requires TaskOk(w, t) && Grows(w, w') && RedisOk(w.db.mails, w.redis, w.advanced)
    ensures TaskOk(w', t)
  {
  }

  lemma GrowthKeepsFaithful(held: map<int, Mail>, db: Db, db': Db)
    requires Faithful(held, db.mails) && PublishSafety.Extends(db, db')
    ensures Faithful(held, db'.mails)
  {
  }

  // ---------- Redis ----------

  /** A stage writes what the mail row says. */
  lemma StageKeepsRedis(w: World, l: Lease, stage: Stage, fault: Fault)
    requires RedisOk(w.db.mails, w.redis, w.advanced) && StageOk(w, l, stage)
    requires l.mail in w.db.mails ==> w.db.mails[l.mail].id == l.mail
    ensures RedisOk(w.db.mails, RedisAfterStage(w.redis, l, stage, fault),
                    if stage.Raise? then w.advanced + {l.mail} else w.advanced)
  {
    match stage
    case Decode =>
    case Load =>
    case SetDetail(_) =>
    case SetIndex(_) =>
    case Raise =>
    case Notify =>
    case MarkSent =>
    case ReadRetries =>
    case MarkFailed(_, _) =>
  }

  lemma RelayKeepsRedis(c: Config, w: World, id: nat, act: RelayAct)
    requires RedisOk(w.db.mails, w.redis, w.advanced) && PublishSafety.RowsOk(w.db)
    requires RelayEnabled(w, id, act) && (id in w.relays ==> RelayOk(w, w.relays[id]))
    ensures var w' := RelayStep(c, w, id, act); RedisOk(w.db.mails, w'.redis, w'.advanced)
  {
    if act.Do? {
      StageKeepsRedis(w, w.relays[id].todo[0], w.relays[id].stage, act.fault);
    }
  }

  lemma RefreshKeepsRedis(w: World, id: nat, act: RefreshAct)
    requires RedisOk(w.db.mails, w.redis, w.advanced) && PublishSafety.RowsOk(w.db)
    requires RefreshEnabled(w, id, act) && (id in w.tasks ==> TaskOk(w, w.tasks[id]))
    ensures var w' := RefreshStep(w, id, act); RedisOk(w.db.mails, w'.redis, w'.advanced)
  {
  }

  lemma StepKeepsRedis(c: Config, w: World, step: Step)
    requires Inv(w) && Enabled(w, step)
    ensures var w' := Apply(c, w, step); RedisOk(w'.db.mails, w'.redis, w'.advanced)
  {
    var w' := Apply(c, w, step);
    match step
    case Tick(_) =>
    case DetailExpires(_) =>
    case Publish(_, _) =>
      PublishSafety.StepKeepsInv(c, w, step);
    case Relaying(id, act) => RelayKeepsRedis(c, w, id, act);
    case Refresh(id, act) => RefreshKeepsRedis(w, id, act);
  }

  // ---------- relays ----------

  lemma DoAdvances(c: Config, w: World, id: nat, fault: Fault)
    requires PublishSafety.RowsOk(w.db) && RelayEnabled(w, id, Do(fault)) && RelayOk(w, w.relays[id])
    requires RelayOk(RelayStep(c, w, id, Do(fault)), w.relays[id])
    ensures var w' := RelayStep(c, w, id, Do(fault)); RelayOk(w', w'.relays[id])
  {
    var w' := RelayStep(c, w, id, Do(fault));
    var todo := w.relays[id].todo;
    assert w'.relays[id] == StageAfter(w, todo, w.relays[id].stage, fault);
    match w.relays[id].stage
    case Decode =>
    case Load =>
    case SetDetail(_) =>
    case SetIndex(_) =>
    case Raise =>
    case Notify =>
    case MarkSent =>
    case ReadRetries =>
    case MarkFailed(_, _) =>
  }

  lemma RelayActs(c: Config, w: World, id: nat, act: RelayAct)
    requires RelayEnabled(w, id, act) && (id in w.relays ==> RelayOk(w, w.relays[id]))
    requires PublishSafety.RowsOk(w.db) && Grows(w, RelayStep(c, w, id, act))
    ensures var w' := RelayStep(c, w, id, act); RelayOk(w', w'.relays[id])
  {
    match act
    case Start =>
    case Fetch(ids, fault) =>
    case Do(fault) =>
      GrowthKeepsRelay(w, RelayStep(c, w, id, act), w.relays[id]);
      DoAdvances(c, w, id, fault);
    case StageFails =>
    case Stop =>
  }

  /** Only a mark at the last stage makes a row sent. */
  lemma SentByMark(c: Config, w: World, id: nat, act: RelayAct, e: int)
    requires RelayEnabled(w, id, act) && (id in w.relays ==> RelayOk(w, w.relays[id]))
    requires e in w.db.outbox && !w.db.outbox[e].status.Sent?
    requires OutboxAfter(c, w, id, act)[e].status.Sent?
    ensures Delivered(w, e)
  {
    assert act.Do? && w.relays[id].stage.MarkSent? && w.relays[id].todo[0].event == e;
    assert LeaseOk(w.db.outbox, w.relays[id].todo[0]);
  }

  lemma GrowthKeepsDelivered(w: World, w': World, e: int)
    requires Grows(w, w') && e in w.db.outbox && Delivered(w, e)
    ensures Delivered(w', e)
  {
  }

  lemma SentIsDelivered(c: Config, w: World, step: Step, e: int)
    requires SentOk(w) && Enabled(w, step)
    requires step.Relaying? && step.id in w.relays ==> RelayOk(w, w.relays[step.id])
    requires e in Apply(c, w, step).db.outbox && Apply(c, w, step).db.outbox[e].status.Sent?
    ensures e in w.db.outbox && Delivered(w, e)
  {
    match step
    case Tick(_) =>
    case DetailExpires(_) =>
    case Publish(_, _) =>
    case Relaying(id, act) =>
      if !w.db.outbox[e].status.Sent? {
        SentByMark(c, w, id, act, e);
      }
    case Refresh(_, _) =>
  }

  lemma StepKeepsSent(c: Config, w: World, step: Step)
    requires Inv(w) && Enabled(w, step)
    ensures SentOk(Apply(c, w, step))
  {
    var w' := Apply(c, w, step);
    assert Grows(w, w') by {
      StepGrows(c, w, step);
    }
    forall e | e in w'.db.outbox && w'.db.outbox[e].status.Sent?
      ensures Delivered(w', e)
    {
      SentIsDelivered(c, w, step, e);
      GrowthKeepsDelivered(w, w', e);
    }
  }

  // ---------- refreshes ----------

  lemma Listed(w: World, must: set<int>, now: int)
    requires RedisOk(w.db.mails, w.redis, w.advanced) && must <= w.advanced
    ensures Covers(w.db.mails, must, now, ActiveIds(w.redis.index, now))
  {
    forall m | m in must && m in w.db.mails && InWindow(w.db.mails[m], now)
      ensures m in ActiveIds(w.redis.index, now)
    {
      UnixMonotone(now, w.db.mails[m].expireTime);
    }
  }

  lemma TaskActs(w: World, id: nat, act: RefreshAct)
    requires Inv(w) && RefreshEnabled(w, id, act)
    ensures var w' := RefreshStep(w, id, act); TaskOk(w', w'.tasks[id])
  {
    if !act.Open? {
      var t := w.tasks[id];
      assert TaskOk(w, t);
      if act.List? {
        Listed(w, t.must, t.pc.now);
      }
    }
  }

  /** A cache holds what it held, or what the refresh that swaps has got. */
  lemma CachesMove(c: Config, w: World, step: Step, k: nat)
    requires Enabled(w, step) && k in Apply(c, w, step).caches
    ensures var held := Apply(c, w, step).caches[k].mails;
            || (k in w.caches && held == w.caches[k].mails)
            || (step.Refresh? && step.id in w.tasks && (w.tasks[step.id].pc.Getting? || w.tasks[step.id].pc.Refilling?)
                && held == w.tasks[step.id].pc.got)
  {
    match step
    case Tick(_) =>
    case DetailExpires(_) =>
    case Publish(_, _) =>
    case Relaying(_, _) =>
    case Refresh(_, _) =>
  }

  lemma StepKeepsCaches(c: Config, w: World, step: Step, k: nat)
    requires Inv(w) && Enabled(w, step) && k in Apply(c, w, step).caches
    ensures Faithful(Apply(c, w, step).caches[k].mails, Apply(c, w, step).db.mails)
  {
    var w' := Apply(c, w, step);
    var held := w'.caches[k].mails;
    assert Faithful(held, w.db.mails) by {
      CachesMove(c, w, step, k);
      assert step.Refresh? && step.id in w.tasks ==> TaskOk(w, w.tasks[step.id]);
    }
    assert PublishSafety.Extends(w.db, w'.db) by { PublishSafety.StepKeepsInv(c, w, step); }
    GrowthKeepsFaithful(held, w.db, w'.db);
  }

  // ---------- all together ----------

  lemma StepKeepsRelay(c: Config, w: World, step: Step, r: nat)
    requires Inv(w) && Enabled(w, step) && r in Apply(c, w, step).relays
    ensures RelayOk(Apply(c, w, step), Apply(c, w, step).relays[r])
  {
    assert Grows(w, Apply(c, w, step)) by {
      StepGrows(c, w, step);
    }
    if step.Relaying? && step.id == r {
      RelayActs(c, w, r, step.relayAct);
    } else {
      GrowthKeepsRelay(w, Apply(c, w, step), w.relays[r]);
    }
  }

  lemma StepKeepsTask(c: Config, w: World, step: Step, t: nat)
    requires Inv(w) && Enabled(w, step) && t in Apply(c, w, step).tasks
    ensures TaskOk(Apply(c, w, step), Apply(c, w, step).tasks[t])
  {
    if step.Refresh? && step.id == t {
      TaskActs(w, t, step.refreshAct);
    } else {
      assert Grows(w, Apply(c, w, step)) by {
        StepGrows(c, w, step);
      }
      GrowthKeepsTask(w, Apply(c, w, step), w.tasks[t]);
    }
  }

  lemma StepKeepsInv(c: Config, w: World, step: Step)
    requires Inv(w) && Enabled(w, step)
    ensures Inv(Apply(c, w, step))
  {
    var w' := Apply(c, w, step);
    assert PublishSafety.Inv(w') by {
      PublishSafety.StepKeepsInv(c, w, step);
    }
    StepKeepsRedis(c, w, step);
    StepKeepsSent(c, w, step);
    forall r | r in w'.relays
      ensures RelayOk(w', w'.relays[r])
    {
      StepKeepsRelay(c, w, step, r);
    }
    forall t | t in w'.tasks
      ensures TaskOk(w', w'.tasks[t])
    {
      StepKeepsTask(c, w, step, t);
    }
    forall k | k in w'.caches
      ensures Faithful(w'.caches[k].mails, w'.db.mails)
    {
      StepKeepsCaches(c, w, step, k);
    }
  }

  lemma {:induction false} RunKeepsInv(c: Config, worlds: seq<World>, steps: seq<Step>, i: nat)
    requires IsRun(c, worlds, steps) && i < |worlds|
    ensures Inv(worlds[i])
  {
    if i > 0 {
      RunKeepsInv(c, worlds, steps, i - 1);
      assert StepAt(c, worlds, steps, i - 1);
      StepKeepsInv(c, worlds[i - 1], steps[i - 1]);
    }
  }
}
