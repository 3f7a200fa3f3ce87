/** The projection and the snapshots over whole runs. */
module ProjectionTheorems {
  import opened Options
  import opened GlobalMail
  import opened MailPipeline
  import opened ProjectionSafety

  // ---------- sent events ----------

  /** The step is a relay's call of the current stage, and the call takes effect. */
  predicate Calls(w: World, step: Step) {
    && step.Relaying? && step.relayAct.Do? && !step.relayAct.fault.Lost?
    && RelayEnabled(w, step.id, step.relayAct)
  }

  function LeaseAt(w: World, step: Step): Lease
    requires Calls(w, step)
  {
    w.relays[step.id].todo[0]
  }

  function StageAt(w: World, step: Step): Stage
    requires Calls(w, step)
  {
    w.relays[step.id].stage
  }

  predicate WritesDetail(w: World, step: Step, mail: int) {
    Calls(w, step) && StageAt(w, step).SetDetail? && LeaseAt(w, step).mail == mail
  }

  predicate Advances(w: World, step: Step, mail: int) {
    Calls(w, step) && StageAt(w, step).Raise? && LeaseAt(w, step).mail == mail
  }

  predicate Sends(w: World, step: Step, event: int) {
    Calls(w, step) && StageAt(w, step).Notify? && LeaseAt(w, step).event == event
  }

  lemma {:induction false} DetailedByStep(c: Config, worlds: seq<World>, steps: seq<Step>, i: nat, mail: int)
    requires IsRun(c, worlds, steps) && i < |worlds|
    ensures mail in worlds[i].detailed <==> exists j :: 0 <= j < i && WritesDetail(worlds[j], steps[j], mail)
  {
    if i > 0 {
      DetailedByStep(c, worlds, steps, i - 1, mail);
      assert StepAt(c, worlds, steps, i - 1);
      assert mail in worlds[i].detailed <==>
             mail in worlds[i - 1].detailed || WritesDetail(worlds[i - 1], steps[i - 1], mail);
    }
  }

  lemma {:induction false} AdvancedByStep(c: Config, worlds: seq<World>, steps: seq<Step>, i: nat, mail: int)
    requires IsRun(c, worlds, steps) && i < |worlds|
    ensures mail in worlds[i].advanced <==> exists j :: 0 <= j < i && Advances(worlds[j], steps[j], mail)
  {
    if i > 0 {
      AdvancedByStep(c, worlds, steps, i - 1, mail);
      assert StepAt(c, worlds, steps, i - 1);
      assert mail in worlds[i].advanced <==>
             mail in worlds[i - 1].advanced || Advances(worlds[i - 1], steps[i - 1], mail);
    }
  }

  lemma {:induction false} NotifiedByStep(c: Config, worlds: seq<World>, steps: seq<Step>, i: nat, event: int)
    requires IsRun(c, worlds, steps) && i < |worlds|
    ensures event in worlds[i].notified <==> exists j :: 0 <= j < i && Sends(worlds[j], steps[j], event)
  {
    if i > 0 {
      NotifiedByStep(c, worlds, steps, i - 1, event);
      assert StepAt(c, worlds, steps, i - 1);
      assert event in worlds[i].notified <==>
             event in worlds[i - 1].notified || Sends(worlds[i - 1], steps[i - 1], event);
    }
  }

  /** Whatever failed, crashed or was marked late: a row marked sent has had its mail's detail written, its mail is
  indexed under its expiry, the Redis version has caught up with it, and its event went to Kafka. */
  lemma SentMeansProjected(c: Config, worlds: seq<World>, steps: seq<Step>, i: nat, event: int)
    requires IsRun(c, worlds, steps) && i < |worlds|
    requires event in worlds[i].db.outbox && worlds[i].db.outbox[event].status.Sent?
    ensures var w, e := worlds[i], worlds[i].db.outbox[event];
            && e.mail in w.db.mails && e.mail in w.redis.index
            && w.redis.index[e.mail] == Unix(w.db.mails[e.mail].expireTime)
            && w.redis.version >= e.version == w.db.mails[e.mail].version
            && (exists j :: 0 <= j < i && WritesDetail(worlds[j], steps[j], e.mail))
            && (exists j :: 0 <= j < i && Advances(worlds[j], steps[j], e.mail))
            && (exists j :: 0 <= j < i && Sends(worlds[j], steps[j], event))
  {
    RunKeepsInv(c, worlds, steps, i);
    assert Delivered(worlds[i], event);
    DetailedByStep(c, worlds, steps, i, worlds[i].db.outbox[event].mail);
    AdvancedByStep(c, worlds, steps, i, worlds[i].db.outbox[event].mail);
    NotifiedByStep(c, worlds, steps, i, event);
  }

  // ---------- snapshots ----------

  /** Task `id` read the version at step k. */
  predicate Asks(w: World, step: Step, id: nat) {
    step == Refresh(id, AskVersion) && RefreshEnabled(w, id, AskVersion)
  }

  predicate Swaps(w: World, step: Step, id: nat) {
    step == Refresh(id, Swap) && RefreshEnabled(w, id, Swap)
  }

  /** Since the world `asked` in which it read the version, a refresh has kept what it read, and fixed its time
  later. */
  predicate Recalls(asked: World, w: World, id: nat) {
    && id in w.tasks && id in asked.tasks && w.tasks[id].cache == asked.tasks[id].cache
    && w.tasks[id].kind == asked.tasks[id].kind
    && var t := w.tasks[id];
       && t.must == asked.advanced && !t.pc.Asking? && asked.clock <= w.clock
       && (t.pc.Queued? || HoldsLock(t) ==> t.pc.version == asked.redis.version)
       && (HoldsLock(t) ==> asked.clock <= t.pc.now <= w.clock)
  }

  /** How the mutex is taken and what its holder keeps. */
  lemma TaskMoves(w: World, t: Task, act: RefreshAct)
    requires !act.Open? && TaskEnabled(w, t, act)
    ensures var t' := TaskAfter(w, t, act);
            && t'.cache == t.cache && t'.kind == t.kind && !t'.pc.Asking? && (!act.AskVersion? ==> t'.must == t.must)
            && (HoldsLock(t') && HoldsLock(t) ==> t'.pc.version == t.pc.version && t'.pc.now == t.pc.now)
            && (HoldsLock(t') && !HoldsLock(t) ==> act.Lock? && t'.pc == Listing(t.pc.version, w.clock)
                                                   && !Fresh(w, t, t.pc.version))
            && (t'.pc.Queued? ==> act.AskVersion?)
            && (act.Swap? ==> HoldsLock(t) && !HoldsLock(t'))
  {
    match act
    case AskVersion =>
    case Lock =>
    case List =>
    case GetDetail(_) =>
    case Relist =>
    case LoadAll =>
    case Refill(_, _) =>
    case Swap =>
    case Fail =>
  }

  lemma StepRecalls(c: Config, asked: World, w: World, step: Step, id: nat)
    requires Recalls(asked, w, id) && Enabled(w, step)
    ensures Recalls(asked, Apply(c, w, step), id)
  {
    match step
    case Tick(_) =>
    case DetailExpires(_) =>
    case Publish(_, _) =>
    case Relaying(_, _) =>
    case Refresh(t, act) =>
      if t == id {
        TaskMoves(w, w.tasks[id], act);
      }
  }

  lemma {:induction false} RunRecalls(c: Config, worlds: seq<World>, steps: seq<Step>, k: nat, i: nat, id: nat)
    requires IsRun(c, worlds, steps) && k < i < |worlds| && Asks(worlds[k], steps[k], id)
    ensures Recalls(worlds[k], worlds[i], id)
  {
    assert StepAt(c, worlds, steps, i - 1);
    if k < i - 1 {
      RunRecalls(c, worlds, steps, k, i - 1, id);
      StepRecalls(c, worlds[k], worlds[i - 1], steps[i - 1], id);
    }
  }

  /** A refresh that reads the version after a mail's advance step, and gets as far as swapping, stores a snapshot
  holding the mail if it is started and unexpired at the refresh's own time, by whichever path it loads. */
  lemma SnapshotCoversAdvanced(c: Config, worlds: seq<World>, steps: seq<Step>,
                               j: nat, k: nat, i: nat, id: nat, mail: int)
    requires IsRun(c, worlds, steps) && j < k < i < |steps|
    requires Advances(worlds[j], steps[j], mail) && Asks(worlds[k], steps[k], id) && Swaps(worlds[i], steps[i], id)
    ensures var now, cache := worlds[i].tasks[id].pc.now, worlds[i].tasks[id].cache;
            && worlds[k].clock <= now <= worlds[i].clock
            && mail in worlds[i].db.mails && cache in worlds[i + 1].caches
            && worlds[i + 1].caches[cache].version == worlds[k].redis.version
            && (InWindow(worlds[i].db.mails[mail], now) ==> mail in worlds[i + 1].caches[cache].mails)
  {
    AdvancedByStep(c, worlds, steps, k, mail);
    RunRecalls(c, worlds, steps, k, i, id);
    RunKeepsInv(c, worlds, steps, i);
    assert TaskOk(worlds[i], worlds[i].tasks[id]);
    assert StepAt(c, worlds, steps, i);
  }

  /** Every mail in any snapshot is the MySQL row, then and ever after. */
  lemma SnapshotsAreFaithful(c: Config, worlds: seq<World>, steps: seq<Step>, i: nat, cache: nat)
    requires IsRun(c, worlds, steps) && i < |worlds| && cache in worlds[i].caches
    ensures Faithful(worlds[i].caches[cache].mails, worlds[i].db.mails)
  {
    RunKeepsInv(c, worlds, steps, i);
  }

  // ---------- versions ----------

  /** A refresh for staleness that holds the mutex still is newer than the snapshot. */
  predicate NewerOk(w: World, t: Task) {
    HoldsLock(t) && t.kind.IfStale? ==> SnapshotOf(w, t.cache).version < t.pc.version
  }

  predicate Collide(s: Task, t: Task) {
    HoldsLock(s) && HoldsLock(t) && s.cache == t.cache
  }

  ghost predicate LocksOk(w: World) {
    && (forall s, t :: s in w.tasks && t in w.tasks && s != t ==> !Collide(w.tasks[s], w.tasks[t]))
    && (forall t :: t in w.tasks ==> NewerOk(w, w.tasks[t]))
  }

  lemma RefreshKeepsLocks(w: World, id: nat, act: RefreshAct)
    requires LocksOk(w) && RefreshEnabled(w, id, act) && !act.Open?
    ensures LocksOk(RefreshStep(w, id, act))
  {
    var w' := RefreshStep(w, id, act);
    var t := w.tasks[id];
    TaskMoves(w, t, act);
    assert w'.tasks == w.tasks[id := TaskAfter(w, t, act)];
    forall s | s in w'.tasks && s != id
      ensures !Collide(w'.tasks[s], w'.tasks[id]) && !Collide(w'.tasks[id], w'.tasks[s]) && NewerOk(w', w'.tasks[s])
    {
      assert !Collide(w.tasks[s], t) && NewerOk(w, w.tasks[s]);
    }
    assert NewerOk(w, t);
  }

  lemma StepKeepsLocks(c: Config, w: World, step: Step)
    requires LocksOk(w) && Enabled(w, step)
    ensures LocksOk(Apply(c, w, step))
  {
    var w' := Apply(c, w, step);
    if step.Refresh? && !step.refreshAct.Open? {
      RefreshKeepsLocks(w, step.id, step.refreshAct);
    } else {
      forall t | t in w'.tasks
        ensures NewerOk(w', w'.tasks[t])
      {
        if t in w.tasks {
          assert NewerOk(w, w.tasks[t]);
        }
      }
    }
  }

  lemma {:induction false} RunKeepsLocks(c: Config, worlds: seq<World>, steps: seq<Step>, i: nat)
    requires IsRun(c, worlds, steps) && i < |worlds|
    ensures LocksOk(worlds[i])
  {
    if i > 0 {
      RunKeepsLocks(c, worlds, steps, i - 1);
      assert StepAt(c, worlds, steps, i - 1);
      StepKeepsLocks(c, worlds[i - 1], steps[i - 1]);
    }
  }

  /** Only a forced refresh can lower, or keep, a cache's version when it swaps. */
  lemma StaleRefreshRaisesVersion(c: Config, worlds: seq<World>, steps: seq<Step>, i: nat, cache: nat)
    requires IsRun(c, worlds, steps) && i < |steps|
    requires steps[i].Refresh? && steps[i].id in worlds[i].tasks ==> worlds[i].tasks[steps[i].id].kind.IfStale?
    ensures SnapshotOf(worlds[i], cache).version <= SnapshotOf(worlds[i + 1], cache).version
    ensures SnapshotOf(worlds[i], cache) != SnapshotOf(worlds[i + 1], cache) ==>
              SnapshotOf(worlds[i], cache).version < SnapshotOf(worlds[i + 1], cache).version
  {
    RunKeepsLocks(c, worlds, steps, i);
    assert StepAt(c, worlds, steps, i);
  }

  /** A swap stores the version its refresh read. */
  lemma SwapStoresVersionRead(c: Config, worlds: seq<World>, steps: seq<Step>, k: nat, i: nat, id: nat)
    requires IsRun(c, worlds, steps) && k < i < |steps| && Asks(worlds[k], steps[k], id) && Swaps(worlds[i], steps[i], id)
    ensures SnapshotOf(worlds[i + 1], worlds[i].tasks[id].cache).version == worlds[k].redis.version
    ensures worlds[i].tasks[id].pc.version == worlds[k].redis.version
  {
    RunRecalls(c, worlds, steps, k, i, id);
    assert StepAt(c, worlds, steps, i);
  }

  /** No snapshot and no refresh is ahead of Redis. */
  ghost predicate VersionsOk(w: World) {
    && 0 <= w.redis.version
    && (forall k :: k in w.caches ==> w.caches[k].version <= w.redis.version)
    && (forall t :: t in w.tasks && (w.tasks[t].pc.Queued? || HoldsLock(w.tasks[t])) ==>
                      w.tasks[t].pc.version <= w.redis.version)
  }

  lemma RefreshKeepsVersions(w: World, id: nat, act: RefreshAct)
    requires VersionsOk(w) && RefreshEnabled(w, id, act) && !act.Open?
    ensures VersionsOk(RefreshStep(w, id, act))
  {
    TaskMoves(w, w.tasks[id], act);
    assert RefreshStep(w, id, act).redis.version == w.redis.version;
    assert RefreshStep(w, id, act).tasks == w.tasks[id := TaskAfter(w, w.tasks[id], act)];
  }

  lemma StepKeepsVersions(c: Config, w: World, step: Step)
    requires VersionsOk(w) && Enabled(w, step)
    ensures VersionsOk(Apply(c, w, step))
  {
    if step.Refresh? && !step.refreshAct.Open? {
      RefreshKeepsVersions(w, step.id, step.refreshAct);
    } else {
      StepAccumulates(c, w, step);
    }
  }

  lemma {:induction false} RunKeepsVersions(c: Config, worlds: seq<World>, steps: seq<Step>, i: nat)
    requires IsRun(c, worlds, steps) && i < |worlds|
    ensures VersionsOk(worlds[i])
  {
    if i > 0 {
      RunKeepsVersions(c, worlds, steps, i - 1);
      assert StepAt(c, worlds, steps, i - 1);
      StepKeepsVersions(c, worlds[i - 1], steps[i - 1]);
    }
  }

  /** The step swaps a snapshot into the cache. */
  predicate SwapsInto(w: World, step: Step, cache: nat) {
    step.Refresh? && Swaps(w, step, step.id) && w.tasks[step.id].cache == cache
  }

  /** The last of the steps from `k` to `i` that swaps into the cache, if there is one. */
  function LastSwap(worlds: seq<World>, steps: seq<Step>, k: nat, i: nat, cache: nat): Option<nat>
    requires |worlds| == |steps| + 1 && k <= i <= |steps|
    decreases i
  {
    if i == k then None
    else if SwapsInto(worlds[i - 1], steps[i - 1], cache) then Some(i - 1)
    else LastSwap(worlds, steps, k, i - 1, cache)
  }

  /** What a cache holds is what the last swap put there, or what it held before. */
  lemma {:induction false} SnapshotIsLastSwap(c: Config, worlds: seq<World>, steps: seq<Step>, k: nat, i: nat, cache: nat)
    requires IsRun(c, worlds, steps) && k <= i < |worlds|
    ensures match LastSwap(worlds, steps, k, i, cache)
            case None => SnapshotOf(worlds[i], cache) == SnapshotOf(worlds[k], cache)
            case Some(m) =>
              k <= m < i && SwapsInto(worlds[m], steps[m], cache)
              && SnapshotOf(worlds[i], cache).version == worlds[m].tasks[steps[m].id].pc.version
    decreases i
  {
    if k < i {
      SnapshotIsLastSwap(c, worlds, steps, k, i - 1, cache);
      assert StepAt(c, worlds, steps, i - 1);
    }
  }

  /** A swap, of a forced refresh or not, lowers the version exactly if since the refresh read its version another swap
  went into the cache, and the last of these stored a version above the one read. */
  lemma SwapLowersIff(c: Config, worlds: seq<World>, steps: seq<Step>, k: nat, i: nat, id: nat)
    requires IsRun(c, worlds, steps) && k < i < |steps| && Asks(worlds[k], steps[k], id) && Swaps(worlds[i], steps[i], id)
    ensures var cache := worlds[i].tasks[id].cache;
            var last := LastSwap(worlds, steps, k, i, cache);
            SnapshotOf(worlds[i + 1], cache).version < SnapshotOf(worlds[i], cache).version <==>
            last.Some? && last.value < i && SwapsInto(worlds[last.value], steps[last.value], cache)
            && worlds[last.value].tasks[steps[last.value].id].pc.version > worlds[k].redis.version
  {
    var cache := worlds[i].tasks[id].cache;
    SwapStoresVersionRead(c, worlds, steps, k, i, id);
    SnapshotIsLastSwap(c, worlds, steps, k, i, cache);
    RunKeepsVersions(c, worlds, steps, k);
  }

  /** So no refresh, forced or not, lowers the version of a cache that was not swapped between its ask and its swap. */
  lemma UndisturbedRefreshNeverLowers(c: Config, worlds: seq<World>, steps: seq<Step>, k: nat, i: nat, id: nat)
    requires IsRun(c, worlds, steps) && k < i < |steps| && Asks(worlds[k], steps[k], id) && Swaps(worlds[i], steps[i], id)
    requires forall m :: k <= m < i ==> !SwapsInto(worlds[m], steps[m], worlds[i].tasks[id].cache)
    ensures var cache := worlds[i].tasks[id].cache;
            SnapshotOf(worlds[i], cache).version <= SnapshotOf(worlds[i + 1], cache).version
  {
    SwapLowersIff(c, worlds, steps, k, i, id);
    SnapshotIsLastSwap(c, worlds, steps, k, i, worlds[i].tasks[id].cache);
  }
}
