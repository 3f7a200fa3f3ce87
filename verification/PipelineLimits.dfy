/** Two things the pipeline does not promise, each shown by a run. */
module PipelineLimits {
  import opened Options
  import opened GlobalMail
  import opened Subsequences
  import opened MailPipeline

  const SAMPLE := Mail(7, "title", "content", "", 1, 2, Draft, 0, [], 0, 0)
  const MAIL := SAMPLE.(status := Published, version := 1)

  /** One published mail, its event pending. */
  lemma PublishOne(c: Config) returns (worlds: seq<World>, steps: seq<Step>)
    ensures IsRun(c, worlds, steps)
    ensures var w := Last(worlds);
            && w.db.mails == map[7 := MAIL] && w.db.outbox == map[9 := NewEvent(MAIL)]
            && w == INIT.(db := w.db, publishers := w.publishers)
  {
    worlds, steps := [INIT], [];
    worlds, steps := Extend(c, worlds, steps, Publish(0, Submit("", Command(SAMPLE, [], "publish"))));
    worlds, steps := Extend(c, worlds, steps, Publish(0, Check(false, 7, 9)));
    assert Last(worlds).publishers[0] == Creating("", Command(SAMPLE, [], "publish"), MAIL, 9);
    worlds, steps := Extend(c, worlds, steps, Publish(0, Create(Fine)));
    assert Stored(MAIL) == MAIL;
  }

  lemma FetchStep(c: Config, w: World, r: nat, until: int)
    requires r in w.relays && w.relays[r] == Fetching(until) && 9 in w.db.outbox && Eligible(w.db.outbox[9], w.clock)
    ensures Enabled(w, Relaying(r, Fetch([9], Fine)))
    ensures var w' := Apply(c, w, Relaying(r, Fetch([9], Fine)));
            && w'.relays == w.relays[r := Working([LeaseOf(w.db.outbox, 9, until)], Decode)]
            && w'.db.mails == w.db.mails && w'.db.outbox == w.db.outbox[9 := Locked(w.db.outbox[9], until)]
            && w'.redis == w.redis && w'.clock == w.clock && w'.tasks == w.tasks && w'.caches == w.caches
  {
    assert Leases(w.db.outbox, [9], until) == [LeaseOf(w.db.outbox, 9, until)];
    assert LockAll(w.db.outbox, [9], until) == w.db.outbox[9 := Locked(w.db.outbox[9], until)];
  }

  /** Relay r leases event 9. */
  lemma LeaseOne(c: Config, worlds: seq<World>, steps: seq<Step>, r: nat)
      returns (worlds': seq<World>, steps': seq<Step>)
    requires IsRun(c, worlds, steps)
    requires var w := Last(worlds);
             && r !in w.relays && 9 in w.db.outbox && Eligible(w.db.outbox[9], w.clock)
             && w.db.outbox[9].mail == 7 && w.db.outbox[9].version == 1
    ensures IsRun(c, worlds', steps') && worlds <= worlds'
    ensures var w, w' := Last(worlds), Last(worlds');
            && r in w'.relays && w'.relays[r].Working? && w'.relays[r].stage == Decode
            && w'.relays == w.relays[r := w'.relays[r]] && |w'.relays[r].todo| == 1
            && w'.relays[r].todo[0] == LeaseOf(w.db.outbox, 9, w.clock + c.lockTtl)
            && w'.db.mails == w.db.mails
            && w'.db.outbox == w.db.outbox[9 := Locked(w.db.outbox[9], w.clock + c.lockTtl)]
            && w'.redis == w.redis && w'.clock == w.clock && w'.tasks == w.tasks && w'.caches == w.caches
  {
    var w := Last(worlds);
    worlds', steps' := Extend(c, worlds, steps, Relaying(r, Start));
    assert Last(worlds') == w.(relays := w.relays[r := Fetching(w.clock + c.lockTtl)]);
    FetchStep(c, Last(worlds'), r, w.clock + c.lockTtl);
    worlds', steps' := Extend(c, worlds', steps', Relaying(r, Fetch([9], Fine)));
  }

  /** Relay r has event 9 in hand and comes to a stage. */
  predicate Holds(w: World, r: nat, stage: Stage) {
    && r in w.relays && w.relays[r].Working? && w.relays[r].stage == stage && |w.relays[r].todo| == 1
    && w.relays[r].todo[0].event == 9 && w.relays[r].todo[0].mail == 7 && w.relays[r].todo[0].version == 1
    && 9 in w.db.outbox && 7 in w.db.mails && w.db.mails[7] == MAIL
  }

  /** Only relay r and Redis have moved. */
  predicate OnlyRelay(w: World, w': World, r: nat) {
    && r in w.relays && r in w'.relays && w'.relays == w.relays[r := w'.relays[r]]
    && w.relays[r].Working? && w'.relays[r].Working? && w'.relays[r].todo == w.relays[r].todo
    && w'.db == w.db && w'.clock == w.clock && w'.tasks == w.tasks && w'.caches == w.caches
  }

  /** Relay r loads the mail and writes its detail and index. */
  lemma Store(c: Config, worlds: seq<World>, steps: seq<Step>, r: nat)
      returns (worlds': seq<World>, steps': seq<Step>)
    requires IsRun(c, worlds, steps) && Holds(Last(worlds), r, Decode)
    ensures IsRun(c, worlds', steps') && worlds <= worlds' && Holds(Last(worlds'), r, Raise)
    ensures var w, w' := Last(worlds), Last(worlds');
            && OnlyRelay(w, w', r)
            && w'.redis == Redis(w.redis.details[7 := MAIL], w.redis.index[7 := Unix(2)], w.redis.version)
  {
    var todo := Last(worlds).relays[r].todo;
    worlds', steps' := Extend(c, worlds, steps, Relaying(r, Do(Fine)));
    assert Last(worlds').relays[r] == Working(todo, Load);
    worlds', steps' := Extend(c, worlds', steps', Relaying(r, Do(Fine)));
    assert Last(worlds').relays[r] == Working(todo, SetDetail(MAIL));
    worlds', steps' := Extend(c, worlds', steps', Relaying(r, Do(Fine)));
    assert Last(worlds').relays[r] == Working(todo, SetIndex(MAIL));
    worlds', steps' := Extend(c, worlds', steps', Relaying(r, Do(Fine)));
  }

  /** Relay r takes event 9 from Decode to the mark. */
  lemma Deliver(c: Config, worlds: seq<World>, steps: seq<Step>, r: nat)
      returns (worlds': seq<World>, steps': seq<Step>)
    requires IsRun(c, worlds, steps) && Holds(Last(worlds), r, Decode)
    ensures IsRun(c, worlds', steps') && worlds <= worlds' && Holds(Last(worlds'), r, MarkSent)
    ensures var w, w' := Last(worlds), Last(worlds');
            && OnlyRelay(w, w', r)
            && w'.redis == Redis(w.redis.details[7 := MAIL], w.redis.index[7 := Unix(2)], Raised(w.redis.version, 1))
  {
    worlds', steps' := Store(c, worlds, steps, r);
    worlds', steps' := Extend(c, worlds', steps', Relaying(r, Do(Fine)));
    worlds', steps' := Extend(c, worlds', steps', Relaying(r, Do(Fine)));
  }

  /** Relay 0 leases the event and stalls past its lock; relay 1 leases it and marks it sent. */
  lemma Overtaken(c: Config) returns (worlds: seq<World>, steps: seq<Step>)
    requires c.lockTtl >= 0
    ensures IsRun(c, worlds, steps)
    ensures var w := Last(worlds);
            && 9 in w.db.outbox && w.db.outbox[9].status.Sent? && w.db.outbox[9].retryCount == 0
            && 0 in w.relays && w.relays[0].Working? && w.relays[0].stage == Decode
            && |w.relays[0].todo| == 1 && w.relays[0].todo[0].event == 9
  {
    worlds, steps := PublishOne(c);
    worlds, steps := LeaseOne(c, worlds, steps, 0);
    worlds, steps := Extend(c, worlds, steps, Tick(c.lockTtl));
    worlds, steps := LeaseOne(c, worlds, steps, 1);
    worlds, steps := Deliver(c, worlds, steps, 1);
    worlds, steps := Extend(c, worlds, steps, Relaying(1, Do(Fine)));
  }

  /** The marks check neither owner nor status: a relay that marks after its lock expired puts a sent row back to
  pending, to be delivered again. */
  lemma LateMarkReopensSentRow(c: Config) returns (worlds: seq<World>, steps: seq<Step>, i: nat)
    requires c.lockTtl >= 0 && c.maxRetries > 1
    ensures IsRun(c, worlds, steps) && i < |worlds|
    ensures 9 in worlds[i].db.outbox && worlds[i].db.outbox[9].status.Sent?
    ensures 9 in Last(worlds).db.outbox && Last(worlds).db.outbox[9].status.Pending?
  {
    worlds, steps := Overtaken(c);
    i := |worlds| - 1;
    worlds, steps := Extend(c, worlds, steps, Relaying(0, StageFails));
    worlds, steps := Extend(c, worlds, steps, Relaying(0, Do(Fine)));
    worlds, steps := Extend(c, worlds, steps, Relaying(0, Do(Fine)));
  }

  /** Task `t` of cache 0 moves to `pc`, and nothing else changes. */
  function Moved(w: World, t: nat, pc: TaskPc): World
    requires t in w.tasks
  {
    w.(tasks := w.tasks[t := w.tasks[t].(pc := pc)])
  }

  lemma MovedTwice(w: World, t: nat, a: TaskPc, b: TaskPc)
    requires t in w.tasks
    ensures Moved(Moved(w, t, a), t, b) == Moved(w, t, b)
  {
  }

  lemma ListStep(c: Config, w: World, t: nat, version: int)
    requires t in w.tasks && w.tasks[t].pc == Listing(version, 0) && w.redis.index == map[7 := 0]
    ensures Enabled(w, Refresh(t, List))
    ensures Apply(c, w, Refresh(t, List)) == Moved(w, t, Getting(version, 0, {7}, map[]))
  {
    assert ActiveIds(map[7 := 0], 0) == {7};
  }

  lemma GetStep(c: Config, w: World, t: nat, version: int)
    requires t in w.tasks && w.tasks[t].pc == Getting(version, 0, {7}, map[]) && w.redis.details == map[7 := MAIL]
    ensures Enabled(w, Refresh(t, GetDetail(7)))
    ensures Apply(c, w, Refresh(t, GetDetail(7))) == Moved(w, t, Getting(version, 0, {}, map[7 := MAIL]))
  {
    assert {7} - {7} == {};
  }

  /** Task `t` takes the mutex and loads the one mail from Redis. */
  lemma LoadOne(c: Config, worlds: seq<World>, steps: seq<Step>, t: nat)
      returns (worlds': seq<World>, steps': seq<Step>)
    requires IsRun(c, worlds, steps)
    requires var w := Last(worlds);
             && t in w.tasks && w.tasks[t].cache == 0 && w.tasks[t].pc.Queued? && Unlocked(w, 0)
             && !Fresh(w, w.tasks[t], w.tasks[t].pc.version)
             && w.clock == 0 && w.redis.index == map[7 := 0] && w.redis.details == map[7 := MAIL]
    ensures IsRun(c, worlds', steps') && worlds <= worlds'
    ensures var w := Last(worlds); Last(worlds') == Moved(w, t, Getting(w.tasks[t].pc.version, 0, {}, map[7 := MAIL]))
  {
    var w := Last(worlds);
    var version := w.tasks[t].pc.version;
    worlds', steps' := Extend(c, worlds, steps, Refresh(t, Lock));
    assert Last(worlds') == Moved(w, t, Listing(version, 0));
    ListStep(c, Last(worlds'), t, version);
    worlds', steps' := Extend(c, worlds', steps', Refresh(t, List));
    MovedTwice(w, t, Listing(version, 0), Getting(version, 0, {7}, map[]));
    GetStep(c, Last(worlds'), t, version);
    worlds', steps' := Extend(c, worlds', steps', Refresh(t, GetDetail(7)));
    MovedTwice(w, t, Getting(version, 0, {7}, map[]), Getting(version, 0, {}, map[7 := MAIL]));
  }

  /** And swaps. */
  lemma Reload(c: Config, worlds: seq<World>, steps: seq<Step>, t: nat)
      returns (worlds': seq<World>, steps': seq<Step>)
    requires IsRun(c, worlds, steps)
    requires var w := Last(worlds);
             && t in w.tasks && w.tasks[t].cache == 0 && w.tasks[t].pc.Queued? && Unlocked(w, 0)
             && !Fresh(w, w.tasks[t], w.tasks[t].pc.version)
             && w.clock == 0 && w.redis.index == map[7 := 0] && w.redis.details == map[7 := MAIL]
    ensures IsRun(c, worlds', steps') && worlds <= worlds'
    ensures var w, w' := Last(worlds), Last(worlds');
            && w'.tasks == w.tasks[t := w.tasks[t].(pc := Over)] && w'.redis == w.redis && w'.clock == w.clock
            && w'.caches == w.caches[0 := Snapshot(w.tasks[t].pc.version, map[7 := MAIL])]
  {
    worlds', steps' := LoadOne(c, worlds, steps, t);
    worlds', steps' := Extend(c, worlds', steps', Refresh(t, Swap));
  }

  /** A forced refresh has read version 0; then the relay raises the version to 1. */
  lemma AskThenRaise(c: Config) returns (worlds: seq<World>, steps: seq<Step>)
    ensures IsRun(c, worlds, steps)
    ensures var w := Last(worlds);
            && w.tasks.Keys == {0} && w.tasks[0].cache == 0 && w.tasks[0].kind == Force && w.tasks[0].pc == Queued(0)
            && w.caches == map[] && w.clock == 0 && w.redis == Redis(map[7 := MAIL], map[7 := 0], 1)
  {
    worlds, steps := PublishOne(c);
    worlds, steps := LeaseOne(c, worlds, steps, 0);
    worlds, steps := Extend(c, worlds, steps, Refresh(0, Open(0, Force)));
    worlds, steps := Extend(c, worlds, steps, Refresh(0, AskVersion));
    worlds, steps := Deliver(c, worlds, steps, 0);
  }

  /** A forced refresh that read the version before an advance, and takes the mutex after another refresh has
  stored the new version, stores the old one. */
  lemma ForcedRefreshLowersVersion(c: Config) returns (worlds: seq<World>, steps: seq<Step>, i: nat)
    ensures IsRun(c, worlds, steps) && i < |worlds|
    ensures SnapshotOf(worlds[i], 0).version > SnapshotOf(Last(worlds), 0).version
  {
    worlds, steps := AskThenRaise(c);
    worlds, steps := Extend(c, worlds, steps, Refresh(1, Open(0, IfStale)));
    worlds, steps := Extend(c, worlds, steps, Refresh(1, AskVersion));
    worlds, steps := Reload(c, worlds, steps, 1);
    i := |worlds| - 1;
    worlds, steps := Reload(c, worlds, steps, 0);
  }
}
