/** The local cache of a player server as code: refreshing from Redis or MySQL and swapping the snapshot.

The object carries the run of the pipeline that explains its tables and its snapshot; every repository call is one
step of the refresh. A call may fail with or without having taken effect, unless `reliable` is set. */
module LocalCaches {
  import opened Options
  import opened GlobalMail
  import opened MailPipeline
  import opened Subsequences
  import opened MailVisibility
  import Choice
  import PublishSafety
  import ProjectionSafety

  /** The list holds the mails of the map, each once. */
  ghost predicate Enumerates(list: seq<Mail>, held: map<int, Mail>) {
    && MailVisibility.DistinctIds(list)
    && (forall i :: 0 <= i < |list| ==> list[i].id in held && held[list[i].id] == list[i])
    && (forall id :: id in held ==> HasId(list, id))
  }

  lemma EnumerateOneMore(list: seq<Mail>, held: map<int, Mail>, mail: Mail)
    requires Enumerates(list, held) && mail.id !in held
    ensures Enumerates(list + [mail], held[mail.id := mail])
  {
    var more := list + [mail];
    forall id | id in held[mail.id := mail]
      ensures HasId(more, id)
    {
      if id == mail.id {
        assert more[|list|].id == id;
      } else {
        var i :| 0 <= i < |list| && list[i].id == id;
        assert more[i].id == id;
      }
    }
  }

  /** The rows of a query as a list. */
  method Rows(held: map<int, Mail>) returns (list: seq<Mail>)
    requires forall id :: id in held ==> held[id].id == id
    ensures Enumerates(list, held)
  {
    list := [];
    ghost var done: map<int, Mail> := map[];
    var rest := held.Keys;
    while rest != {}
      invariant rest <= held.Keys
      invariant forall id :: id in done <==> id in held && id !in rest
      invariant forall id :: id in done ==> done[id] == held[id]
      invariant Enumerates(list, done)
      decreases rest
    {
      var id := Choice.Any(rest);
      EnumerateOneMore(list, done, held[id]);
      list, done, rest := list + [held[id]], done[id := held[id]], rest - {id};
    }
    assert rest == {};
    assert forall id :: id in held ==> id in done;
  }

  /** A snapshot built from the list holds the map. */
  lemma BuiltHolds(snapshot: CacheSnapshot, list: seq<Mail>, held: map<int, Mail>)
    requires Built(snapshot, list) && Enumerates(list, held)
    ensures snapshot.mailsById == held
  {
    forall id | id in held
      ensures id in snapshot.mailsById && snapshot.mailsById[id] == held[id]
    {
      var i :| 0 <= i < |list| && list[i].id == id;
      assert IsLast(list, i);
    }
    forall id | id in snapshot.mailsById
      ensures id in held
    {
      assert HasId(list, id);
    }
  }

  function IdsFrom(list: seq<Mail>, i: nat): set<int>
    requires i <= |list|
  {
    set k | i <= k < |list| :: list[k].id
  }

  lemma AllIds(list: seq<Mail>, held: map<int, Mail>)
    requires Enumerates(list, held)
    ensures IdsFrom(list, 0) == held.Keys
  {
    forall id | id in held
      ensures id in IdsFrom(list, 0)
    {
      assert HasId(list, id);
    }
  }

  lemma IdsAfter(list: seq<Mail>, i: nat)
    requires MailVisibility.DistinctIds(list) && i < |list|
    ensures list[i].id in IdsFrom(list, i) && IdsFrom(list, i + 1) == IdsFrom(list, i) - {list[i].id}
  {
  }

  datatype Outcome = Got | Missed | Erred

  const EMPTY := CacheSnapshot(0, 0, map[], [], map[], map[], 0)

  class LocalCache {
    const c: Config
    const cache: nat
    const reliable: bool
    var mails: map<int, Mail>
    var redis: Redis
    var clock: int
    var snapshot: CacheSnapshot
    ghost var list: seq<Mail>
    ghost var worlds: seq<World>
    ghost var steps: seq<Step>

    ghost predicate Shows(w: World)
      reads this
    {
      && w.db.mails == mails && w.redis == redis && w.clock == clock
      && SnapshotOf(w, cache) == Snapshot(snapshot.version, snapshot.mailsById)
    }

    /** The run explains the tables. */
    ghost predicate Explained()
      reads this
    {
      IsRun(c, worlds, steps) && Shows(Now())
    }

    /** The snapshot's indexes fit its mails. */
    ghost predicate Indexed()
      reads this`snapshot, this`list
    {
      Built(snapshot, list) && Enumerates(list, snapshot.mailsById)
    }

    ghost predicate Valid()
      reads this
    {
      Explained() && Indexed()
    }

    ghost function Now(): World
      reads this
      requires worlds != []
    {
      Last(worlds)
    }

    /** The refresh `t` of this cache stands at `pc`, having read the version when `must` had been advanced. */
    ghost predicate At(t: nat, must: set<int>, pc: TaskPc)
      reads this
    {
      && worlds != [] && t in Now().tasks && Now().tasks[t].cache == cache
      && Now().tasks[t].must == must && Now().tasks[t].pc == pc
    }

    /** Start with an empty snapshot in any state the pipeline can reach without this cache. */
    constructor (c: Config, cache: nat, reliable: bool, mails: map<int, Mail>, redis: Redis, clock: int,
                 ghost worlds: seq<World>, ghost steps: seq<Step>)
      requires IsRun(c, worlds, steps)
      requires var w := worlds[|steps|]; w.db.mails == mails && w.redis == redis && w.clock == clock && cache !in w.caches
      ensures Valid() && this.c == c && this.cache == cache && this.reliable == reliable
      ensures snapshot == EMPTY && this.worlds == worlds && this.steps == steps
    {
      this.c, this.cache, this.reliable := c, cache, reliable;
      this.mails, this.redis, this.clock, this.snapshot := mails, redis, clock, EMPTY;
      this.list, this.worlds, this.steps := [], worlds, steps;
    }

    ghost method Record(step: Step)
      requires IsRun(c, worlds, steps) && Enabled(Now(), step) && Shows(Apply(c, Now(), step))
      modifies this`worlds, this`steps
      ensures Explained() && worlds == old(worlds) + [Apply(c, old(Now()), step)]
    {
      worlds, steps := Extend(c, worlds, steps, step);
    }

    method Call() returns (fault: Fault)
      ensures reliable ==> fault.Fine?
    {
      fault := *;
      if reliable {
        fault := Fine;
      }
    }

    /** Details and rows are keyed by their own IDs, and a refresh holds what MySQL holds. */
    ghost method Know(t: nat)
      requires Explained() && t in Now().tasks
      ensures forall id :: id in redis.details ==> id in mails && redis.details[id] == mails[id]
      ensures forall id :: id in mails ==> mails[id].id == id
      ensures ProjectionSafety.TaskOk(Now(), Now().tasks[t])
    {
      ProjectionSafety.RunKeepsInv(c, worlds, steps, |steps|);
    }

    // ---------- loading ----------

    /** Get one detail, or None when Redis has it no more. */
    method GetDetail(t: nat, id: int, ghost pc: TaskPc, ghost must: set<int>) returns (mail: Option<Mail>, failed: bool)
      requires Explained() && pc.Getting? && At(t, must, pc) && id in pc.todo
      modifies this`worlds, this`steps
      ensures Explained() && old(worlds) <= worlds && (reliable ==> !failed)
      ensures failed ==> At(t, must, Over)
      ensures !failed && mail.None? ==> At(t, must, Loading(pc.version, pc.now))
      ensures !failed && mail.Some? ==>
                mail.value.id == id
                && At(t, must, Getting(pc.version, pc.now, pc.todo - {id}, pc.got[id := mail.value]))
    {
      var fault := Call();
      if !fault.Fine? {
        Record(Refresh(t, Fail));
        return None, true;
      }
      Know(t);
      Record(Refresh(t, RefreshAct.GetDetail(id)));
      return Get(redis.details, id), false;
    }

    /** List the active IDs and get every detail; one that is missing sends the refresh to MySQL. */
    method LoadFromSharedCache(t: nat, version: int, now: int, ghost must: set<int>)
      returns (found: seq<Mail>, outcome: Outcome, ghost got: map<int, Mail>)
      requires Explained() && At(t, must, Listing(version, now))
      modifies this`worlds, this`steps
      ensures Explained() && old(worlds) <= worlds && (reliable ==> !outcome.Erred?)
      ensures At(t, must, match outcome
                          case Got => Getting(version, now, {}, got)
                          case Missed => Loading(version, now)
                          case Erred => Over)
      ensures outcome.Got? ==> Enumerates(found, got)
    {
      found, got := [], map[];
      var fault := Call();
      if !fault.Fine? {
        Record(Refresh(t, Fail));
        return found, Erred, got;
      }
      var rest := ActiveIds(redis.index, now);
      Record(Refresh(t, List));
      if rest == {} {
        return found, Missed, got;
      }
      while rest != {}
        invariant Explained() && old(worlds) <= worlds && At(t, must, Getting(version, now, rest, got))
        invariant Enumerates(found, got) && rest !! got.Keys
        decreases rest
      {
        var id := Choice.Any(rest);
        var mail, failed := GetDetail(t, id, Getting(version, now, rest, got), must);
        if failed || mail.None? {
          return found, if failed then Erred else Missed, got;
        }
        EnumerateOneMore(found, got, mail.value);
        found, got, rest := found + [mail.value], got[id := mail.value], rest - {id};
      }
      outcome := Got;
    }

    /** Write one mail back to Redis: its detail, then its index entries. */
    method RefillOne(t: nat, mail: Mail, ghost must: set<int>, ghost pc: TaskPc) returns (failed: bool)
      requires Explained() && pc.Refilling? && At(t, must, pc) && pc.indexing.None?
      requires mail.id in pc.todo && mail.id in pc.got && pc.got[mail.id] == mail
      modifies this`redis, this`worlds, this`steps
      ensures Explained() && old(worlds) <= worlds && redis.version == old(redis.version) && (reliable ==> !failed)
      ensures At(t, must, if failed then Over else pc.(todo := pc.todo - {mail.id}))
    {
      var fault := Call();
      if !fault.Lost? {
        redis := redis.(details := redis.details[mail.id := mail]);
      }
      Record(Refresh(t, Refill(mail.id, fault)));
      if !fault.Fine? {
        return true;
      }
      fault := Call();
      if !fault.Lost? {
        redis := redis.(index := redis.index[mail.id := Unix(mail.expireTime)]);
      }
      Record(Refresh(t, Refill(mail.id, fault)));
      failed := !fault.Fine?;
    }

    method RefillAll(t: nat, found: seq<Mail>, version: int, now: int, ghost must: set<int>, ghost got: map<int, Mail>)
      returns (failed: bool)
      requires Explained() && Enumerates(found, got)
      requires At(t, must, Refilling(version, now, IdsFrom(found, 0), got, None))
      modifies this`redis, this`worlds, this`steps
      ensures Explained() && old(worlds) <= worlds && redis.version == old(redis.version) && (reliable ==> !failed)
      ensures At(t, must, if failed then Over else Refilling(version, now, {}, got, None))
    {
      for i := 0 to |found|
        invariant Explained() && old(worlds) <= worlds && redis.version == old(redis.version)
        invariant At(t, must, Refilling(version, now, IdsFrom(found, i), got, None))
      {
        IdsAfter(found, i);
        failed := RefillOne(t, found[i], must, Refilling(version, now, IdsFrom(found, i), got, None));
        if failed {
          return;
        }
      }
      failed := false;
    }

    method LoadPublishedFromMySQLAndRefill(t: nat, version: int, now: int, ghost must: set<int>)
      returns (found: seq<Mail>, failed: bool, ghost got: map<int, Mail>)
      requires Explained() && At(t, must, Loading(version, now))
      modifies this`redis, this`worlds, this`steps
      ensures Explained() && old(worlds) <= worlds && redis.version == old(redis.version) && (reliable ==> !failed)
      ensures At(t, must, if failed then Over else Refilling(version, now, {}, got, None))
      ensures !failed ==> Enumerates(found, got)
    {
      var fault := Call();
      if !fault.Fine? {
        Record(Refresh(t, Fail));
        return [], true, map[];
      }
      Know(t);
      got := Current(mails, now);
      found := Rows(Current(mails, now));
      AllIds(found, got);
      Record(Refresh(t, LoadAll));
      failed := RefillAll(t, found, version, now, must, got);
    }

    /** The load is complete. */
    ghost predicate Loaded(t: nat, must: set<int>, version: int, now: int, got: map<int, Mail>)
      reads this
    {
      At(t, must, Getting(version, now, {}, got)) || At(t, must, Refilling(version, now, {}, got, None))
    }

    /** Rebuild, or wait for the process that holds the rebuild lock and rebuild when it does not show up. */
    method RebuildSharedCache(t: nat, version: int, now: int, acquired: bool, polls: nat, ghost must: set<int>)
      returns (found: seq<Mail>, failed: bool, ghost got: map<int, Mail>)
      requires Explained() && At(t, must, Loading(version, now))
      modifies this`redis, this`worlds, this`steps
      ensures Explained() && old(worlds) <= worlds && redis.version == old(redis.version) && (reliable ==> !failed)
      ensures if failed then At(t, must, Over) else Loaded(t, must, version, now, got) && Enumerates(found, got)
    {
      if !acquired {
        for poll := 0 to polls
          invariant Explained() && old(worlds) <= worlds && At(t, must, Loading(version, now)) && redis == old(redis)
        {
          Record(Refresh(t, Relist));
          var outcome;
          found, outcome, got := LoadFromSharedCache(t, version, now, must);
          if !outcome.Missed? {
            return found, outcome.Erred?, got;
          }
        }
      }
      found, failed, got := LoadPublishedFromMySQLAndRefill(t, version, now, must);
    }

    // ---------- refreshing ----------

    /** From Redis if it has everything, else by a rebuild. */
    method Load(t: nat, version: int, now: int, acquired: bool, polls: nat, ghost must: set<int>)
      returns (found: seq<Mail>, failed: bool, ghost got: map<int, Mail>)
      requires Explained() && At(t, must, Listing(version, now))
      modifies this`redis, this`worlds, this`steps
      ensures Explained() && old(worlds) <= worlds && redis.version == old(redis.version) && (reliable ==> !failed)
      ensures if failed then At(t, must, Over) else Loaded(t, must, version, now, got) && Enumerates(found, got)
    {
      var outcome;
      found, outcome, got := LoadFromSharedCache(t, version, now, must);
      failed := outcome.Erred?;
      if outcome.Missed? {
        found, failed, got := RebuildSharedCache(t, version, now, acquired, polls, must);
      }
    }

    /** Load, build and swap, under the mutex. */
    method Renew(t: nat, version: int, acquired: bool, polls: nat, ghost must: set<int>) returns (failed: bool)
      requires Valid() && At(t, must, Listing(version, clock))
      modifies this`redis, this`snapshot, this`list, this`worlds, this`steps
      ensures Valid() && old(worlds) <= worlds && redis.version == old(redis.version) && (reliable ==> !failed)
      ensures At(t, must, Over) && (failed ==> snapshot == old(snapshot))
      ensures !failed ==> snapshot.version == version && Complete(must)
    {
      var found;
      ghost var got;
      found, failed, got := Load(t, version, clock, acquired, polls, must);
      if !failed {
        Install(t, version, found, must, got);
      }
    }

    /** Build the snapshot and swap it in. */
    method Install(t: nat, version: int, found: seq<Mail>, ghost must: set<int>, ghost got: map<int, Mail>)
      requires Explained() && Loaded(t, must, version, clock, got) && Enumerates(found, got)
      modifies this`snapshot, this`list, this`worlds, this`steps
      ensures Valid() && old(worlds) <= worlds && At(t, must, Over) && snapshot.version == version && Complete(must)
    {
      Know(t);
      snapshot := BuildSnapshot(version, clock, found);
      list := found;
      BuiltHolds(snapshot, list, got);
      Record(Refresh(t, Swap));
    }

    /** The snapshot holds every advanced mail that is current at its time, and holds each as MySQL does. */
    ghost predicate Complete(must: set<int>)
      reads this
    {
      && ProjectionSafety.Covers(mails, must, snapshot.refreshedAt, snapshot.mailsById.Keys)
      && ProjectionSafety.Faithful(snapshot.mailsById, mails)
    }

    ghost method Begin(t: nat, kind: RefreshKind)
      requires Explained() && t !in Now().tasks
      modifies this`worlds, this`steps
      ensures Explained() && old(worlds) <= worlds && Now().advanced == old(Now().advanced)
      ensures Now().tasks == old(Now().tasks)[t := Task(cache, kind, {}, Asking)]
    {
      Record(Refresh(t, Open(cache, kind)));
    }

    /** The common start: read the version, unless that fails. */
    method AskForVersion(t: nat, kind: RefreshKind) returns (version: int, failed: bool)
      requires Explained() && t !in Now().tasks
      modifies this`worlds, this`steps
      ensures Explained() && old(worlds) <= worlds && version == redis.version && (reliable ==> !failed)
      ensures t in Now().tasks && Now().tasks == old(Now().tasks)[t := Now().tasks[t]]
      ensures Now().tasks[t] ==
              if failed then Task(cache, kind, {}, Over)
              else Task(cache, kind, old(Now().advanced),
                        if kind.IfStale? && snapshot.version >= version then Over else Queued(version))
    {
      version := redis.version;
      Begin(t, kind);
      var fault := Call();
      failed := !fault.Fine?;
      if failed {
        Record(Refresh(t, Fail));
      } else {
        Record(Refresh(t, AskVersion));
      }
    }

    /** Take the mutex, after which the snapshot is looked at again. */
    ghost method TakeLock(t: nat, version: int, must: set<int>)
      requires Explained() && At(t, must, Queued(version)) && Unlocked(Now(), cache)
      requires Now().tasks[t].kind.IfStale? ==> snapshot.version < version
      modifies this`worlds, this`steps
      ensures Explained() && old(worlds) <= worlds && At(t, must, Listing(version, clock))
    {
      Record(Refresh(t, Lock));
    }

    /** Refresh `t` has not begun and the mutex is free. */
    ghost predicate Ready(t: nat)
      reads this
    {
      worlds != [] && t !in Now().tasks && Unlocked(Now(), cache)
    }

    /** Read the version and, unless the snapshot is as new, take the mutex. */
    method Prepare(t: nat, kind: RefreshKind) returns (version: int, failed: bool, stale: bool)
      requires Explained() && Ready(t)
      modifies this`worlds, this`steps
      ensures Explained() && old(worlds) <= worlds && version == redis.version && (reliable ==> !failed)
      ensures stale == (!failed && (kind.Force? || snapshot.version < version))
      ensures stale ==> At(t, old(Now().advanced), Listing(version, clock))
    {
      version, failed := AskForVersion(t, kind);
      stale := !failed && (kind.Force? || snapshot.version < version);
      if stale {
        TakeLock(t, version, old(Now().advanced));
      }
    }

    /** Unless it fails, the snapshot is at least as new as Redis said, and a snapshot that was replaced was older. */
    method RefreshIfStale(t: nat, acquired: bool, polls: nat) returns (failed: bool)
      requires Valid() && Ready(t)
      modifies this`redis, this`snapshot, this`list, this`worlds, this`steps
      ensures Valid() && old(worlds) <= worlds && redis.version == old(redis.version) && (reliable ==> !failed)
      ensures failed ==> snapshot == old(snapshot)
      ensures !failed ==> snapshot.version >= redis.version
      ensures snapshot != old(snapshot) ==> snapshot.version > old(snapshot).version && Complete(old(Now().advanced))
    {
      var version, stale;
      version, failed, stale := Prepare(t, IfStale);
      if !stale || snapshot.version >= version {
        return;
      }
      failed := Renew(t, version, acquired, polls, old(Now().advanced));
    }

    method ForceRefresh(t: nat, acquired: bool, polls: nat) returns (failed: bool)
      requires Valid() && Ready(t)
      modifies this`redis, this`snapshot, this`list, this`worlds, this`steps
      ensures Valid() && old(worlds) <= worlds && redis.version == old(redis.version) && (reliable ==> !failed)
      ensures failed ==> snapshot == old(snapshot)
      ensures !failed ==> snapshot.version == redis.version && Complete(old(Now().advanced))
    {
      var version, stale;
      version, failed, stale := Prepare(t, Force);
      if stale {
        failed := Renew(t, version, acquired, polls, old(Now().advanced));
      }
    }

    /** What a player is shown now. */
    method VisibleMails(p: Profile) returns (visible: seq<Mail>)
      requires Valid()
      ensures visible == Seen(snapshot, p, clock)
    {
      visible := MailVisibility.VisibleMails(snapshot, p, clock, list);
    }
  }
}
