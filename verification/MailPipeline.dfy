/** From publishing a global mail to the snapshot a player server reads: the publisher, the outbox relays, the
Redis projection and the local caches, as one machine.

Publishers, relays and cache refreshes of any number of processes interleave. Every repository, Redis and Kafka
call is one atomic step that can fail with or without having taken effect, any process can stop between two
steps, and the clock moves forward on its own. */
module MailPipeline {
  import opened Options
  import opened Sorting
  import opened Subsequences
  import opened GlobalMail

  datatype Config = Config(lockTtl: int, maxRetries: nat)

  // ---------- MySQL ----------

  datatype EventStatus = Pending | Processing | Sent | Failed

  /** A row of global_mail_outbox_event. */
  datatype Event = Event(
    mail: int, version: int,
    status: EventStatus,
    retryCount: nat,
    nextRetry: Option<int>,
    lockedUntil: Option<int>)

  /** A row of global_mail_idempotency. */
  datatype Receipt = Receipt(request: Command, response: Mail)

  datatype Db = Db(
    mails: map<int, Mail>,
    conditionIds: set<int>,
    outbox: map<int, Event>,
    receipts: map<string, Receipt>)

  // ---------- Redis ----------

  datatype Redis = Redis(
    details: map<int, Mail>,
    index: map<int, int>,            // mail ID to expiry in seconds
    version: int)

  /** `AdvanceGlobalMailVersion`: raise to the target, never lower. */
  function Raised(current: int, target: int): int {
    if current < target then target else current
  }

  // ---------- publishers ----------

  /** A publish request; equality of commands stands for equality of request hashes. */
  datatype Command = Command(mail: Mail, conditions: seq<Condition>, action: string)

  datatype Publisher =
    | Checking(key: string, cmd: Command)
    | Creating(key: string, cmd: Command, mail: Mail, event: int)
    | Accepted(key: string, mail: Mail)
    | Refused(key: string)

  predicate Acceptable(mail: Mail) {
    && mail.title != "" && mail.content != ""
    && mail.startTime != 0 && mail.expireTime != 0 && mail.startTime < mail.expireTime
  }

  function NewMail(cmd: Command, mailId: int, now: int): Mail {
    cmd.mail.(id := if cmd.mail.id == 0 then mailId else cmd.mail.id,
              status := Published, version := 1, conditions := cmd.conditions,
              createTime := now, updateTime := now)
  }

  function NewEvent(mail: Mail): Event {
    Event(mail.id, mail.version, Pending, 0, None, None)
  }

  predicate DistinctIds(conditions: seq<Condition>) {
    forall i, j :: 0 <= i < j < |conditions| ==> conditions[i].id != conditions[j].id
  }

  function Ids(conditions: seq<Condition>): set<int> {
    set i | 0 <= i < |conditions| :: conditions[i].id
  }

  /** Whether the transaction meets no duplicate primary key. */
  predicate Insertable(db: Db, key: string, mail: Mail, event: int) {
    && mail.id !in db.mails && event !in db.outbox
    && DistinctIds(mail.conditions) && Ids(mail.conditions) !! db.conditionIds
    && (key == "" || key !in db.receipts)
  }

  /** `createGlobalMailWithOutbox`: mail, conditions, outbox event and, with a key, the receipt, or nothing. */
  function Insert(db: Db, key: string, cmd: Command, mail: Mail, event: int): Db {
    Db(db.mails[mail.id := Stored(mail)],
       db.conditionIds + Ids(mail.conditions),
       db.outbox[event := NewEvent(mail)],
       if key == "" then db.receipts else db.receipts[key := Receipt(cmd, mail)])
  }

  // ---------- relays ----------

  /** An outbox row as a relay fetched it. */
  datatype Lease = Lease(event: int, mail: int, version: int, retryCount: nat, until: int)

  datatype Stage =
    | Decode
    | Load
    | SetDetail(mail: Mail)
    | SetIndex(mail: Mail)
    | Raise
    | Notify
    | MarkSent
    | ReadRetries                    // MarkFailed: read retry_count
    | MarkFailed(retries: nat, retryAt: int)   // MarkFailed: update

  datatype Relay =
    | Idle
    | Fetching(until: int)
    | Working(todo: seq<Lease>, stage: Stage)

  function Rest(todo: seq<Lease>): Relay
    requires todo != []
  {
    if |todo| == 1 then Idle else Working(todo[1..], Decode)
  }

  predicate Eligible(e: Event, now: int) {
    || (e.status == Pending && (e.nextRetry.None? || e.nextRetry.value <= now))
    || (e.status == Processing && e.lockedUntil.Some? && e.lockedUntil.value <= now)
  }

  function Locked(e: Event, until: int): Event {
    e.(status := Processing, lockedUntil := Some(until), nextRetry := None)
  }

  function LeaseOf(outbox: map<int, Event>, id: int, until: int): Lease
    requires id in outbox
  {
    Lease(id, outbox[id].mail, outbox[id].version, outbox[id].retryCount, until)
  }

  function MarkedSent(e: Event): Event {
    e.(status := Sent, lockedUntil := None)
  }

  function RetryAt(now: int, retryCount: nat): int {
    var backoff := (retryCount + 1) * 60 * SECOND;
    now + if backoff > 1800 * SECOND then 1800 * SECOND else backoff
  }

  /** The update of MarkFailed, which decides from the count it read and adds to the count that is there. */
  function MarkedFailed(c: Config, e: Event, retries: nat, retryAt: int): Event {
    var failed := retries + 1 >= c.maxRetries;
    e.(status := if failed then Failed else Pending,
       retryCount := e.retryCount + 1,
       lockedUntil := None,
       nextRetry := if failed then None else Some(retryAt))
  }

  // ---------- local caches ----------

  datatype Snapshot = Snapshot(version: int, mails: map<int, Mail>)

  datatype RefreshKind = IfStale | Force

  datatype TaskPc =
    | Asking                                         // about to read the Redis version
    | Queued(version: int)                           // about to take the mutex
    | Listing(version: int, now: int)                // about to list the active IDs
    | Getting(version: int, now: int, todo: set<int>, got: map<int, Mail>)
    | Loading(version: int, now: int)                // about to read MySQL
    | Refilling(version: int, now: int, todo: set<int>, got: map<int, Mail>, indexing: Option<int>)
    | Over

  /** A refresh of cache `cache`. `must` is history: the mails whose advance step had happened when the refresh
  read the version. */
  datatype Task = Task(cache: nat, kind: RefreshKind, must: set<int>, pc: TaskPc)

  predicate HoldsLock(task: Task) {
    task.pc.Listing? || task.pc.Getting? || task.pc.Loading? || task.pc.Refilling?
  }

  function ActiveIds(index: map<int, int>, now: int): set<int> {
    set id | id in index && index[id] >= Unix(now)
  }

  /** `GetPublishedGlobalMails` */
  function Current(mails: map<int, Mail>, now: int): map<int, Mail> {
    map id | id in mails && mails[id].status == Published && InWindow(mails[id], now) :: mails[id]
  }

  // ---------- the world ----------

  datatype World = World(
    db: Db, redis: Redis,
    notified: set<int>,              // events Kafka has accepted
    clock: int,
    publishers: map<nat, Publisher>,
    relays: map<nat, Relay>,
    tasks: map<nat, Task>,
    caches: map<nat, Snapshot>,
    // history
    detailed: set<int>,              // mails whose detail was ever written
    advanced: set<int>,              // mails whose event reached its advance step
    failures: map<int, nat>,         // failed marks per event
    owners: map<int, nat>)           // the relay that locked the event last

  const INIT := World(Db(map[], {}, map[], map[]), Redis(map[], map[], 0), {}, 0,
                      map[], map[], map[], map[], {}, {}, map[], map[])

  datatype Fault = Fine | Lost | Late    // no error; error without effect; error after taking effect

  datatype Step =
    | Tick(elapsed: nat)
    | DetailExpires(mail: int)
    | Publish(id: nat, publishAct: PublishAct)
    | Relaying(id: nat, relayAct: RelayAct)
    | Refresh(id: nat, refreshAct: RefreshAct)

  datatype PublishAct =
    | Submit(key: string, cmd: Command)
    | Check(found: bool, mailId: int, event: int)
    | Create(fault: Fault)
    | GiveUp                         // an error or a crash

  datatype RelayAct =
    | Start
    | Fetch(ids: seq<int>, fault: Fault)
    | Do(fault: Fault)               // the call of the current stage comes back with this fault
    | StageFails                     // the payload does not decode, or the mail cannot be loaded
    | Stop                           // the process dies

  datatype RefreshAct =
    | Open(cache: nat, kind: RefreshKind)
    | AskVersion
    | Lock
    | List
    | GetDetail(mail: int)
    | Relist                         // waiting for another process to rebuild: list again
    | LoadAll
    | Refill(mail: int, fault: Fault)
    | Swap
    | Fail                           // an error or a crash

  // ---------- publisher steps ----------

  predicate PublishEnabled(w: World, id: nat, act: PublishAct) {
    match act
    case Submit(_, _) => id !in w.publishers
    case Check(found, _, _) =>
      && id in w.publishers && w.publishers[id].Checking?
      && found == (w.publishers[id].key != "" && w.publishers[id].key in w.db.receipts)
    case Create(_) => id in w.publishers && w.publishers[id].Creating?
    case GiveUp => id in w.publishers
  }

  function PublisherAfter(w: World, id: nat, act: PublishAct): Publisher
    requires PublishEnabled(w, id, act)
  {
    match act
    case Submit(key, cmd) =>
      if Acceptable(cmd.mail) then Checking(key, if cmd.action == "" then cmd.(action := "publish") else cmd)
      else Refused(key)
    case Check(found, mailId, event) =>
      var p := w.publishers[id];
      if found then
        var receipt := w.db.receipts[p.key];
        if receipt.request == p.cmd then Accepted(p.key, receipt.response) else Refused(p.key)
      else Creating(p.key, p.cmd, NewMail(p.cmd, mailId, w.clock), event)
    case Create(fault) =>
      var p := w.publishers[id];
      if fault.Fine? && Insertable(w.db, p.key, p.mail, p.event) then Accepted(p.key, p.mail) else Refused(p.key)
    case GiveUp =>
      var p := w.publishers[id];
      if p.Accepted? then p else Refused(p.key)
  }

  function DbAfterPublish(w: World, id: nat, act: PublishAct): Db
    requires PublishEnabled(w, id, act)
  {
    if act.Create? && !act.fault.Lost? then
      var p := w.publishers[id];
      if Insertable(w.db, p.key, p.mail, p.event) then Insert(w.db, p.key, p.cmd, p.mail, p.event) else w.db
    else w.db
  }

  // ---------- relay steps ----------

  predicate AtWork(w: World, id: nat) {
    && id in w.relays && w.relays[id].Working? && w.relays[id].todo != []
    && w.relays[id].todo[0].event in w.db.outbox
  }

  predicate RelayEnabled(w: World, id: nat, act: RelayAct) {
    match act
    case Start => id in w.relays ==> w.relays[id].Idle?
    case Fetch(ids, _) =>
      && id in w.relays && w.relays[id].Fetching? && StrictlySorted(ids)
      && forall i :: 0 <= i < |ids| ==> ids[i] in w.db.outbox && Eligible(w.db.outbox[ids[i]], w.clock)
    case Do(fault) =>
      && AtWork(w, id)
      && (w.relays[id].stage.Decode? ==> fault.Fine?)
      && (w.relays[id].stage.Load? ==> fault.Fine? && w.relays[id].todo[0].mail in w.db.mails)
    case StageFails => AtWork(w, id) && (w.relays[id].stage.Decode? || w.relays[id].stage.Load?)
    case Stop => id in w.relays
  }

  function Leases(outbox: map<int, Event>, ids: seq<int>, until: int): (r: seq<Lease>)
    requires forall i :: 0 <= i < |ids| ==> ids[i] in outbox
    ensures |r| == |ids| && forall i :: 0 <= i < |ids| ==> r[i] == LeaseOf(outbox, ids[i], until)
  {
    if ids == [] then [] else [LeaseOf(outbox, ids[0], until)] + Leases(outbox, ids[1..], until)
  }

  /** `FetchPending` locks the rows it returns. */
  function LockAll(outbox: map<int, Event>, ids: seq<int>, until: int): map<int, Event> {
    map e | e in outbox :: if e in ids then Locked(outbox[e], until) else outbox[e]
  }

  function RelayAfter(c: Config, w: World, id: nat, act: RelayAct): Relay
    requires RelayEnabled(w, id, act)
  {
    match act
    case Start => Fetching(w.clock + c.lockTtl)
    case Fetch(ids, fault) =>
      if !fault.Fine? || ids == [] then Idle
      else Working(Leases(w.db.outbox, ids, w.relays[id].until), Decode)
    case Do(fault) => StageAfter(w, w.relays[id].todo, w.relays[id].stage, fault)
    case StageFails => Working(w.relays[id].todo, ReadRetries)
    case Stop => Idle
  }

  function StageAfter(w: World, todo: seq<Lease>, stage: Stage, fault: Fault): Relay
    requires todo != [] && todo[0].event in w.db.outbox
    requires stage.Load? ==> todo[0].mail in w.db.mails
  {
    var failed := Working(todo, ReadRetries);
    match stage
    case Decode => Working(todo, Load)
    case Load => Working(todo, SetDetail(w.db.mails[todo[0].mail]))
    case SetDetail(mail) => if fault.Fine? then Working(todo, SetIndex(mail)) else failed
    case SetIndex(mail) => if fault.Fine? then Working(todo, Raise) else failed
    case Raise => if fault.Fine? then Working(todo, Notify) else failed
    case Notify => if fault.Fine? then Working(todo, MarkSent) else failed
    case MarkSent => if fault.Fine? then Rest(todo) else Idle
    case ReadRetries =>
      if fault.Fine? then Working(todo, MarkFailed(w.db.outbox[todo[0].event].retryCount,
                                                   RetryAt(w.clock, todo[0].retryCount)))
      else Rest(todo)
    case MarkFailed(_, _) => Rest(todo)
  }

  function OutboxAfter(c: Config, w: World, id: nat, act: RelayAct): map<int, Event>
    requires RelayEnabled(w, id, act)
  {
    var outbox := w.db.outbox;
    match act
    case Fetch(ids, fault) => if fault.Lost? then outbox else LockAll(outbox, ids, w.relays[id].until)
    case Do(fault) =>
      var e := w.relays[id].todo[0].event;
      if fault.Lost? then outbox
      else (match w.relays[id].stage
            case MarkSent => outbox[e := MarkedSent(outbox[e])]
            case MarkFailed(retries, retryAt) => outbox[e := MarkedFailed(c, outbox[e], retries, retryAt)]
            case _ => outbox)
    case _ => outbox
  }

  function RedisAfterStage(redis: Redis, lease: Lease, stage: Stage, fault: Fault): Redis {
    if fault.Lost? then redis
    else match stage
      case SetDetail(mail) => redis.(details := redis.details[mail.id := mail])
      case SetIndex(mail) => redis.(index := redis.index[mail.id := Unix(mail.expireTime)])
      case Raise => redis.(version := Raised(redis.version, lease.version))
      case _ => redis
  }

  function RelayStep(c: Config, w: World, id: nat, act: RelayAct): (r: World)
    requires RelayEnabled(w, id, act)
    ensures r.tasks == w.tasks && r.caches == w.caches && r.publishers == w.publishers && r.clock == w.clock
    ensures r.db.mails == w.db.mails && r.db.receipts == w.db.receipts
  {
    var w' := w.(relays := w.relays[id := RelayAfter(c, w, id, act)],
                 db := w.db.(outbox := OutboxAfter(c, w, id, act)),
                 owners := OwnersAfter(w, id, act));
    if !act.Do? || act.fault.Lost? then w'
    else
      var lease, stage := w.relays[id].todo[0], w.relays[id].stage;
      w'.(redis := RedisAfterStage(w.redis, lease, stage, act.fault),
          notified := if stage.Notify? then w.notified + {lease.event} else w.notified,
          detailed := if stage.SetDetail? then w.detailed + {lease.mail} else w.detailed,
          advanced := if stage.Raise? then w.advanced + {lease.mail} else w.advanced,
          failures := if stage.MarkFailed? then w.failures[lease.event := Failures(w, lease.event) + 1] else w.failures)
  }

  function OwnersAfter(w: World, id: nat, act: RelayAct): map<int, nat> {
    if act.Fetch? && !act.fault.Lost? then w.owners + (map e | e in act.ids :: id) else w.owners
  }

  /** How often an event was marked failed. */
  function Failures(w: World, event: int): nat {
    if event in w.failures then w.failures[event] else 0
  }

  // ---------- refresh steps ----------

  function SnapshotOf(w: World, cache: nat): Snapshot {
    if cache in w.caches then w.caches[cache] else Snapshot(0, map[])
  }

  predicate Fresh(w: World, task: Task, version: int) {
    task.kind.IfStale? && SnapshotOf(w, task.cache).version >= version
  }

  /** The mutex of a cache is free. */
  predicate Unlocked(w: World, cache: nat) {
    forall id :: id in w.tasks && w.tasks[id].cache == cache ==> !HoldsLock(w.tasks[id])
  }

  predicate RefreshEnabled(w: World, id: nat, act: RefreshAct) {
    if act.Open? then id !in w.tasks
    else id in w.tasks && TaskEnabled(w, w.tasks[id], act)
  }

  predicate TaskEnabled(w: World, task: Task, act: RefreshAct)
    requires !act.Open?
  {
    match act
    case AskVersion => task.pc.Asking?
    case Lock => task.pc.Queued? && Unlocked(w, task.cache)
    case List => task.pc.Listing?
    case GetDetail(mail) => task.pc.Getting? && mail in task.pc.todo
    case Relist => task.pc.Loading?
    case LoadAll => task.pc.Loading?
    case Refill(mail, _) =>
      && task.pc.Refilling? && mail in task.pc.todo && mail in task.pc.got
      && (task.pc.indexing.Some? ==> task.pc.indexing.value == mail)
    case Swap => (task.pc.Getting? || task.pc.Refilling?) && task.pc.todo == {}
    case Fail => true
  }

  function TaskAfter(w: World, task: Task, act: RefreshAct): Task
    requires !act.Open? && TaskEnabled(w, task, act)
  {
    var pc := task.pc;
    match act
    case AskVersion =>
      task.(must := w.advanced, pc := if Fresh(w, task, w.redis.version) then Over else Queued(w.redis.version))
    case Lock => task.(pc := if Fresh(w, task, pc.version) then Over else Listing(pc.version, w.clock))
    case List =>
      var ids := ActiveIds(w.redis.index, pc.now);
      task.(pc := if ids == {} then Loading(pc.version, pc.now) else Getting(pc.version, pc.now, ids, map[]))
    case GetDetail(mail) =>
      task.(pc := if mail in w.redis.details
                  then Getting(pc.version, pc.now, pc.todo - {mail}, pc.got[mail := w.redis.details[mail]])
                  else Loading(pc.version, pc.now))
    case Relist => task.(pc := Listing(pc.version, pc.now))
    case LoadAll =>
      var mails := Current(w.db.mails, pc.now);
      task.(pc := Refilling(pc.version, pc.now, mails.Keys, mails, None))
    case Refill(mail, fault) =>
      task.(pc := if !fault.Fine? then Over
                  else if pc.indexing.None? then pc.(indexing := Some(mail))
                  else pc.(todo := pc.todo - {mail}, indexing := None))
    case Swap => task.(pc := Over)
    case Fail => task.(pc := Over)
  }

  function RedisAfterRefresh(w: World, task: Task, act: RefreshAct): Redis
    requires !act.Open? && TaskEnabled(w, task, act)
  {
    if act.Refill? && !act.fault.Lost? then
      var mail := task.pc.got[act.mail];
      if task.pc.indexing.None? then w.redis.(details := w.redis.details[mail.id := mail])
      else w.redis.(index := w.redis.index[mail.id := Unix(mail.expireTime)])
    else w.redis
  }

  function RefreshStep(w: World, id: nat, act: RefreshAct): World
    requires RefreshEnabled(w, id, act)
  {
    if act.Open? then w.(tasks := w.tasks[id := Task(act.cache, act.kind, {}, Asking)])
    else
      var task := w.tasks[id];
      w.(tasks := w.tasks[id := TaskAfter(w, task, act)],
         redis := RedisAfterRefresh(w, task, act),
         caches := if act.Swap? then w.caches[task.cache := Snapshot(task.pc.version, task.pc.got)] else w.caches)
  }

  // ---------- all steps ----------

  predicate Enabled(w: World, step: Step) {
    match step
    case Tick(_) => true
    case DetailExpires(_) => true
    case Publish(id, act) => PublishEnabled(w, id, act)
    case Relaying(id, act) => RelayEnabled(w, id, act)
    case Refresh(id, act) => RefreshEnabled(w, id, act)
  }

  function Apply(c: Config, w: World, step: Step): World
    requires Enabled(w, step)
  {
    match step
    case Tick(elapsed) => w.(clock := w.clock + elapsed)
    case DetailExpires(mail) => w.(redis := w.redis.(details := w.redis.details - {mail}))
    case Publish(id, act) =>
      w.(publishers := w.publishers[id := PublisherAfter(w, id, act)], db := DbAfterPublish(w, id, act))
    case Relaying(id, act) => RelayStep(c, w, id, act)
    case Refresh(id, act) => RefreshStep(w, id, act)
  }

  ghost predicate StepAt(c: Config, worlds: seq<World>, steps: seq<Step>, i: nat)
    requires |worlds| == |steps| + 1 && i < |steps|
  {
    Enabled(worlds[i], steps[i]) && worlds[i + 1] == Apply(c, worlds[i], steps[i])
  }

  ghost predicate IsRun(c: Config, worlds: seq<World>, steps: seq<Step>) {
    && |worlds| == |steps| + 1
    && worlds[0] == INIT
    && forall i :: 0 <= i < |steps| ==> StepAt(c, worlds, steps, i)
  }

  /** A run goes on with any enabled step. */
  lemma Extend(c: Config, worlds: seq<World>, steps: seq<Step>, step: Step)
      returns (worlds': seq<World>, steps': seq<Step>)
    requires IsRun(c, worlds, steps) && Enabled(Last(worlds), step)
    ensures IsRun(c, worlds', steps')
    ensures worlds' == worlds + [Apply(c, Last(worlds), step)] && steps' == steps + [step]
  {
    worlds', steps' := worlds + [Apply(c, Last(worlds), step)], steps + [step];
    forall i | 0 <= i < |steps'|
      ensures StepAt(c, worlds', steps', i)
    {
      assert i < |steps| ==> StepAt(c, worlds, steps, i);
    }
  }
}
