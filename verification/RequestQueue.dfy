/** The per-role command queue with the idempotent dispatcher underneath, as a machine of atomic steps.

Every channel operation, mutex section and `sync.Once` call of `CommandRequestQueue` is one step.
A job carries three program counters, for the three goroutines that work on it: the caller inside
`Dispatch`, the lane goroutine inside `handle`, and the worker goroutine that runs the dispatcher.
A `select` is a step with a parameter that says which ready case was taken, so a theorem about every
run is a theorem about every choice of every `select`. */
module RequestQueue {
  import opened Options
  import opened Decimal
  import opened Subsequences

  type JobId = nat

  datatype Config = Config(workers: nat, capacity: nat, roleCapacity: nat, timeout: bool, store: bool)

  function Configure(workers: int, capacity: int, roleCapacity: int, requestTimeout: int, store: bool): (c: Config)
    ensures c.workers > 0 && c.capacity > 0 && c.roleCapacity > 0
  {
    Config(if workers <= 0 then 4 else workers,
           if capacity <= 0 then 1024 else capacity,
           if roleCapacity <= 0 then 32 else roleCapacity,
           requestTimeout > 0,
           store)
  }

  datatype Request = Request(uid: int, roleId: int, command: int, sequence: int, payload: string) {
    /** The lane a request belongs to: its role, or its uid when it names no role. */
    function Lane(): int {
      if roleId != 0 then roleId else uid
    }

    function Key(): string {
      TripleKey(uid, command, sequence)
    }

    predicate Keyed() {
      uid != 0 && sequence != 0
    }
  }

  datatype Error = DeadlineExceeded | Canceled | QueueClosed | Other(tag: int)

  datatype Response = Response(command: int, sequence: int, code: int, body: string)

  datatype Result = Ok(resp: Response) | Fail(err: Error)

  /** Where the reply of a `Dispatch` call comes from: the queue answers 429 or 504, or an error, or the handler. */
  datatype Answer = QueueFull | TimedOut | Broken(err: Error) | FromHandler(res: Result)

  function Conflict(req: Request): Response {
    Response(req.command, req.sequence, 409, "command idempotency key reused with different payload")
  }

  datatype Context = Live | Ended(err: Error)

  datatype CallerPc =
    | Entering                     // first select of Dispatch
    | Admitted                     // holds a capacity token, about to look up the lane
    | Queueing                     // second select
    | Waiting                      // third select
    | Releasing(answer: Answer)    // about to release the token and return
    | Returned(answer: Answer)

  datatype HandlePc =
    | NotTaken
    | Checking                     // first select of handle
    | Acquiring                    // inside acquireWorker
    | Awaiting                     // last select of handle
    | FreeingWorker                // context ended first: release the worker slot
    | Sending(res: Result)         // send to the caller's result channel
    | Freeing                      // deferred releaseCapacity
    | Handled

  datatype WorkerPc =
    | NoWorker
    | Looking                      // dispatcher: look the key up in memory
    | Fetching                     // dispatcher: look the key up in the store
    | Executing                    // inside the registered handler
    | Remembering(resp: Response, executed: bool)
    | Storing(resp: Response)
    | Delivering(res: Result)      // send to the handle goroutine
    | FreeingSlot(res: Result)     // deferred release of the worker slot
    | Exited(res: Result)
  {
    /** The dispatcher call has not returned yet. */
    predicate Running() {
      Looking? || Fetching? || Executing? || Remembering? || Storing? || Delivering?
    }

    predicate Finished() {
      FreeingSlot? || Exited?
    }
  }

  datatype Record = Record(payload: string, resp: Response)

  datatype Job = Job(
    req: Request,
    ctx: Context,
    parentEnded: bool,
    pc: CallerPc,
    handle: HandlePc,
    worker: WorkerPc,
    admitted: bool,                // a token was sent to capacity for it
    accepted: bool,                // it was sent to its lane
    released: bool,                // releaseOnce has fired
    slotReleased: bool,            // the worker Once has fired
    result: Option<Result>,        // buffer of the caller's result channel
    inner: Option<Result>,         // buffer of the channel inside handle
    succeeded: Option<Response>)   // what the registered handler returned without an error
  {
    predicate Open() { admitted && !released }

    predicate HoldsSlot() { !worker.NoWorker? && !slotReleased }

    /** Between dequeue and the end of handle. */
    predicate InHandle() { !handle.NotTaken? && !handle.Handled? }
  }

  datatype LanePc = Idle | Busy(job: JobId) | Stopped

  datatype Lane = Lane(
    queue: seq<JobId>,
    pc: LanePc,
    accepted: seq<JobId>,          // everything ever sent to the lane, in order
    taken: seq<JobId>,             // everything ever dequeued
    spawned: seq<JobId>)           // everything a worker was ever started for

  datatype State = State(
    jobs: map<JobId, Job>,
    lanes: map<int, Lane>,
    tokens: nat,                   // length of the capacity channel
    slots: nat,                    // length of the workerSlots channel
    closed: bool,
    records: map<string, Record>)

  const INIT := State(map[], map[], 0, 0, false, map[])

  /** The case of a select that was taken. */
  datatype Wake = CtxDone | QueueDone | Proceed | Default

  datatype StoreAnswer = Miss | Found(record: Record) | StoreError(err: Error)

  datatype Step =
    | Call(job: JobId, req: Request)
    | DeadlineFires(job: JobId)
    | ParentEnds(job: JobId, err: Error)
    | Close
    | LaneStop(lane: int)
    | LaneTake(lane: int)
    | Caller(job: JobId, callerAct: CallerAct)
    | Handler(job: JobId, handleAct: HandleAct)
    | Worker(job: JobId, workerAct: WorkerAct)

  datatype CallerAct = Enter(wake: Wake) | FindLane | Queue(wake: Wake) | Wait(wake: Wake) | Release

  datatype HandleAct = Check | Acquire(wake: Wake) | Await(wake: Wake) | FreeWorker | Send | Free

  datatype WorkerAct =
    | HashFails(err: Error)
    | Look
    | Fetch(answer: StoreAnswer)
    | Execute(res: Result)
    | Remember
    | Store(failure: Option<Error>)
    | Deliver
    | FreeSlot

  function NewJob(req: Request): Job {
    Job(req, Live, false, Entering, NotTaken, NoWorker, false, false, false, false, None, None, None)
  }

  /** `contextDoneResponse` */
  function ContextAnswer(job: Job): Answer
    requires job.ctx.Ended?
  {
    if job.ctx.err == DeadlineExceeded && !job.parentEnded then TimedOut else Broken(job.ctx.err)
  }

  /** Dispatch returns: its deferred cancel ends the context it created. */
  function Return(c: Config, job: Job, answer: Answer): Job {
    job.(pc := Returned(answer),
         ctx := if c.timeout && job.ctx.Live? then Ended(Canceled) else job.ctx)
  }

  /** Whether a select may take a case: the default only when no other case is ready. */
  predicate Ready(s: State, job: Job, wake: Wake, proceed: bool) {
    match wake
    case CtxDone => job.ctx.Ended?
    case QueueDone => s.closed
    case Proceed => proceed
    case Default => job.ctx.Live? && !s.closed && !proceed
  }

  predicate Enabled(c: Config, s: State, step: Step) {
    match step
    case Call(j, _) => j !in s.jobs
    case DeadlineFires(j) => j in s.jobs && c.timeout && s.jobs[j].ctx.Live?
    case ParentEnds(j, _) => j in s.jobs && !s.jobs[j].parentEnded
    case Close => true
    case LaneStop(r) => r in s.lanes && s.lanes[r].pc.Idle? && s.closed
    case LaneTake(r) =>
      r in s.lanes && s.lanes[r].pc.Idle? && s.lanes[r].queue != [] && s.lanes[r].queue[0] in s.jobs
    case Caller(j, act) => j in s.jobs && CallerEnabled(c, s, s.jobs[j], act)
    case Handler(j, act) => j in s.jobs && HandleEnabled(c, s, s.jobs[j], act)
    case Worker(j, act) => j in s.jobs && WorkerEnabled(s, s.jobs[j], act)
  }

  predicate CallerEnabled(c: Config, s: State, job: Job, act: CallerAct) {
    match act
    case Enter(wake) => job.pc.Entering? && Ready(s, job, wake, s.tokens < c.capacity)
    case FindLane => job.pc.Admitted?
    case Queue(wake) =>
      job.pc.Queueing? && job.req.Lane() in s.lanes
      && Ready(s, job, wake, |s.lanes[job.req.Lane()].queue| < c.roleCapacity)
    case Wait(wake) => job.pc.Waiting? && !wake.Default? && Ready(s, job, wake, job.result.Some?)
    case Release => job.pc.Releasing? && (job.released || s.tokens > 0)
  }

  predicate HandleEnabled(c: Config, s: State, job: Job, act: HandleAct) {
    match act
    case Check => job.handle.Checking?
    case Acquire(wake) =>
      job.handle.Acquiring? && job.req.Lane() in s.lanes
      && !wake.Default? && Ready(s, job, wake, s.slots < c.workers)
    case Await(wake) =>
      job.handle.Awaiting? && (wake.CtxDone? || wake.Proceed?) && Ready(s, job, wake, job.inner.Some?)
    case FreeWorker => job.handle.FreeingWorker? && job.ctx.Ended? && (job.slotReleased || s.slots > 0)
    case Send => job.handle.Sending? && job.result.None?
    case Free => job.handle.Freeing? && job.req.Lane() in s.lanes && (job.released || s.tokens > 0)
  }

  predicate WorkerEnabled(s: State, job: Job, act: WorkerAct) {
    WorkerReady(job, act) && (act.FreeSlot? ==> job.slotReleased || s.slots > 0)
  }

  predicate WorkerReady(job: Job, act: WorkerAct) {
    match act
    case HashFails(_) => job.worker.Looking? && job.req.Keyed()
    case Look => job.worker.Looking?
    case Fetch(_) => job.worker.Fetching?
    case Execute(_) => job.worker.Executing?
    case Remember => job.worker.Remembering?
    case Store(_) => job.worker.Storing?
    case Deliver => job.worker.Delivering? && job.inner.None?
    case FreeSlot => job.worker.FreeingSlot?
  }

  function Put(s: State, j: JobId, job: Job): State {
    s.(jobs := s.jobs[j := job])
  }

  function Apply(c: Config, s: State, step: Step): State
    requires Enabled(c, s, step)
  {
    match step
    case Call(j, req) => Put(s, j, NewJob(req))
    case DeadlineFires(j) => Put(s, j, s.jobs[j].(ctx := Ended(DeadlineExceeded)))
    case ParentEnds(j, err) =>
      var job := s.jobs[j];
      Put(s, j, job.(parentEnded := true, ctx := if job.ctx.Live? then Ended(err) else job.ctx))
    case Close => s.(closed := true)
    case LaneStop(r) => s.(lanes := s.lanes[r := s.lanes[r].(pc := Stopped)])
    case LaneTake(r) =>
      var lane := s.lanes[r];
      var j := lane.queue[0];
      Put(s, j, s.jobs[j].(handle := Checking)).(
        lanes := s.lanes[r := lane.(queue := lane.queue[1..], pc := Busy(j), taken := lane.taken + [j])])
    case Caller(j, act) => CallerStep(c, s, j, s.jobs[j], act)
    case Handler(j, act) => HandleStep(c, s, j, s.jobs[j], act)
    case Worker(j, act) => WorkerStep(c, s, j, s.jobs[j], act)
  }

  // Each goroutine's step changes its own job and, for a few actions, one shared channel, lane or map.

  function CallerStep(c: Config, s: State, j: JobId, job: Job, act: CallerAct): State
    requires CallerEnabled(c, s, job, act)
  {
    var r := job.req.Lane();
    var s' := Put(s, j, CallerJob(c, s, job, act));
    match act
    case Enter(Proceed) => s'.(tokens := s.tokens + 1)
    case FindLane => s'.(lanes := if r in s.lanes then s.lanes else s.lanes[r := Lane([], Idle, [], [], [])])
    case Queue(Proceed) =>
      var lane := s.lanes[r];
      s'.(lanes := s.lanes[r := lane.(queue := lane.queue + [j], accepted := lane.accepted + [j])])
    case Release => s'.(tokens := if job.released then s.tokens else s.tokens - 1)
    case _ => s'
  }

  function CallerJob(c: Config, s: State, job: Job, act: CallerAct): (job': Job)
    requires CallerEnabled(c, s, job, act)
    ensures job'.req == job.req && job'.handle == job.handle && job'.worker == job.worker
    ensures job'.inner == job.inner && job'.slotReleased == job.slotReleased && job'.succeeded == job.succeeded
    ensures job'.ctx == job.ctx || (job.ctx.Live? && job'.ctx.Ended? && job'.pc.Returned?)
  {
    match act
    case Enter(CtxDone) => Return(c, job, ContextAnswer(job))
    case Enter(QueueDone) => Return(c, job, Broken(QueueClosed))
    case Enter(Proceed) => job.(pc := Admitted, admitted := true)
    case Enter(Default) => Return(c, job, QueueFull)
    case FindLane => job.(pc := Queueing)
    case Queue(CtxDone) => job.(pc := Releasing(ContextAnswer(job)))
    case Queue(QueueDone) => job.(pc := Releasing(Broken(QueueClosed)))
    case Queue(Proceed) => job.(pc := Waiting, accepted := true)
    case Queue(Default) => job.(pc := Releasing(QueueFull))
    case Wait(CtxDone) => job.(pc := Releasing(ContextAnswer(job)))
    case Wait(QueueDone) => job.(pc := Releasing(Broken(QueueClosed)))
    case Wait(Proceed) =>
      var res := job.result.value;
      Return(c, job.(result := None), if res == Fail(DeadlineExceeded) then TimedOut else FromHandler(res))
    case Release => Return(c, job.(released := true), job.pc.answer)
  }

  function HandleStep(c: Config, s: State, j: JobId, job: Job, act: HandleAct): State
    requires HandleEnabled(c, s, job, act)
  {
    var r := job.req.Lane();
    var s' := Put(s, j, HandleJob(c, s, job, act));
    match act
    case Acquire(Proceed) =>
      s'.(slots := s.slots + 1, lanes := s.lanes[r := s.lanes[r].(spawned := s.lanes[r].spawned + [j])])
    case FreeWorker => s'.(slots := if job.slotReleased then s.slots else s.slots - 1)
    case Free =>
      s'.(tokens := if job.released then s.tokens else s.tokens - 1,
          lanes := s.lanes[r := s.lanes[r].(pc := Idle)])
    case _ => s'
  }

  function HandleJob(c: Config, s: State, job: Job, act: HandleAct): (job': Job)
    requires HandleEnabled(c, s, job, act)
    ensures job'.req == job.req && job'.ctx == job.ctx && job'.pc == job.pc && job'.accepted == job.accepted
    ensures job'.admitted == job.admitted && job'.succeeded == job.succeeded
    ensures job'.worker == job.worker || (job.handle.Acquiring? && job'.worker.Looking?)
  {
    match act
    case Check => job.(handle := if job.ctx.Ended? then Sending(Fail(job.ctx.err)) else Acquiring)
    case Acquire(CtxDone) => job.(handle := Sending(Fail(job.ctx.err)))
    case Acquire(QueueDone) => job.(handle := Sending(Fail(QueueClosed)))
    case Acquire(Proceed) => job.(handle := Awaiting, worker := Looking)
    case Await(CtxDone) => job.(handle := FreeingWorker)
    case Await(Proceed) => job.(handle := Sending(job.inner.value), inner := None)
    case FreeWorker => job.(handle := Sending(Fail(job.ctx.err)), slotReleased := true)
    case Send => job.(handle := Freeing, result := Some(job.handle.res))
    case Free => job.(handle := Handled, released := true)
  }

  /** The worker goroutine: `IdempotentCommandDispatcher.Dispatch` over the registered handler. The store is
  another process, so what it answers is any answer; only the in-memory records are this machine's state. */
  function WorkerStep(c: Config, s: State, j: JobId, job: Job, act: WorkerAct): State
    requires WorkerEnabled(s, job, act)
  {
    var s' := Put(s, j, WorkerJob(c, job, act, Get(s.records, job.req.Key())));
    match act
    case Remember => s'.(records := s.records[job.req.Key() := Record(job.req.payload, job.worker.resp)])
    case FreeSlot => s'.(slots := if job.slotReleased then s.slots else s.slots - 1)
    case _ => s'
  }

  /** `known` is the in-memory record of the request's key, read under the dispatcher's mutex. */
  function WorkerJob(c: Config, job: Job, act: WorkerAct, known: Option<Record>): (job': Job)
    requires WorkerReady(job, act)
    ensures job'.req == job.req && job'.ctx == job.ctx && job'.pc == job.pc && job'.handle == job.handle
    ensures job'.admitted == job.admitted && job'.accepted == job.accepted && job'.released == job.released
    ensures job'.result == job.result && !job'.worker.NoWorker?
  {
    match act
    case HashFails(err) => job.(worker := Delivering(Fail(err)))
    case Look =>
      job.(worker :=
        if !job.req.Keyed() then Executing
        else if known.Some? then Delivering(Ok(Replay(job.req, known.value)))
        else if c.store then Fetching else Executing)
    case Fetch(Miss) => job.(worker := Executing)
    case Fetch(Found(record)) =>
      job.(worker :=
        if record.payload == job.req.payload then Remembering(record.resp, false)
        else Delivering(Ok(Conflict(job.req))))
    case Fetch(StoreError(err)) => job.(worker := Delivering(Fail(err)))
    case Execute(Ok(resp)) =>
      job.(succeeded := Some(resp),
           worker := if job.req.Keyed() then Remembering(resp, true) else Delivering(Ok(resp)))
    case Execute(Fail(err)) => job.(worker := Delivering(Fail(err)))
    case Remember =>
      var resp := job.worker.resp;
      job.(worker := if job.worker.executed && c.store then Storing(resp) else Delivering(Ok(resp)))
    case Store(None) => job.(worker := Delivering(Ok(job.worker.resp)))
    case Store(Some(err)) => job.(worker := Delivering(Fail(err)))
    case Deliver => job.(worker := FreeingSlot(job.worker.res), inner := Some(job.worker.res))
    case FreeSlot => job.(worker := Exited(job.worker.res), slotReleased := true)
  }

  /** What the dispatcher answers for a key it has a record of. */
  function Replay(req: Request, record: Record): Response {
    if record.payload == req.payload then record.resp else Conflict(req)
  }

  /** The records after an action of a job with this key. */
  function RecordsAfter(job: Job, act: WorkerAct, key: string, records: map<string, Record>): map<string, Record>
    requires WorkerReady(job, act)
  {
    if act.Remember? then records[key := Record(job.req.payload, job.worker.resp)] else records
  }

  /** What an action of the worker does to the machine, but for the worker slots. */
  lemma ActIsStep(c: Config, s: State, j: JobId, act: WorkerAct)
    requires j in s.jobs && WorkerReady(s.jobs[j], act) && !act.FreeSlot?
    ensures var job, key := s.jobs[j], s.jobs[j].req.Key();
            && Enabled(c, s, Worker(j, act))
            && Apply(c, s, Worker(j, act)) == s.(jobs := s.jobs[j := WorkerJob(c, job, act, Get(s.records, key))],
                                                 records := RecordsAfter(job, act, key, s.records))
  {
  }

  ghost predicate StepAt(c: Config, states: seq<State>, steps: seq<Step>, i: nat)
    requires |states| == |steps| + 1 && i < |steps|
  {
    Enabled(c, states[i], steps[i]) && states[i + 1] == Apply(c, states[i], steps[i])
  }

  ghost predicate IsRun(c: Config, states: seq<State>, steps: seq<Step>) {
    && |states| == |steps| + 1
    && states[0] == INIT
    && forall i :: 0 <= i < |steps| ==> StepAt(c, states, steps, i)
  }

  /** A run goes on with any enabled step. */
  lemma Extend(c: Config, states: seq<State>, steps: seq<Step>, step: Step)
      returns (states': seq<State>, steps': seq<Step>)
    requires IsRun(c, states, steps) && Enabled(c, Last(states), step)
    ensures IsRun(c, states', steps')
    ensures states' == states + [Apply(c, Last(states), step)] && steps' == steps + [step]
  {
    states', steps' := states + [Apply(c, Last(states), step)], steps + [step];
    forall i | 0 <= i < |steps'|
      ensures StepAt(c, states', steps', i)
    {
      assert i < |steps| ==> StepAt(c, states, steps, i);
    }
  }
}
