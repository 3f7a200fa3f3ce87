/** Where the design document of the queue promises more than the code does: a run that shows it, and for every run
what holds instead. */
module RequestQueueLimits {
  import opened Options
  import opened Counting
  import opened Subsequences
  import opened RequestQueue
  import opened RequestQueueSafety

  // ---------- driving requests ----------

  /** What Configure makes sure of. */
  predicate Configured(c: Config) {
    c.workers > 0 && c.capacity > 0 && c.roleCapacity > 0
  }

  function LaneOf(s: State, r: int): Lane {
    if r in s.lanes then s.lanes[r] else Lane([], Idle, [], [], [])
  }

  /** The lane of a role, when there is one, waits for work. */
  predicate LaneWaits(s: State, r: int) {
    LaneOf(s, r).pc.Idle? && LaneOf(s, r).queue == []
  }

  function Queued(req: Request): Job {
    NewJob(req).(pc := Waiting, admitted := true, accepted := true)
  }

  /** The queue has room for the request. */
  predicate Admits(c: Config, s: State, j: JobId, req: Request) {
    j !in s.jobs && s.tokens < c.capacity && |LaneOf(s, req.Lane()).queue| < c.roleCapacity
  }

  /** And a worker is free and the request's lane waits. */
  predicate Room(c: Config, s: State, j: JobId, req: Request) {
    Admits(c, s, j, req) && s.slots < c.workers && LaneWaits(s, req.Lane())
  }

  ghost predicate OtherLanesSame(s: State, s': State, r: int) {
    forall q :: q != r ==> (q in s.lanes <==> q in s'.lanes) && (q in s.lanes ==> s'.lanes[q] == s.lanes[q])
  }

  lemma Arrive(c: Config, states: seq<State>, steps: seq<Step>, j: JobId, req: Request)
      returns (states': seq<State>, steps': seq<Step>)
    requires IsRun(c, states, steps) && Admits(c, Last(states), j, req)
    ensures IsRun(c, states', steps') && states <= states'
    ensures var s, s', r := Last(states), Last(states'), req.Lane();
            && s'.jobs == s.jobs[j := Queued(req)] && s'.records == s.records && s'.closed == s.closed
            && s'.tokens == s.tokens + 1 && s'.slots == s.slots
            && r in s'.lanes && s'.lanes[r].pc == LaneOf(s, r).pc && s'.lanes[r].queue == LaneOf(s, r).queue + [j]
            && OtherLanesSame(s, s', r)
  {
    states', steps' := Extend(c, states, steps, Call(j, req));
    states', steps' := Extend(c, states', steps', Caller(j, Enter(Proceed)));
    states', steps' := Extend(c, states', steps', Caller(j, FindLane));
    states', steps' := Extend(c, states', steps', Caller(j, Queue(Proceed)));
  }

  /** A worker is started for a job that was taken. */
  lemma StartWorker(c: Config, states: seq<State>, steps: seq<Step>, j: JobId)
      returns (states': seq<State>, steps': seq<Step>)
    requires IsRun(c, states, steps)
    requires var s := Last(states);
             && j in s.jobs && s.jobs[j].handle.Checking? && s.jobs[j].ctx.Live? && s.jobs[j].req.Lane() in s.lanes
             && s.slots < c.workers
    ensures IsRun(c, states', steps') && states <= states'
    ensures var s, s', r := Last(states), Last(states'), Last(states).jobs[j].req.Lane();
            && s'.jobs == s.jobs[j := s.jobs[j].(handle := Awaiting, worker := Looking)] && s'.records == s.records
            && s'.tokens == s.tokens && s'.slots == s.slots + 1 && s'.closed == s.closed
            && s'.lanes == s.lanes[r := s.lanes[r].(spawned := s.lanes[r].spawned + [j])]
  {
    states', steps' := Extend(c, states, steps, Handler(j, Check));
    states', steps' := Extend(c, states', steps', Handler(j, Acquire(Proceed)));
  }

  /** A lane that waits takes the job at its head and starts a worker for it. */
  lemma Serve(c: Config, states: seq<State>, steps: seq<Step>, r: int)
      returns (states': seq<State>, steps': seq<Step>)
    requires IsRun(c, states, steps)
    requires var s := Last(states);
             && r in s.lanes && s.lanes[r].pc.Idle? && s.lanes[r].queue != [] && s.slots < c.workers
             && s.lanes[r].queue[0] in s.jobs && s.jobs[s.lanes[r].queue[0]].ctx.Live?
             && s.jobs[s.lanes[r].queue[0]].req.Lane() == r
    ensures IsRun(c, states', steps') && states <= states'
    ensures var s, s' := Last(states), Last(states');
            var j := s.lanes[r].queue[0];
            && s'.jobs == s.jobs[j := s.jobs[j].(handle := Awaiting, worker := Looking)] && s'.records == s.records
            && s'.tokens == s.tokens && s'.slots == s.slots + 1 && s'.closed == s.closed
            && r in s'.lanes && s'.lanes[r].queue == s.lanes[r].queue[1..]
            && s'.lanes[r].spawned == s.lanes[r].spawned + [j] && OtherLanesSame(s, s', r)
  {
    states', steps' := Extend(c, states, steps, LaneTake(r));
    states', steps' := StartWorker(c, states', steps', Last(states).lanes[r].queue[0]);
  }

  /** In any run of any configuration, closed or not: a new request for which there is room can be driven to its
  handler. */
  lemma Drive(c: Config, states: seq<State>, steps: seq<Step>, j: JobId, req: Request)
      returns (states': seq<State>, steps': seq<Step>)
    requires IsRun(c, states, steps) && Room(c, Last(states), j, req)
    ensures IsRun(c, states', steps') && states <= states'
    ensures var s, s', r := Last(states), Last(states'), req.Lane();
            && s'.jobs == s.jobs[j := Queued(req).(handle := Awaiting, worker := Looking)] && s'.records == s.records
            && s'.tokens == s.tokens + 1 && s'.slots == s.slots + 1 && s'.closed == s.closed
            && r in s'.lanes && s'.lanes[r].queue == [] && OtherLanesSame(s, s', r)
  {
    states', steps' := Arrive(c, states, steps, j, req);
    states', steps' := Serve(c, states', steps', req.Lane());
  }

  /** After the deadline handle gives the job up while its worker keeps running. */
  lemma Abandon(c: Config, states: seq<State>, steps: seq<Step>, j: JobId, req: Request)
      returns (states': seq<State>, steps': seq<Step>)
    requires IsRun(c, states, steps) && c.timeout
    requires var s := Last(states);
             && j in s.jobs && s.jobs[j] == Queued(req).(handle := Awaiting, worker := Looking)
             && s.tokens > 0 && s.slots > 0 && req.Lane() in s.lanes && s.lanes[req.Lane()].queue == []
    ensures IsRun(c, states', steps') && states <= states'
    ensures var s, s' := Last(states), Last(states');
            && s'.jobs.Keys == s.jobs.Keys && s'.jobs[j].worker.Running() && s'.jobs[j].req == req
            && (forall k :: k in s.jobs && k != j ==> s'.jobs[k] == s.jobs[k])
            && s'.tokens == s.tokens - 1 && s'.slots == s.slots - 1 && LaneWaits(s', req.Lane())
  {
    states', steps' := Extend(c, states, steps, DeadlineFires(j));
    states', steps' := Extend(c, states', steps', Handler(j, Await(CtxDone)));
    states', steps' := Extend(c, states', steps', Handler(j, FreeWorker));
    states', steps' := Extend(c, states', steps', Handler(j, Send));
    states', steps' := Extend(c, states', steps', Handler(j, Free));
  }

  // ---------- one role's requests run one after the other ----------

  /** The jobs numbered below `n` are all there are, and each runs the request. */
  ghost predicate AllRun(s: State, n: nat, req: Request) {
    s.jobs.Keys == Below(n) && forall j :: j in s.jobs ==> s.jobs[j].req == req && s.jobs[j].worker.Running()
  }

  lemma {:induction false} PileUp(c: Config, req: Request, n: nat) returns (states: seq<State>, steps: seq<Step>)
    requires Configured(c) && c.timeout
    ensures IsRun(c, states, steps) && AllRun(Last(states), n, req)
    ensures Last(states).tokens == Last(states).slots == 0 && LaneWaits(Last(states), req.Lane())
  {
    if n == 0 {
      states, steps := [INIT], [];
    } else {
      states, steps := PileUp(c, req, n - 1);
      var s := Last(states);
      states, steps := Drive(c, states, steps, n - 1, req);
      states, steps := Abandon(c, states, steps, n - 1, req);
      forall j | j in Last(states).jobs
        ensures Last(states).jobs[j].req == req && Last(states).jobs[j].worker.Running()
      {
        assert j != n - 1 ==> j in s.jobs;
      }
    }
  }

  /** With a deadline they can overlap, in every configuration, for every request and any number of times; how far
  is what AllButLatestAreOver says. */
  lemma HandlersOfOneRoleMayOverlap(c: Config, req: Request, n: nat) returns (states: seq<State>, steps: seq<Step>)
    requires Configured(c) && c.timeout
    ensures IsRun(c, states, steps) && AllRun(Last(states), n, req)
    ensures Count(Last(states).jobs, Unfinished) == n
  {
    states, steps := PileUp(c, req, n);
    assert Matching(Last(states).jobs, Unfinished) == Below(n) by {
      RunKeepsInv(c, states, steps, |steps|);
      forall j | j in Last(states).jobs
        ensures Unfinished(Last(states).jobs[j])
      {
        assert JobOk(Last(states).jobs[j]) && Placed(Last(states), j, Last(states).jobs[j]);
      }
    }
  }

  // ---------- nothing runs after Close ----------

  /** However the queue is configured, a request that arrives after Close can be admitted, queued and run. */
  lemma RequestMayRunAfterClose(workers: int, capacity: int, roleCapacity: int, requestTimeout: int, store: bool,
                                req: Request) returns (states: seq<State>, steps: seq<Step>)
    ensures IsRun(Configure(workers, capacity, roleCapacity, requestTimeout, store), states, steps) && |states| > 1
    ensures states[1].closed && states[1].jobs == map[]
    ensures 0 in Last(states).jobs && Last(states).jobs[0].req == req && Last(states).jobs[0].worker.Running()
  {
    var c := Configure(workers, capacity, roleCapacity, requestTimeout, store);
    states, steps := Extend(c, [INIT], [], Close);
    var closed := states;
    states, steps := Drive(c, states, steps, 0, req);
    assert states[1] == closed[1];
  }

  /** In any run, closed or not, a lane that has not stopped and is not busy can start the job at its head, if the
  job's context is live and a worker is free. */
  lemma IdleLaneStillRuns(c: Config, states: seq<State>, steps: seq<Step>, r: int)
      returns (states': seq<State>, steps': seq<Step>)
    requires IsRun(c, states, steps)
    requires var s := Last(states);
             && r in s.lanes && !s.lanes[r].pc.Stopped? && !s.lanes[r].pc.Busy? && s.lanes[r].queue != []
             && s.slots < c.workers
             && (s.lanes[r].queue[0] in s.jobs ==> s.jobs[s.lanes[r].queue[0]].ctx.Live?)
    ensures IsRun(c, states', steps') && states <= states'
    ensures var s, s' := Last(states), Last(states');
            var j := s.lanes[r].queue[0];
            && s'.closed == s.closed && j in s'.jobs && s'.jobs[j].worker.Running()
            && r in s'.lanes && s'.lanes[r].spawned == s.lanes[r].spawned + [j]
  {
    var s := Last(states);
    assert s.lanes[r].queue[0] in s.jobs && s.jobs[s.lanes[r].queue[0]].req.Lane() == r by {
      RunKeepsInv(c, states, steps, |steps|);
      assert LaneOk(c, s, r, s.lanes[r]) && s.lanes[r].queue[0] in s.lanes[r].queue;
    }
    states', steps' := Serve(c, states, steps, r);
  }

  /** The lane that an action of handle changes is busy with the job. */
  lemma HandleLeavesStopped(c: Config, s: State, j: JobId, act: HandleAct, r: int)
    requires j in s.jobs && Placed(s, j, s.jobs[j]) && HandleEnabled(c, s, s.jobs[j], act)
    requires r in s.lanes && s.lanes[r].pc.Stopped?
    ensures r in HandleStep(c, s, j, s.jobs[j], act).lanes && HandleStep(c, s, j, s.jobs[j], act).lanes[r] == s.lanes[r]
  {
  }

  lemma CallerLeavesStopped(c: Config, s: State, j: JobId, act: CallerAct, r: int)
    requires j in s.jobs && CallerEnabled(c, s, s.jobs[j], act) && r in s.lanes
    ensures var lanes := CallerStep(c, s, j, s.jobs[j], act).lanes;
            && r in lanes && lanes[r].pc == s.lanes[r].pc
            && lanes[r].taken == s.lanes[r].taken && lanes[r].spawned == s.lanes[r].spawned
  {
  }

  lemma StopIsKept(c: Config, s: State, step: Step, r: int)
    requires LanesOk(c, s) && Enabled(c, s, step) && r in s.lanes && s.lanes[r].pc.Stopped?
    ensures var s' := Apply(c, s, step);
            r in s'.lanes && s'.lanes[r].pc.Stopped?
            && s'.lanes[r].taken == s.lanes[r].taken && s'.lanes[r].spawned == s.lanes[r].spawned
  {
    match step
    case Call(_, _) =>
    case DeadlineFires(_) =>
    case ParentEnds(_, _) =>
    case Close =>
    case LaneStop(_) =>
    case LaneTake(_) =>
    case Caller(j, act) => CallerLeavesStopped(c, s, j, act, r);
    case Handler(j, act) => HandleLeavesStopped(c, s, j, act, r);
    case Worker(_, _) =>
  }

  /** Once a lane has stopped it takes and starts nothing ever after. */
  lemma {:induction false} StoppedLaneIsFinal(c: Config, states: seq<State>, steps: seq<Step>, i: nat, k: nat, r: int)
    requires IsRun(c, states, steps) && i <= k < |states| && r in states[i].lanes && states[i].lanes[r].pc.Stopped?
    ensures r in states[k].lanes && states[k].lanes[r].pc.Stopped?
    ensures states[k].lanes[r].taken == states[i].lanes[r].taken
    ensures states[k].lanes[r].spawned == states[i].lanes[r].spawned
    decreases k
  {
    if i < k {
      StoppedLaneIsFinal(c, states, steps, i, k - 1, r);
      var s, step := states[k - 1], steps[k - 1];
      assert LanesOk(c, s) by { RunKeepsInv(c, states, steps, k - 1); }
      assert Enabled(c, s, step) && states[k] == Apply(c, s, step) by { assert StepAt(c, states, steps, k - 1); }
      StopIsKept(c, s, step, r);
    }
  }

  // ---------- capacity bounds what is queued or running ----------

  /** In a lane, in handle, or with a worker that is still running. */
  predicate Unfinished(job: Job) {
    job.accepted && (!job.handle.Handled? || job.worker.Running())
  }

  predicate IsLive(job: Job) { job.ctx.Live? }

  predicate LiveUnfinished(job: Job) { Unfinished(job) && IsLive(job) }

  predicate EndedUnfinished(job: Job) { Unfinished(job) && !IsLive(job) }

  /** A token comes back early only for a job whose context has ended, or, without a deadline, after Close. */
  predicate Kept(c: Config, closed: bool, job: Job) {
    && (job.accepted && job.released && !job.handle.Handled? ==> job.ctx.Ended? || (closed && !c.timeout))
    && (job.accepted && job.pc.Releasing? ==> job.ctx.Ended? || closed)
  }

  ghost predicate AllKept(c: Config, s: State) {
    forall j :: j in s.jobs ==> Kept(c, s.closed, s.jobs[j])
  }

  lemma CallerKeeps(c: Config, s: State, job: Job, act: CallerAct)
    requires CallerEnabled(c, s, job, act) && CallerOk(job) && Kept(c, s.closed, job)
    ensures Kept(c, s.closed, CallerJob(c, s, job, act))
  {
  }

  lemma HandleKeeps(c: Config, s: State, job: Job, act: HandleAct)
    requires HandleEnabled(c, s, job, act) && Kept(c, s.closed, job)
    ensures Kept(c, s.closed, HandleJob(c, s, job, act))
  {
  }

  /** A step that changes one job. */
  lemma OneJobKept(c: Config, s: State, s': State, j: JobId, job': Job)
    requires AllKept(c, s) && s'.jobs == s.jobs[j := job'] && (s.closed ==> s'.closed) && Kept(c, s'.closed, job')
    ensures AllKept(c, s')
  {
    forall k | k in s'.jobs
      ensures Kept(c, s'.closed, s'.jobs[k])
    {
      assert k != j ==> Kept(c, s.closed, s.jobs[k]);
    }
  }

  lemma CallerStepKeeps(c: Config, s: State, j: JobId, act: CallerAct)
    requires j in s.jobs && CallerEnabled(c, s, s.jobs[j], act) && JobOk(s.jobs[j]) && AllKept(c, s)
    ensures AllKept(c, CallerStep(c, s, j, s.jobs[j], act))
  {
    CallerKeeps(c, s, s.jobs[j], act);
    OneJobKept(c, s, CallerStep(c, s, j, s.jobs[j], act), j, CallerJob(c, s, s.jobs[j], act));
  }

  lemma HandleStepKeeps(c: Config, s: State, j: JobId, act: HandleAct)
    requires j in s.jobs && HandleEnabled(c, s, s.jobs[j], act) && AllKept(c, s)
    ensures AllKept(c, HandleStep(c, s, j, s.jobs[j], act))
  {
    HandleKeeps(c, s, s.jobs[j], act);
    OneJobKept(c, s, HandleStep(c, s, j, s.jobs[j], act), j, HandleJob(c, s, s.jobs[j], act));
  }

  lemma WorkerStepKeeps(c: Config, s: State, j: JobId, act: WorkerAct)
    requires j in s.jobs && WorkerEnabled(s, s.jobs[j], act) && AllKept(c, s)
    ensures AllKept(c, WorkerStep(c, s, j, s.jobs[j], act))
  {
    OneJobKept(c, s, WorkerStep(c, s, j, s.jobs[j], act), j,
               WorkerJob(c, s.jobs[j], act, Get(s.records, s.jobs[j].req.Key())));
  }

  lemma StepKeeps(c: Config, s: State, step: Step)
    requires JobsOk(s) && LanesOk(c, s) && Enabled(c, s, step) && AllKept(c, s)
    ensures AllKept(c, Apply(c, s, step))
  {
    var s' := Apply(c, s, step);
    match step
    case Call(j, _) => OneJobKept(c, s, s', j, s'.jobs[j]);
    case DeadlineFires(j) => OneJobKept(c, s, s', j, s'.jobs[j]);
    case ParentEnds(j, _) => OneJobKept(c, s, s', j, s'.jobs[j]);
    case Close => assert forall j :: j in s.jobs ==> Kept(c, s.closed, s.jobs[j]);
    case LaneStop(_) => assert forall j :: j in s.jobs ==> Kept(c, s.closed, s.jobs[j]);
    case LaneTake(r) =>
      HeadIsNotTaken(c, s, r);
      OneJobKept(c, s, s', s.lanes[r].queue[0], s'.jobs[s.lanes[r].queue[0]]);
    case Caller(j, act) => CallerStepKeeps(c, s, j, act);
    case Handler(j, act) => HandleStepKeeps(c, s, j, act);
    case Worker(j, act) => WorkerStepKeeps(c, s, j, act);
  }

  lemma RunStepKeeps(c: Config, states: seq<State>, steps: seq<Step>, n: nat)
    requires IsRun(c, states, steps) && n < |steps| && AllKept(c, states[n])
    ensures AllKept(c, states[n + 1])
  {
    var s, step := states[n], steps[n];
    assert JobsOk(s) && LanesOk(c, s) by { RunKeepsInv(c, states, steps, n); }
    assert Enabled(c, s, step) && states[n + 1] == Apply(c, s, step) by { assert StepAt(c, states, steps, n); }
    StepKeeps(c, s, step);
  }

  lemma {:induction false} RunKeeps(c: Config, states: seq<State>, steps: seq<Step>, i: nat)
    requires IsRun(c, states, steps) && i < |states|
    ensures AllKept(c, states[i])
  {
    if i > 0 {
      RunKeeps(c, states, steps, i - 1);
      RunStepKeeps(c, states, steps, i - 1);
    }
  }

  /** With a deadline always, and without one until Close: what is queued or running with a live context fits the
  capacity, and the rest has an ended context. */
  lemma CapacityBoundsLiveJobs(c: Config, states: seq<State>, steps: seq<Step>, i: nat)
    requires IsRun(c, states, steps) && i < |states| && (c.timeout || !states[i].closed)
    ensures forall j :: j in states[i].jobs && LiveUnfinished(states[i].jobs[j]) ==> IsOpen(states[i].jobs[j])
    ensures Count(states[i].jobs, LiveUnfinished) <= states[i].tokens <= c.capacity
    ensures Count(states[i].jobs, Unfinished) <= states[i].tokens + Count(states[i].jobs, EndedUnfinished)
  {
    var s := states[i];
    RunKeepsInv(c, states, steps, i);
    RunKeeps(c, states, steps, i);
    forall j | j in s.jobs && LiveUnfinished(s.jobs[j])
      ensures IsOpen(s.jobs[j])
    {
      assert JobOk(s.jobs[j]) && Kept(c, s.closed, s.jobs[j]);
    }
    CountMonotone(s.jobs, LiveUnfinished, IsOpen);
    CountSplit(s.jobs, Unfinished, LiveUnfinished, EndedUnfinished, IsLive);
  }

  /** A request of a role of its own. */
  function OfRole(n: nat): Request {
    Request(0, n + 1, 0, 0, "")
  }

  /** The jobs below `n`, which are all there are, wait in their lanes. */
  ghost predicate JobsWait(jobs: map<JobId, Job>, n: nat) {
    && (forall j :: j in jobs <==> j in Below(n))
    && (forall j :: j in jobs ==> jobs[j].accepted && jobs[j].handle.NotTaken?)
  }

  /** And no lane but those of their roles is open. */
  ghost predicate AllWait(s: State, n: nat) {
    JobsWait(s.jobs, n) && forall r :: r in s.lanes ==> r <= n
  }

  lemma WaitingIsCounted(s: State, n: nat)
    requires AllWait(s, n)
    ensures Count(s.jobs, Unfinished) == n
  {
    assert Matching(s.jobs, Unfinished) == Below(n);
  }

  /** One job, and only it, gives its token back and stays in its lane. */
  ghost predicate OnlyLeft(s: State, s': State, j: JobId) {
    && j in s.jobs && s'.jobs.Keys == s.jobs.Keys && (forall k :: k in s.jobs && k != j ==> s'.jobs[k] == s.jobs[k])
    && s'.jobs[j].accepted && s'.jobs[j].handle.NotTaken?
    && s'.tokens == s.tokens - 1 && s'.lanes == s.lanes && s'.closed == s.closed
  }

  lemma OneMoreJob(jobs: map<JobId, Job>, jobs': map<JobId, Job>, n: nat)
    requires JobsWait(jobs, n) && jobs'.Keys == jobs.Keys + {n} && jobs'[n].accepted && jobs'[n].handle.NotTaken?
    requires forall j :: j in jobs && j != n ==> jobs'[j] == jobs[j]
    ensures JobsWait(jobs', n + 1) && forall j :: j in jobs ==> jobs'[j] == jobs[j]
  {
    forall j
      ensures j in jobs' <==> j in Below(n + 1)
    {
      assert j in jobs' <==> j in jobs || j == n;
    }
  }

  lemma LeftJobs(s: State, mid: State, s': State, n: nat, job: Job)
    requires n !in s.jobs && mid.jobs == s.jobs[n := job] && OnlyLeft(mid, s', n)
    ensures s'.jobs.Keys == s.jobs.Keys + {n} && forall j :: j in s.jobs ==> s'.jobs[j] == s.jobs[j]
  {
  }

  lemma OneMoreWaits(s: State, mid: State, s': State, n: nat)
    requires AllWait(s, n) && n !in s.jobs && mid.jobs == s.jobs[n := Queued(OfRole(n))]
    requires OtherLanesSame(s, mid, n + 1) && OnlyLeft(mid, s', n)
    ensures AllWait(s', n + 1) && forall j :: j in s.jobs ==> s'.jobs[j] == s.jobs[j]
  {
    LeftJobs(s, mid, s', n, Queued(OfRole(n)));
    OneMoreJob(s.jobs, s'.jobs, n);
    forall r | r in s'.lanes
      ensures r <= n + 1
    {
      assert r != n + 1 ==> r in s.lanes;
    }
  }

  /** The caller times out and gives its token back; the job stays in its lane. */
  lemma TimeOut(c: Config, states: seq<State>, steps: seq<Step>, j: JobId, req: Request)
      returns (states': seq<State>, steps': seq<Step>)
    requires IsRun(c, states, steps) && c.timeout
    requires j in Last(states).jobs && Last(states).jobs[j] == Queued(req) && Last(states).tokens > 0
    ensures IsRun(c, states', steps') && states <= states' && OnlyLeft(Last(states), Last(states'), j)
  {
    states', steps' := Extend(c, states, steps, DeadlineFires(j));
    states', steps' := Extend(c, states', steps', Caller(j, Wait(CtxDone)));
    states', steps' := Extend(c, states', steps', Caller(j, Release));
  }

  /** The design says the capacity bounds everything queued or running. With a deadline any number of timed-out
  requests can be in their lanes, in every configuration. */
  lemma {:induction false} CapacityMayBeExceeded(c: Config, n: nat) returns (states: seq<State>, steps: seq<Step>)
    requires Configured(c) && c.timeout
    ensures IsRun(c, states, steps) && AllWait(Last(states), n) && Last(states).tokens == 0
    ensures Count(Last(states).jobs, Unfinished) == n
  {
    if n == 0 {
      states, steps := [INIT], [];
    } else {
      states, steps := CapacityMayBeExceeded(c, n - 1);
      var s := Last(states);
      states, steps := Arrive(c, states, steps, n - 1, OfRole(n - 1));
      var mid := Last(states);
      states, steps := TimeOut(c, states, steps, n - 1, OfRole(n - 1));
      OneMoreWaits(s, mid, Last(states), n - 1);
    }
    WaitingIsCounted(Last(states), n);
  }

  /** After Close the caller leaves with its token; without a deadline the job waits on with a live context. */
  lemma LeaveAfterClose(c: Config, states: seq<State>, steps: seq<Step>, j: JobId, req: Request)
      returns (states': seq<State>, steps': seq<Step>)
    requires IsRun(c, states, steps) && !c.timeout && Last(states).closed && Last(states).tokens > 0
    requires j in Last(states).jobs && Last(states).jobs[j] == Queued(req)
    ensures IsRun(c, states', steps') && states <= states' && OnlyLeft(Last(states), Last(states'), j)
    ensures Last(states').jobs[j].ctx.Live?
  {
    states', steps' := Extend(c, states, steps, Caller(j, Wait(QueueDone)));
    states', steps' := Extend(c, states', steps', Caller(j, Release));
  }

  ghost predicate AllLive(s: State) {
    forall j :: j in s.jobs ==> s.jobs[j].ctx.Live?
  }

  lemma LiveIsCounted(s: State, n: nat)
    requires AllWait(s, n) && AllLive(s)
    ensures Count(s.jobs, LiveUnfinished) == n
  {
    assert Matching(s.jobs, LiveUnfinished) == Below(n);
  }

  /** Without a deadline Close alone is enough for any number, and every context is live: the callers leave with
  their tokens while their jobs wait on. */
  lemma {:induction false} CloseMayExceedCapacity(c: Config, n: nat) returns (states: seq<State>, steps: seq<Step>)
    requires Configured(c) && !c.timeout
    ensures IsRun(c, states, steps) && AllWait(Last(states), n) && Last(states).tokens == 0 && Last(states).closed
    ensures AllLive(Last(states)) && Count(Last(states).jobs, LiveUnfinished) == n
  {
    if n == 0 {
      states, steps := Extend(c, [INIT], [], Close);
    } else {
      states, steps := CloseMayExceedCapacity(c, n - 1);
      var s := Last(states);
      states, steps := Arrive(c, states, steps, n - 1, OfRole(n - 1));
      var mid := Last(states);
      states, steps := LeaveAfterClose(c, states, steps, n - 1, OfRole(n - 1));
      OneMoreWaits(s, mid, Last(states), n - 1);
    }
    LiveIsCounted(Last(states), n);
  }
}
