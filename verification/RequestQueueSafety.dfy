/** What every step of the command queue keeps, and what follows for every run. */
module RequestQueueSafety {
  import opened Options
  import opened Counting
  import opened RequestQueue
  import opened Subsequences

  // ---------- one job ----------

  /** The result a caller may be handed: its own worker's, or the error that made handle give up. */
  predicate Genuine(job: Job, res: Result) {
    || (job.worker.Finished() && job.worker.res == res)
    || (res.Fail? && (res.err == QueueClosed || job.ctx == Ended(res.err)))
  }

  predicate CallerOk(job: Job) {
    && (job.accepted ==> job.admitted)
    && (job.released ==> job.admitted)
    && (job.pc.Entering? ==> !job.admitted)
    && (job.pc.Admitted? || job.pc.Queueing? ==> job.admitted && !job.accepted && !job.released)
    && (job.pc.Waiting? ==> job.accepted)
    && (job.pc.Releasing? ==> job.admitted)
    && (job.pc.Releasing? && job.pc.answer.QueueFull? ==> !job.accepted)
    && (job.pc.Returned? && job.pc.answer.QueueFull? ==> !job.accepted)
    && (job.pc.Releasing? ==> !job.pc.answer.FromHandler?)
    && (job.pc.Returned? && job.pc.answer.FromHandler? ==> Genuine(job, job.pc.answer.res))
    && (job.pc.Returned? && job.admitted && !job.released ==> job.handle.Freeing? || job.handle.Handled?)
  }

  predicate HandleOk(job: Job) {
    && (!job.handle.NotTaken? ==> job.accepted)
    && (job.handle.NotTaken? || job.handle.Checking? || job.handle.Acquiring? ==> job.worker.NoWorker?)
    && (job.handle.Awaiting? || job.handle.FreeingWorker? ==> !job.worker.NoWorker?)
    && (job.handle.FreeingWorker? ==> job.ctx.Ended?)
    && (job.handle.Sending? ==> Genuine(job, job.handle.res))
    && (job.result.Some? ==> (job.handle.Freeing? || job.handle.Handled?) && Genuine(job, job.result.value))
    && (job.handle.Handled? ==> job.released)
  }

  predicate WorkerOk(job: Job) {
    && (job.worker.NoWorker? ==> job.inner.None? && !job.slotReleased && job.succeeded.None?)
    && (job.worker.Running() ==> job.inner.None?)
    && (job.inner.Some? ==> job.worker.Finished() && job.worker.res == job.inner.value)
    && (job.handle.Awaiting? && job.worker.Finished() ==> job.inner.Some?)
    && (job.slotReleased ==> job.worker.Exited? || job.ctx.Ended?)
    && (job.slotReleased && job.handle.Awaiting? ==> job.worker.Exited?)
    && (job.worker.Running() ==> job.handle.Awaiting? || job.ctx.Ended?)
  }

  predicate JobOk(job: Job) {
    CallerOk(job) && HandleOk(job) && WorkerOk(job)
  }

  lemma CallerStepKeepsCaller(c: Config, s: State, job: Job, act: CallerAct)
    requires CallerEnabled(c, s, job, act) && JobOk(job)
    ensures CallerOk(CallerJob(c, s, job, act))
  {
  }

  lemma CallerStepKeepsRest(c: Config, s: State, job: Job, act: CallerAct)
    requires CallerEnabled(c, s, job, act) && JobOk(job)
    ensures HandleOk(CallerJob(c, s, job, act)) && WorkerOk(CallerJob(c, s, job, act))
  {
    var job' := CallerJob(c, s, job, act);
    assert job'.handle == job.handle && job'.worker == job.worker && job'.inner == job.inner;
    assert job'.slotReleased == job.slotReleased && job'.succeeded == job.succeeded;
    assert job'.ctx == job.ctx || (job.ctx.Live? && job'.ctx.Ended?);
  }

  lemma HandleStepKeepsJob(c: Config, s: State, job: Job, act: HandleAct)
    requires HandleEnabled(c, s, job, act) && JobOk(job)
    ensures JobOk(HandleJob(c, s, job, act))
  {
  }

  lemma WorkerStepKeepsJob(c: Config, job: Job, act: WorkerAct, known: Option<Record>)
    requires WorkerReady(job, act) && JobOk(job)
    ensures JobOk(WorkerJob(c, job, act, known))
  {
    var job' := WorkerJob(c, job, act, known);
    if !act.Deliver? && !act.FreeSlot? {
      RunningIsEnough(job, job');
    }
  }

  /** While the dispatcher call is running, which phase it is in matters to nothing else of the job. */
  lemma RunningIsEnough(job: Job, job': Job)
    requires JobOk(job) && job.worker.Running() && job'.worker.Running()
    requires job' == job.(worker := job'.worker, succeeded := job'.succeeded)
    ensures JobOk(job')
  {
  }

  // ---------- all jobs and lanes ----------

  predicate IsOpen(job: Job) { job.Open() }

  predicate HoldsSlot(job: Job) { job.HoldsSlot() }

  /** Taken from its lane, no worker started yet. */
  predicate Unspawned(job: Job) { job.handle.Checking? || job.handle.Acquiring? }

  ghost predicate CountsOk(c: Config, s: State) {
    && s.tokens == Count(s.jobs, IsOpen) && s.tokens <= c.capacity
    && s.slots == Count(s.jobs, HoldsSlot) && s.slots <= c.workers
  }

  ghost predicate JobsOk(s: State) {
    forall j :: j in s.jobs ==> JobOk(s.jobs[j])
  }

  ghost predicate InLane(s: State, r: int, j: JobId) {
    j in s.jobs && s.jobs[j].accepted && s.jobs[j].req.Lane() == r
  }

  ghost predicate LaneOk(c: Config, s: State, r: int, lane: Lane) {
    && lane.accepted == lane.taken + lane.queue
    && NoDup(lane.taken) && NoDup(lane.queue) && NoDup(lane.spawned)
    && |lane.queue| <= c.roleCapacity
    && (forall j :: j in lane.taken ==> InLane(s, r, j) && !s.jobs[j].handle.NotTaken?)
    && (forall j :: j in lane.queue ==> InLane(s, r, j) && s.jobs[j].handle.NotTaken?)
    && (forall j :: j in lane.spawned ==> InLane(s, r, j) && !s.jobs[j].worker.NoWorker?)
    && IsSubseq(lane.spawned, lane.taken)
    && (lane.pc.Busy? ==> BusyOk(s, lane, lane.pc.job))
  }

  ghost predicate BusyOk(s: State, lane: Lane, j: JobId) {
    && lane.taken != [] && lane.taken[|lane.taken| - 1] == j
    && j in s.jobs && s.jobs[j].InHandle()
    && (Unspawned(s.jobs[j]) ==> IsSubseq(lane.spawned, lane.taken[..|lane.taken| - 1]))
  }

  /** Where a job stands says where its lane has it. */
  ghost predicate Placed(s: State, j: JobId, job: Job) {
    var r := job.req.Lane();
    && (job.pc.Queueing? || job.accepted ==> r in s.lanes)
    && (job.accepted ==> if job.handle.NotTaken? then j in s.lanes[r].queue else j in s.lanes[r].taken)
    && (job.InHandle() ==> job.accepted && s.lanes[r].pc == Busy(j))
    && (!job.worker.NoWorker? ==> job.accepted && j in s.lanes[r].spawned)
  }

  ghost predicate LanesOk(c: Config, s: State) {
    && (forall r :: r in s.lanes ==> LaneOk(c, s, r, s.lanes[r]))
    && (forall j :: j in s.jobs ==> Placed(s, j, s.jobs[j]))
  }

  ghost predicate Inv(c: Config, s: State) {
    JobsOk(s) && CountsOk(c, s) && LanesOk(c, s)
  }

  // ---------- lanes, step by step ----------

  /** A lane whose lists do not hold the changed job. */
  lemma AbsentJob(c: Config, s: State, s': State, q: int, lane: Lane, j: JobId, job': Job)
    requires LaneOk(c, s, q, lane) && s'.jobs == s.jobs[j := job']
    requires j !in lane.taken && j !in lane.queue && j !in lane.spawned
    ensures LaneOk(c, s', q, lane)
  {
    assert lane.pc.Busy? ==> lane.pc.job in lane.taken;
  }

  /** A lane the changed job does not belong to. */
  lemma OtherLane(c: Config, s: State, s': State, q: int, lane: Lane, j: JobId, job': Job)
    requires LaneOk(c, s, q, lane) && s'.jobs == s.jobs[j := job'] && !InLane(s, q, j)
    ensures LaneOk(c, s', q, lane)
  {
    AbsentJob(c, s, s', q, lane, j, job');
  }

  /** Nothing a lane can see of the job changes. */
  predicate Quiet(job: Job, job': Job) {
    && job'.req == job.req && job'.accepted == job.accepted
    && job'.handle.NotTaken? == job.handle.NotTaken?
    && job'.handle.Handled? == job.handle.Handled?
    && job'.worker.NoWorker? == job.worker.NoWorker?
    && (Unspawned(job') ==> Unspawned(job))
  }

  /** A step that changes one job and no lane, and leaves the job where it is in its lane. */
  lemma QuietKeepsLanes(c: Config, s: State, s': State, j: JobId, job': Job)
    requires LanesOk(c, s) && j in s.jobs && s'.jobs == s.jobs[j := job'] && s'.lanes == s.lanes
    requires Quiet(s.jobs[j], job')
    requires job'.pc.Queueing? ==> s.jobs[j].pc.Queueing? || job'.req.Lane() in s.lanes
    ensures LanesOk(c, s')
  {
    forall r | r in s'.lanes
      ensures LaneOk(c, s', r, s'.lanes[r])
    {
      assert LaneOk(c, s, r, s.lanes[r]);
    }
  }

  lemma CallKeepsLanes(c: Config, s: State, j: JobId, req: Request)
    requires LanesOk(c, s) && j !in s.jobs
    ensures LanesOk(c, Put(s, j, NewJob(req)))
  {
    var s' := Put(s, j, NewJob(req));
    forall r | r in s'.lanes
      ensures LaneOk(c, s', r, s'.lanes[r])
    {
      OtherLane(c, s, s', r, s.lanes[r], j, NewJob(req));
    }
  }

  lemma SameJobs(c: Config, s: State, s': State, r: int, lane: Lane)
    requires LaneOk(c, s, r, lane) && s'.jobs == s.jobs
    ensures LaneOk(c, s', r, lane)
  {
  }

  lemma NewLaneOk(c: Config, s: State, r: int)
    ensures LaneOk(c, s, r, Lane([], Idle, [], [], []))
  {
    var none: seq<JobId> := [];
    assert Selects([], none, none);
  }

  /** Opening a lane changes no other. */
  lemma OpenKeepsLanes(c: Config, s: State, s': State, r: int)
    requires LanesOk(c, s) && s'.jobs == s.jobs && s'.lanes == s.lanes[r := Lane([], Idle, [], [], [])] && r !in s.lanes
    ensures LanesOk(c, s')
  {
    forall q | q in s'.lanes
      ensures LaneOk(c, s', q, s'.lanes[q])
    {
      if q == r {
        NewLaneOk(c, s', r);
      } else {
        SameJobs(c, s, s', q, s.lanes[q]);
      }
    }
  }

  lemma FindLaneKeepsLanes(c: Config, s: State, j: JobId)
    requires LanesOk(c, s) && j in s.jobs && CallerEnabled(c, s, s.jobs[j], FindLane)
    ensures LanesOk(c, CallerStep(c, s, j, s.jobs[j], FindLane))
  {
    var r := s.jobs[j].req.Lane();
    var s' := CallerStep(c, s, j, s.jobs[j], FindLane);
    var mid := s.(lanes := s'.lanes);
    if r in s.lanes {
      assert mid == s;
    } else {
      OpenKeepsLanes(c, s, mid, r);
    }
    QuietKeepsLanes(c, mid, s', j, s'.jobs[j]);
  }

  /** A job that was just sent to the lane. */
  lemma PushedOk(c: Config, s: State, r: int, lane: Lane, j: JobId)
    requires LaneOk(c, s, r, lane) && |lane.queue| < c.roleCapacity
    requires j !in lane.taken && j !in lane.queue && InLane(s, r, j) && s.jobs[j].handle.NotTaken?
    ensures LaneOk(c, s, r, lane.(queue := lane.queue + [j], accepted := lane.accepted + [j]))
  {
    NoDupAppend(lane.queue, j);
    assert lane.taken + lane.queue + [j] == lane.taken + (lane.queue + [j]);
  }

  lemma PushKeepsLanes(c: Config, s: State, j: JobId)
    requires LanesOk(c, s) && j in s.jobs && JobOk(s.jobs[j])
    requires CallerEnabled(c, s, s.jobs[j], Queue(Proceed))
    ensures LanesOk(c, CallerStep(c, s, j, s.jobs[j], Queue(Proceed)))
  {
    var s' := CallerStep(c, s, j, s.jobs[j], Queue(Proceed));
    forall r | r in s'.lanes
      ensures LaneOk(c, s', r, s'.lanes[r])
    {
      var lane := s.lanes[r];
      assert LaneOk(c, s, r, lane) && !InLane(s, r, j);
      OtherLane(c, s, s', r, lane, j, s'.jobs[j]);
      if r == s.jobs[j].req.Lane() {
        PushedOk(c, s', r, lane, j);
      }
    }
    forall k | k in s'.jobs
      ensures Placed(s', k, s'.jobs[k])
    {
      assert Placed(s, k, s.jobs[k]);
    }
  }

  /** A lane without the job at its head. */
  function WithoutHead(lane: Lane): Lane
    requires lane.queue != []
  {
    lane.(queue := lane.queue[1..], accepted := lane.taken + lane.queue[1..])
  }

  lemma WithoutHeadOk(c: Config, s: State, r: int, lane: Lane)
    requires LaneOk(c, s, r, lane) && lane.queue != []
    ensures LaneOk(c, s, r, WithoutHead(lane))
    ensures var j := lane.queue[0]; j !in lane.taken && j !in lane.queue[1..] && j !in lane.spawned
  {
    var j := lane.queue[0];
    assert j in lane.queue;
    assert forall k :: k in lane.queue[1..] ==> k in lane.queue;
    assert j !in lane.taken;
    if j in lane.spawned {
      SelectedIsIn(lane.spawned, lane.taken, j);
    }
  }

  /** A job that was just taken. */
  lemma TakenOk(c: Config, s: State, r: int, lane: Lane, j: JobId)
    requires LaneOk(c, s, r, lane) && j !in lane.taken && InLane(s, r, j) && s.jobs[j].handle.Checking?
    ensures LaneOk(c, s, r, lane.(taken := lane.taken + [j], pc := Busy(j), accepted := lane.taken + [j] + lane.queue))
  {
    SubseqGrow(lane.spawned, lane.taken, j);
    NoDupAppend(lane.taken, j);
    assert (lane.taken + [j])[..|lane.taken|] == lane.taken;
  }

  lemma TakeKeepsLane(c: Config, s: State, r: int)
    requires LanesOk(c, s) && Enabled(c, s, LaneTake(r))
    ensures LaneOk(c, Apply(c, s, LaneTake(r)), r, Apply(c, s, LaneTake(r)).lanes[r])
  {
    var s' := Apply(c, s, LaneTake(r));
    var lane := s.lanes[r];
    var j := lane.queue[0];
    var rest := WithoutHead(lane);
    assert LaneOk(c, s, r, lane) && j in lane.queue;
    WithoutHeadOk(c, s, r, lane);
    AbsentJob(c, s, s', r, rest, j, s'.jobs[j]);
    TakenOk(c, s', r, rest, j);
    assert lane.taken + [j] + lane.queue[1..] == lane.taken + lane.queue;
  }

  lemma TakeKeepsLanes(c: Config, s: State, r: int)
    requires LanesOk(c, s) && Enabled(c, s, LaneTake(r))
    ensures LanesOk(c, Apply(c, s, LaneTake(r)))
  {
    var s' := Apply(c, s, LaneTake(r));
    var j := s.lanes[r].queue[0];
    TakeKeepsLane(c, s, r);
    forall q | q in s'.lanes
      ensures LaneOk(c, s', q, s'.lanes[q])
    {
      if q != r {
        OtherLane(c, s, s', q, s.lanes[q], j, s'.jobs[j]);
      }
    }
    forall k | k in s'.jobs
      ensures Placed(s', k, s'.jobs[k])
    {
      assert Placed(s, k, s.jobs[k]);
    }
  }

  lemma StopKeepsLanes(c: Config, s: State, r: int)
    requires LanesOk(c, s) && Enabled(c, s, LaneStop(r))
    ensures LanesOk(c, Apply(c, s, LaneStop(r)))
  {
    var s' := Apply(c, s, LaneStop(r));
    forall q | q in s'.lanes
      ensures LaneOk(c, s', q, s'.lanes[q])
    {
      assert LaneOk(c, s, q, s.lanes[q]);
    }
  }

  /** The job taken last joins the started ones. */
  lemma SpawnLists(taken: seq<JobId>, spawned: seq<JobId>, j: JobId)
    requires taken != [] && Last(taken) == j && j !in spawned && NoDup(spawned)
    requires IsSubseq(spawned, taken[..|taken| - 1])
    ensures IsSubseq(spawned + [j], taken) && NoDup(spawned + [j])
  {
    var before := taken[..|taken| - 1];
    assert taken == before + [j];
    SubseqGrow(spawned, before, j);
    NoDupAppend(spawned, j);
  }

  /** A job of the lane that is unspawned no more, and was not started before. */
  lemma SpawnedOk(c: Config, s: State, s': State, r: int, lane: Lane, j: JobId)
    requires LaneOk(c, s, r, lane) && lane.pc == Busy(j) && InLane(s, r, j) && Unspawned(s.jobs[j]) && j !in lane.spawned
    requires s'.jobs == s.jobs[j := s.jobs[j].(handle := Awaiting, worker := Looking)]
    ensures LaneOk(c, s', r, lane.(spawned := lane.spawned + [j]))
  {
    SpawnLists(lane.taken, lane.spawned, j);
    assert forall k :: k in lane.spawned + [j] ==> k in lane.spawned || k == j;
  }

  lemma SpawnKeepsLane(c: Config, s: State, j: JobId)
    requires LanesOk(c, s) && j in s.jobs && JobOk(s.jobs[j])
    requires HandleEnabled(c, s, s.jobs[j], Acquire(Proceed))
    ensures var s' := HandleStep(c, s, j, s.jobs[j], Acquire(Proceed));
            var r := s.jobs[j].req.Lane();
            LaneOk(c, s', r, s'.lanes[r])
  {
    var s' := HandleStep(c, s, j, s.jobs[j], Acquire(Proceed));
    var r := s.jobs[j].req.Lane();
    assert LaneOk(c, s, r, s.lanes[r]) && Placed(s, j, s.jobs[j]);
    SpawnedOk(c, s, s', r, s.lanes[r], j);
  }

  lemma SpawnKeepsLanes(c: Config, s: State, j: JobId)
    requires LanesOk(c, s) && j in s.jobs && JobOk(s.jobs[j])
    requires HandleEnabled(c, s, s.jobs[j], Acquire(Proceed))
    ensures LanesOk(c, HandleStep(c, s, j, s.jobs[j], Acquire(Proceed)))
  {
    var s' := HandleStep(c, s, j, s.jobs[j], Acquire(Proceed));
    SpawnKeepsLane(c, s, j);
    forall q | q in s'.lanes
      ensures LaneOk(c, s', q, s'.lanes[q])
    {
      if q != s.jobs[j].req.Lane() {
        OtherLane(c, s, s', q, s.lanes[q], j, s'.jobs[j]);
      }
    }
    forall k | k in s'.jobs
      ensures Placed(s', k, s'.jobs[k])
    {
      assert Placed(s, k, s.jobs[k]);
    }
  }

  lemma FinishKeepsLanes(c: Config, s: State, j: JobId)
    requires LanesOk(c, s) && j in s.jobs && JobOk(s.jobs[j])
    requires HandleEnabled(c, s, s.jobs[j], Free)
    ensures LanesOk(c, HandleStep(c, s, j, s.jobs[j], Free))
  {
    var s' := HandleStep(c, s, j, s.jobs[j], Free);
    forall q | q in s'.lanes
      ensures LaneOk(c, s', q, s'.lanes[q])
    {
      if q != s.jobs[j].req.Lane() {
        OtherLane(c, s, s', q, s.lanes[q], j, s'.jobs[j]);
      } else {
        assert LaneOk(c, s, q, s.lanes[q]);
      }
    }
    forall k | k in s'.jobs
      ensures Placed(s', k, s'.jobs[k])
    {
      assert Placed(s, k, s.jobs[k]);
    }
  }

  // ---------- every step keeps the invariant ----------

  lemma JobStepKeepsCounts(c: Config, s: State, s': State, j: JobId, job': Job)
    requires CountsOk(c, s) && s'.jobs == s.jobs[j := job']
    requires s'.tokens == s.tokens - Bit(j in s.jobs && IsOpen(s.jobs[j])) + Bit(IsOpen(job')) <= c.capacity
    requires s'.slots == s.slots - Bit(j in s.jobs && HoldsSlot(s.jobs[j])) + Bit(HoldsSlot(job')) <= c.workers
    ensures CountsOk(c, s')
  {
    CountUpdate(s.jobs, IsOpen, j, job');
    CountUpdate(s.jobs, HoldsSlot, j, job');
  }

  /** The two semaphores moved by exactly what the job's holdings changed by. */
  predicate Balanced(c: Config, s: State, s': State, job: Job, job': Job) {
    && s'.tokens == s.tokens - Bit(IsOpen(job)) + Bit(IsOpen(job')) <= c.capacity
    && s'.slots == s.slots - Bit(HoldsSlot(job)) + Bit(HoldsSlot(job')) <= c.workers
  }

  lemma CallerEffect(c: Config, s: State, j: JobId, job: Job, act: CallerAct)
    requires CallerEnabled(c, s, job, act) && JobOk(job) && s.tokens <= c.capacity && s.slots <= c.workers
    ensures var job', s' := CallerJob(c, s, job, act), CallerStep(c, s, j, job, act);
            && Balanced(c, s, s', job, job')
            && s'.jobs == s.jobs[j := job']
            && (act.FindLane? || act == Queue(Proceed)
                || (Quiet(job, job') && s'.lanes == s.lanes && (job'.pc.Queueing? ==> job.pc.Queueing?)))
  {
  }

  lemma HandleEffect(c: Config, s: State, j: JobId, job: Job, act: HandleAct)
    requires HandleEnabled(c, s, job, act) && JobOk(job) && s.tokens <= c.capacity && s.slots <= c.workers
    ensures var job', s' := HandleJob(c, s, job, act), HandleStep(c, s, j, job, act);
            && Balanced(c, s, s', job, job')
            && s'.jobs == s.jobs[j := job'] && job'.pc == job.pc
            && (act == Acquire(Proceed) || act.Free? || (Quiet(job, job') && s'.lanes == s.lanes))
  {
  }

  lemma WorkerEffect(c: Config, job: Job, act: WorkerAct, known: Option<Record>)
    requires WorkerReady(job, act) && JobOk(job)
    ensures var job' := WorkerJob(c, job, act, known);
            && Quiet(job, job') && job'.pc == job.pc && job'.Open() == job.Open()
            && job'.HoldsSlot() == (job.HoldsSlot() && !act.FreeSlot?)
  {
  }

  lemma CallerKeepsInv(c: Config, s: State, j: JobId, act: CallerAct)
    requires Inv(c, s) && Enabled(c, s, Caller(j, act))
    ensures Inv(c, Apply(c, s, Caller(j, act)))
  {
    var job, s' := s.jobs[j], Apply(c, s, Caller(j, act));
    var job' := CallerJob(c, s, job, act);
    CallerStepKeepsCaller(c, s, job, act);
    CallerStepKeepsRest(c, s, job, act);
    CallerEffect(c, s, j, job, act);
    JobStepKeepsCounts(c, s, s', j, job');
    if act.FindLane? {
      FindLaneKeepsLanes(c, s, j);
    } else if act == Queue(Proceed) {
      PushKeepsLanes(c, s, j);
    } else {
      QuietKeepsLanes(c, s, s', j, job');
    }
  }

  lemma HandleKeepsInv(c: Config, s: State, j: JobId, act: HandleAct)
    requires Inv(c, s) && Enabled(c, s, Handler(j, act))
    ensures Inv(c, Apply(c, s, Handler(j, act)))
  {
    var job, s' := s.jobs[j], Apply(c, s, Handler(j, act));
    var job' := HandleJob(c, s, job, act);
    HandleStepKeepsJob(c, s, job, act);
    HandleEffect(c, s, j, job, act);
    JobStepKeepsCounts(c, s, s', j, job');
    if act == Acquire(Proceed) {
      SpawnKeepsLanes(c, s, j);
    } else if act.Free? {
      FinishKeepsLanes(c, s, j);
    } else {
      QuietKeepsLanes(c, s, s', j, job');
    }
  }

  lemma WorkerKeepsInv(c: Config, s: State, j: JobId, act: WorkerAct)
    requires Inv(c, s) && Enabled(c, s, Worker(j, act))
    ensures Inv(c, Apply(c, s, Worker(j, act)))
  {
    var job, s' := s.jobs[j], Apply(c, s, Worker(j, act));
    var known := Get(s.records, job.req.Key());
    var job' := WorkerJob(c, job, act, known);
    WorkerStepKeepsJob(c, job, act, known);
    WorkerEffect(c, job, act, known);
    JobStepKeepsCounts(c, s, s', j, job');
    QuietKeepsLanes(c, s, s', j, job');
  }

  lemma ContextKeepsInv(c: Config, s: State, step: Step)
    requires Inv(c, s) && Enabled(c, s, step) && (step.DeadlineFires? || step.ParentEnds?)
    ensures Inv(c, Apply(c, s, step))
  {
    var s' := Apply(c, s, step);
    var job, job' := s.jobs[step.job], s'.jobs[step.job];
    assert job' == job.(ctx := job'.ctx, parentEnded := job'.parentEnded) && (job.ctx.Ended? ==> job'.ctx == job.ctx);
    assert JobOk(job');
    JobStepKeepsCounts(c, s, s', step.job, job');
    QuietKeepsLanes(c, s, s', step.job, job');
  }

  /** A job at the head of its lane is untouched by handle so far. */
  lemma HeadIsNotTaken(c: Config, s: State, r: int)
    requires LanesOk(c, s) && r in s.lanes && s.lanes[r].queue != []
    ensures var j := s.lanes[r].queue[0]; InLane(s, r, j) && s.jobs[j].handle.NotTaken?
  {
    assert LaneOk(c, s, r, s.lanes[r]) && s.lanes[r].queue[0] in s.lanes[r].queue;
  }

  lemma TakenJobOk(job: Job)
    requires JobOk(job) && job.accepted && job.handle.NotTaken?
    ensures JobOk(job.(handle := Checking))
  {
  }

  lemma TakeKeepsInv(c: Config, s: State, r: int)
    requires Inv(c, s) && Enabled(c, s, LaneTake(r))
    ensures Inv(c, Apply(c, s, LaneTake(r)))
  {
    var s' := Apply(c, s, LaneTake(r));
    var j := s.lanes[r].queue[0];
    var job' := s.jobs[j].(handle := Checking);
    assert s'.jobs == s.jobs[j := job'] && s'.tokens == s.tokens && s'.slots == s.slots;
    assert JobsOk(s') by {
      HeadIsNotTaken(c, s, r);
      TakenJobOk(s.jobs[j]);
    }
    assert CountsOk(c, s') by {
      JobStepKeepsCounts(c, s, s', j, job');
    }
    assert LanesOk(c, s') by {
      TakeKeepsLanes(c, s, r);
    }
  }

  lemma CallKeepsInv(c: Config, s: State, j: JobId, req: Request)
    requires Inv(c, s) && j !in s.jobs
    ensures Inv(c, Apply(c, s, Call(j, req)))
  {
    CallKeepsLanes(c, s, j, req);
    JobStepKeepsCounts(c, s, Put(s, j, NewJob(req)), j, NewJob(req));
  }

  lemma CloseKeepsInv(c: Config, s: State)
    requires Inv(c, s)
    ensures Inv(c, Apply(c, s, Close))
  {
    var s' := Apply(c, s, Close);
    assert forall r :: r in s.lanes ==> LaneOk(c, s, r, s.lanes[r]) ==> LaneOk(c, s', r, s.lanes[r]);
  }

  lemma StepKeepsInv(c: Config, s: State, step: Step)
    requires Inv(c, s) && Enabled(c, s, step)
    ensures Inv(c, Apply(c, s, step))
  {
    match step
    case Call(j, req) => CallKeepsInv(c, s, j, req);
    case DeadlineFires(_) => ContextKeepsInv(c, s, step);
    case ParentEnds(_, _) => ContextKeepsInv(c, s, step);
    case Close => CloseKeepsInv(c, s);
    case LaneStop(r) => StopKeepsLanes(c, s, r);
    case LaneTake(r) => TakeKeepsInv(c, s, r);
    case Caller(j, act) => CallerKeepsInv(c, s, j, act);
    case Handler(j, act) => HandleKeepsInv(c, s, j, act);
    case Worker(j, act) => WorkerKeepsInv(c, s, j, act);
  }

  lemma {:induction false} RunKeepsInv(c: Config, states: seq<State>, steps: seq<Step>, i: nat)
    requires IsRun(c, states, steps) && i < |states|
    ensures Inv(c, states[i])
  {
    if i > 0 {
      RunKeepsInv(c, states, steps, i - 1);
      var s, step := states[i - 1], steps[i - 1];
      assert Enabled(c, s, step) && states[i] == Apply(c, s, step) by { assert StepAt(c, states, steps, i - 1); }
      StepKeepsInv(c, s, step);
    }
  }
}
