/** When Close can return.

Close ends the queue and waits for every lane goroutine. A lane stops when it is idle, so what Close waits for is the
job a lane is handling. */
module RequestQueueClose {
  import opened Options
  import opened Subsequences
  import opened RequestQueue
  import opened RequestQueueSafety
  import T = RequestQueueTheorems

  /** Every lane goroutine is over. */
  ghost predicate Stopped(s: State) {
    s.closed && forall r :: r in s.lanes ==> s.lanes[r].pc.Stopped?
  }

  /** The lane waits for a handler that is running under a live context. */
  predicate Held(job: Job) {
    job.handle.Awaiting? && job.worker.Running() && job.ctx.Live?
  }

  ghost predicate AnyHeld(s: State) {
    exists j :: j in s.jobs && Held(s.jobs[j])
  }

  /** A step by no handler, no deadline and no caller's own context. */
  predicate Unaided(step: Step) {
    !step.Worker? && !step.DeadlineFires? && !step.ParentEnds?
  }

  ghost predicate UnaidedFrom(steps: seq<Step>, n: nat) {
    forall i :: n <= i < |steps| ==> Unaided(steps[i])
  }

  // ---------- a request timeout cancels the contexts of callers that leave ----------

  predicate Cancelled(c: Config, job: Job) {
    c.timeout && job.pc.Returned? ==> job.ctx.Ended?
  }

  ghost predicate AllCancelled(c: Config, s: State) {
    forall j :: j in s.jobs ==> Cancelled(c, s.jobs[j])
  }

  lemma CallerKeepsCancelled(c: Config, s: State, job: Job, act: CallerAct)
    requires CallerEnabled(c, s, job, act) && Cancelled(c, job)
    ensures Cancelled(c, CallerJob(c, s, job, act))
  {
  }

  lemma OneJobCancelled(c: Config, s: State, s': State, j: JobId, job': Job)
    requires AllCancelled(c, s) && s'.jobs == s.jobs[j := job'] && Cancelled(c, job')
    ensures AllCancelled(c, s')
  {
  }

  lemma StepKeepsCancelled(c: Config, s: State, step: Step)
    requires Enabled(c, s, step) && AllCancelled(c, s)
    ensures AllCancelled(c, Apply(c, s, step))
  {
    var s' := Apply(c, s, step);
    match step
    case Call(j, _) => OneJobCancelled(c, s, s', j, s'.jobs[j]);
    case DeadlineFires(j) => OneJobCancelled(c, s, s', j, s'.jobs[j]);
    case ParentEnds(j, _) => OneJobCancelled(c, s, s', j, s'.jobs[j]);
    case Close =>
    case LaneStop(_) =>
    case LaneTake(r) => OneJobCancelled(c, s, s', s.lanes[r].queue[0], s'.jobs[s.lanes[r].queue[0]]);
    case Caller(j, act) =>
      CallerKeepsCancelled(c, s, s.jobs[j], act);
      OneJobCancelled(c, s, s', j, CallerJob(c, s, s.jobs[j], act));
    case Handler(j, act) => OneJobCancelled(c, s, s', j, HandleJob(c, s, s.jobs[j], act));
    case Worker(j, act) => OneJobCancelled(c, s, s', j, WorkerJob(c, s.jobs[j], act, Get(s.records, s.jobs[j].req.Key())));
  }

  lemma {:induction false} RunKeepsCancelled(c: Config, states: seq<State>, steps: seq<Step>, i: nat)
    requires IsRun(c, states, steps) && i < |states|
    ensures AllCancelled(c, states[i])
  {
    if i > 0 {
      RunKeepsCancelled(c, states, steps, i - 1);
      assert StepAt(c, states, steps, i - 1);
      StepKeepsCancelled(c, states[i - 1], steps[i - 1]);
    }
  }

  // ---------- one job ----------

  /** Only job `j` and the lane it is in have moved. */
  ghost predicate OnlyMoved(s: State, s': State, j: JobId) {
    && j in s.jobs && s'.jobs.Keys == s.jobs.Keys && (forall k :: k in s.jobs && k != j ==> s'.jobs[k] == s.jobs[k])
    && s'.jobs[j].req == s.jobs[j].req && s'.closed == s.closed
    && s'.lanes.Keys == s.lanes.Keys
    && forall q :: q in s.lanes && q != s.jobs[j].req.Lane() ==> s'.lanes[q] == s.lanes[q]
  }

  lemma OnlyMovedTwice(a: State, b: State, c: State, j: JobId)
    requires OnlyMoved(a, b, j) && OnlyMoved(b, c, j)
    ensures OnlyMoved(a, c, j)
  {
  }

  function Phase(worker: WorkerPc): nat {
    match worker
    case Looking => 5
    case Fetching => 4
    case Executing => 3
    case Remembering(_, _) => 2
    case Storing(_) => 1
    case _ => 0
  }

  /** What brings a running dispatcher call nearer to its end, if its handler returns. */
  function NextAct(worker: WorkerPc): WorkerAct
    requires worker.Running()
  {
    match worker
    case Looking => Look
    case Fetching => Fetch(Miss)
    case Executing => Execute(Fail(Canceled))
    case Remembering(_, _) => Remember
    case Storing(_) => Store(None)
    case Delivering(_) => Deliver
  }

  lemma NextActAdvances(c: Config, job: Job, known: Option<Record>)
    requires job.worker.Running() && job.inner.None?
    ensures WorkerReady(job, NextAct(job.worker))
    ensures var job' := WorkerJob(c, job, NextAct(job.worker), known);
            if job.worker.Delivering? then job'.inner.Some?
            else job'.worker.Running() && job'.inner.None? && Phase(job'.worker) < Phase(job.worker)
  {
  }

  /** A running handler can return and deliver. */
  lemma {:induction false} WorkerDelivers(c: Config, states: seq<State>, steps: seq<Step>, j: JobId)
      returns (states': seq<State>, steps': seq<Step>)
    requires IsRun(c, states, steps)
    requires j in Last(states).jobs && Last(states).jobs[j].worker.Running() && Last(states).jobs[j].inner.None?
    ensures IsRun(c, states', steps') && states <= states' && steps <= steps'
    ensures var s, s' := Last(states), Last(states');
            OnlyMoved(s, s', j) && s'.jobs[j].inner.Some? && s'.jobs[j].handle == s.jobs[j].handle
    decreases Phase(Last(states).jobs[j].worker)
  {
    var s := Last(states);
    var job := s.jobs[j];
    NextActAdvances(c, job, Get(s.records, job.req.Key()));
    ActIsStep(c, s, j, NextAct(job.worker));
    states', steps' := Extend(c, states, steps, Worker(j, NextAct(job.worker)));
    if !job.worker.Delivering? {
      var mid := Last(states');
      states', steps' := WorkerDelivers(c, states', steps', j);
      OnlyMovedTwice(s, mid, Last(states'), j);
    }
  }

  lemma WaitStep(c: Config, s: State, j: JobId)
    requires j in s.jobs && s.jobs[j].pc.Waiting? && s.closed
    ensures Enabled(c, s, Caller(j, Wait(QueueDone)))
    ensures Apply(c, s, Caller(j, Wait(QueueDone))) == Put(s, j, s.jobs[j].(pc := Releasing(Broken(QueueClosed))))
  {
  }

  lemma ReleaseStep(c: Config, s: State, j: JobId)
    requires c.timeout && j in s.jobs && Enabled(c, s, Caller(j, Release))
    ensures var s' := Apply(c, s, Caller(j, Release));
            OnlyMoved(s, s', j) && s'.jobs[j].ctx.Ended? && s'.jobs[j].handle == s.jobs[j].handle
  {
  }

  /** The caller of a held job has not left, or with a request timeout its context would have ended. */
  lemma CallerIsThere(c: Config, states: seq<State>, steps: seq<Step>, j: JobId)
    requires IsRun(c, states, steps) && c.timeout && j in Last(states).jobs && Held(Last(states).jobs[j])
    ensures Last(states).jobs[j].pc.Waiting? || Last(states).jobs[j].pc.Releasing?
  {
    RunKeepsInv(c, states, steps, |steps|);
    RunKeepsCancelled(c, states, steps, |steps|);
    assert JobOk(Last(states).jobs[j]) && Cancelled(c, Last(states).jobs[j]);
  }

  lemma CallerReleases(c: Config, states: seq<State>, steps: seq<Step>, j: JobId)
      returns (states': seq<State>, steps': seq<Step>)
    requires IsRun(c, states, steps) && c.timeout && j in Last(states).jobs && Last(states).jobs[j].pc.Releasing?
    ensures IsRun(c, states', steps') && states <= states' && steps' == steps + [Caller(j, Release)]
    ensures var s, s' := Last(states), Last(states');
            OnlyMoved(s, s', j) && s'.jobs[j].ctx.Ended? && s'.jobs[j].handle == s.jobs[j].handle
  {
    T.ReleasesAndSendsNeverBlock(c, states, steps, |steps|, j);
    ReleaseStep(c, Last(states), j);
    states', steps' := Extend(c, states, steps, Caller(j, Release));
  }

  /** With a request timeout a caller that leaves after Close ends its job's context. */
  lemma CallerLeaves(c: Config, states: seq<State>, steps: seq<Step>, j: JobId)
      returns (states': seq<State>, steps': seq<Step>)
    requires IsRun(c, states, steps) && c.timeout && Last(states).closed
    requires j in Last(states).jobs && Held(Last(states).jobs[j])
    ensures IsRun(c, states', steps') && states <= states' && steps <= steps' && UnaidedFrom(steps', |steps|)
    ensures var s, s' := Last(states), Last(states');
            OnlyMoved(s, s', j) && s'.jobs[j].ctx.Ended? && s'.jobs[j].handle == s.jobs[j].handle
  {
    var s := Last(states);
    CallerIsThere(c, states, steps, j);
    states', steps' := states, steps;
    if s.jobs[j].pc.Waiting? {
      WaitStep(c, s, j);
      states', steps' := Extend(c, states, steps, Caller(j, Wait(QueueDone)));
    }
    var mid := Last(states');
    states', steps' := CallerReleases(c, states', steps', j);
    OnlyMovedTwice(s, mid, Last(states'), j);
  }

  function Stage(handle: HandlePc): nat {
    match handle
    case Checking => 5
    case Acquiring => 4
    case Awaiting => 3
    case FreeingWorker => 2
    case Sending(_) => 1
    case _ => 0
  }

  /** The next step of handle once the queue is closed. */
  function NextHandle(job: Job): HandleAct {
    match job.handle
    case Checking => Check
    case Acquiring => Acquire(QueueDone)
    case Awaiting => if job.ctx.Ended? then Await(CtxDone) else Await(Proceed)
    case FreeingWorker => FreeWorker
    case Sending(_) => Send
    case _ => Free
  }

  lemma NextHandleEnabled(c: Config, states: seq<State>, steps: seq<Step>, j: JobId)
    requires IsRun(c, states, steps) && Last(states).closed
    requires j in Last(states).jobs && Last(states).jobs[j].InHandle() && !Held(Last(states).jobs[j])
    ensures HandleEnabled(c, Last(states), Last(states).jobs[j], NextHandle(Last(states).jobs[j]))
  {
    var s := Last(states);
    T.ReleasesAndSendsNeverBlock(c, states, steps, |steps|, j);
    assert JobOk(s.jobs[j]) && Placed(s, j, s.jobs[j]) by { RunKeepsInv(c, states, steps, |steps|); }
  }

  lemma NextHandleAdvances(c: Config, s: State, job: Job)
    requires s.closed && job.InHandle() && HandleEnabled(c, s, job, NextHandle(job))
    ensures var job' := HandleJob(c, s, job, NextHandle(job));
            if job.handle.Freeing? then job'.handle.Handled?
            else job'.InHandle() && !job'.handle.Awaiting? && Stage(job'.handle) < Stage(job.handle)
  {
    match job.handle
    case Checking =>
    case Acquiring =>
    case Awaiting =>
    case FreeingWorker =>
    case Sending(_) =>
    case Freeing =>
  }

  lemma HandleMovesOnly(c: Config, s: State, j: JobId, act: HandleAct)
    requires j in s.jobs && HandleEnabled(c, s, s.jobs[j], act) && s.jobs[j].req.Lane() in s.lanes
    ensures var s' := HandleStep(c, s, j, s.jobs[j], act);
            && OnlyMoved(s, s', j) && s'.jobs[j] == HandleJob(c, s, s.jobs[j], act)
            && (act.Free? ==> s'.lanes[s.jobs[j].req.Lane()].pc.Idle?)
  {
    match act
    case Check =>
    case Acquire(_) =>
    case Await(_) =>
    case FreeWorker =>
    case Send =>
    case Free =>
  }

  /** A job whose handler is not running under a live context is handled in the end, by itself. */
  lemma {:induction false} HandleFinishes(c: Config, states: seq<State>, steps: seq<Step>, j: JobId)
      returns (states': seq<State>, steps': seq<Step>)
    requires IsRun(c, states, steps) && Last(states).closed
    requires j in Last(states).jobs && Last(states).jobs[j].InHandle() && !Held(Last(states).jobs[j])
    ensures IsRun(c, states', steps') && states <= states' && steps <= steps' && UnaidedFrom(steps', |steps|)
    ensures var s, s' := Last(states), Last(states');
            && OnlyMoved(s, s', j) && s'.jobs[j].handle.Handled?
            && s.jobs[j].req.Lane() in s'.lanes && s'.lanes[s.jobs[j].req.Lane()].pc.Idle?
    decreases Stage(Last(states).jobs[j].handle)
  {
    var s := Last(states);
    var act := NextHandle(s.jobs[j]);
    NextHandleEnabled(c, states, steps, j);
    NextHandleAdvances(c, s, s.jobs[j]);
    assert s.jobs[j].req.Lane() in s.lanes by {
      RunKeepsInv(c, states, steps, |steps|);
      assert Placed(s, j, s.jobs[j]);
    }
    HandleMovesOnly(c, s, j, act);
    states', steps' := Extend(c, states, steps, Handler(j, act));
    if !s.jobs[j].handle.Freeing? {
      var mid := Last(states');
      states', steps' := HandleFinishes(c, states', steps', j);
      OnlyMovedTwice(s, mid, Last(states'), j);
    }
  }

  // ---------- one lane ----------

  /** Lane `r` is the only one that moved, and no other job has come to be held. */
  ghost predicate OnlyLane(s: State, s': State, r: int) {
    && s'.closed == s.closed && s'.lanes.Keys == s.lanes.Keys
    && (forall q :: q in s.lanes && q != r ==> s'.lanes[q] == s.lanes[q])
    && (AnyHeld(s') ==> AnyHeld(s))
  }

  lemma MovedIsOnlyLane(s: State, s': State, j: JobId)
    requires OnlyMoved(s, s', j) && !Held(s'.jobs[j])
    ensures OnlyLane(s, s', s.jobs[j].req.Lane())
  {
    if AnyHeld(s') {
      var k :| k in s'.jobs && Held(s'.jobs[k]);
      assert s.jobs[k] == s'.jobs[k];
    }
  }

  /** The handler of a held job ends or loses its context: by itself with a request timeout, else by returning. */
  lemma LetGo(c: Config, states: seq<State>, steps: seq<Step>, j: JobId)
      returns (states': seq<State>, steps': seq<Step>)
    requires IsRun(c, states, steps) && Last(states).closed && j in Last(states).jobs && Last(states).jobs[j].InHandle()
    ensures IsRun(c, states', steps') && states <= states' && steps <= steps'
    ensures c.timeout || !Held(Last(states).jobs[j]) ==> UnaidedFrom(steps', |steps|)
    ensures var s, s' := Last(states), Last(states');
            OnlyMoved(s, s', j) && s'.jobs[j].InHandle() && !Held(s'.jobs[j])
  {
    states', steps' := states, steps;
    if Held(Last(states).jobs[j]) {
      if c.timeout {
        states', steps' := CallerLeaves(c, states, steps, j);
      } else {
        assert Last(states).jobs[j].inner.None? by {
          RunKeepsInv(c, states, steps, |steps|);
          assert JobOk(Last(states).jobs[j]);
        }
        states', steps' := WorkerDelivers(c, states, steps, j);
        assert !Last(states').jobs[j].worker.Running() by {
          RunKeepsInv(c, states', steps', |steps'|);
          assert JobOk(Last(states').jobs[j]);
        }
      }
    }
  }

  /** The job a lane is busy with is its own. */
  lemma BusyWith(c: Config, s: State, r: int)
    requires Inv(c, s) && r in s.lanes && s.lanes[r].pc.Busy?
    ensures var j := s.lanes[r].pc.job; j in s.jobs && s.jobs[j].InHandle() && s.jobs[j].req.Lane() == r
  {
    var lane := s.lanes[r];
    assert LaneOk(c, s, r, lane) && lane.pc.job in lane.taken;
  }

  lemma LaneBecomesIdle(c: Config, states: seq<State>, steps: seq<Step>, r: int)
      returns (states': seq<State>, steps': seq<Step>)
    requires IsRun(c, states, steps) && Last(states).closed && r in Last(states).lanes && Last(states).lanes[r].pc.Busy?
    ensures IsRun(c, states', steps') && states <= states' && steps <= steps'
    ensures c.timeout || !AnyHeld(Last(states)) ==> UnaidedFrom(steps', |steps|)
    ensures OnlyLane(Last(states), Last(states'), r) && Last(states').lanes[r].pc.Idle?
  {
    var s := Last(states);
    var j := s.lanes[r].pc.job;
    assert j in s.jobs && s.jobs[j].InHandle() && s.jobs[j].req.Lane() == r by {
      RunKeepsInv(c, states, steps, |steps|);
      BusyWith(c, s, r);
    }
    states', steps' := LetGo(c, states, steps, j);
    var mid, before := Last(states'), steps';
    states', steps' := HandleFinishes(c, states', steps', j);
    OnlyMovedTwice(s, mid, Last(states'), j);
    MovedIsOnlyLane(s, Last(states'), j);
    UnaidedTwice(steps, before, steps');
  }

  lemma UnaidedTwice(a: seq<Step>, b: seq<Step>, c: seq<Step>)
    requires a <= b <= c
    ensures UnaidedFrom(b, |a|) && UnaidedFrom(c, |b|) ==> UnaidedFrom(c, |a|)
  {
    assert forall i :: 0 <= i < |b| ==> c[i] == b[i];
  }

  lemma LaneStops(c: Config, states: seq<State>, steps: seq<Step>, r: int)
      returns (states': seq<State>, steps': seq<Step>)
    requires IsRun(c, states, steps) && Last(states).closed && r in Last(states).lanes && !Last(states).lanes[r].pc.Stopped?
    ensures IsRun(c, states', steps') && states <= states' && steps <= steps'
    ensures c.timeout || !AnyHeld(Last(states)) ==> UnaidedFrom(steps', |steps|)
    ensures OnlyLane(Last(states), Last(states'), r) && Last(states').lanes[r].pc.Stopped?
  {
    states', steps' := states, steps;
    if Last(states).lanes[r].pc.Busy? {
      states', steps' := LaneBecomesIdle(c, states, steps, r);
    }
    var mid, before := Last(states'), steps';
    states', steps' := Extend(c, states', steps', LaneStop(r));
    assert Last(states').jobs == mid.jobs;
    UnaidedTwice(steps, before, steps');
  }

  // ---------- all lanes ----------

  ghost function Open(s: State): set<int> {
    set r | r in s.lanes && !s.lanes[r].pc.Stopped?
  }

  lemma OneLess(s: State, s': State, r: int)
    requires OnlyLane(s, s', r) && r in Open(s) && s'.lanes[r].pc.Stopped?
    ensures |Open(s')| < |Open(s)|
  {
    forall q
      ensures q in Open(s') <==> q in Open(s) && q != r
    {
      assert q in s.lanes <==> q in s'.lanes;
    }
    assert Open(s') == Open(s) - {r};
  }

  /** From any closed state of any run Close can return. With a request timeout, or when no lane is held by a handler
  running under a live context, that takes no step of a handler and no end of a context from outside. */
  lemma {:induction false} CloseCanReturn(c: Config, states: seq<State>, steps: seq<Step>)
      returns (states': seq<State>, steps': seq<Step>)
    requires IsRun(c, states, steps) && Last(states).closed
    ensures IsRun(c, states', steps') && states <= states' && steps <= steps' && Stopped(Last(states'))
    ensures c.timeout || !AnyHeld(Last(states)) ==> UnaidedFrom(steps', |steps|)
    decreases |Open(Last(states))|
  {
    var s := Last(states);
    states', steps' := states, steps;
    if r :| r in s.lanes && !s.lanes[r].pc.Stopped? {
      states', steps' := LaneStops(c, states, steps, r);
      OneLess(s, Last(states'), r);
      var before := steps';
      states', steps' := CloseCanReturn(c, states', steps');
      UnaidedTwice(steps, before, steps');
    }
  }

  // ---------- and when it cannot ----------

  lemma CallerLeavesHeld(c: Config, s: State, job: Job, act: CallerAct)
    requires !c.timeout && CallerEnabled(c, s, job, act) && Held(job)
    ensures Held(CallerJob(c, s, job, act))
  {
  }

  lemma HandleWaits(c: Config, s: State, job: Job, act: HandleAct)
    requires JobOk(job) && Held(job)
    ensures !HandleEnabled(c, s, job, act)
  {
  }

  lemma HeldStays(c: Config, s: State, step: Step, j: JobId)
    requires !c.timeout && Enabled(c, s, step) && Unaided(step) && LanesOk(c, s)
    requires j in s.jobs && JobOk(s.jobs[j]) && Held(s.jobs[j])
    ensures j in Apply(c, s, step).jobs && Held(Apply(c, s, step).jobs[j])
  {
    match step
    case Call(_, _) =>
    case Close =>
    case LaneStop(_) =>
    case LaneTake(r) => HeadIsNotTaken(c, s, r);
    case Caller(k, act) =>
      if k == j {
        CallerLeavesHeld(c, s, s.jobs[j], act);
      }
    case Handler(k, act) =>
      HandleWaits(c, s, s.jobs[j], act);
      assert k != j;
  }

  /** Without a request timeout a handler that runs on under a live context keeps its lane from stopping, and Close
  from returning, for as long as no handler returns and no context ends from outside. */
  lemma {:induction false} HeldLaneBlocksClose(c: Config, states: seq<State>, steps: seq<Step>, i: nat, k: nat, j: JobId)
    requires IsRun(c, states, steps) && !c.timeout && i <= k < |states|
    requires j in states[i].jobs && Held(states[i].jobs[j])
    requires forall m :: i <= m < k ==> Unaided(steps[m])
    ensures j in states[k].jobs && Held(states[k].jobs[j]) && !Stopped(states[k])
    decreases k
  {
    if i < k {
      HeldLaneBlocksClose(c, states, steps, i, k - 1, j);
      assert JobOk(states[k - 1].jobs[j]) && LanesOk(c, states[k - 1]) by { RunKeepsInv(c, states, steps, k - 1); }
      assert StepAt(c, states, steps, k - 1);
      HeldStays(c, states[k - 1], steps[k - 1], j);
    }
    RunKeepsInv(c, states, steps, k);
    assert Placed(states[k], j, states[k].jobs[j]);
  }
}
