/** The command queue over the idempotent dispatcher: a keyed request takes effect at most once.

The dispatcher alone does not give this: its lookup and its record are separate critical sections, so two
calls with one key can both miss and both execute. The queue closes the gap by running the requests of a
lane one after the other, as long as no context ends before its handler returns. */
module QueueIdempotence {
  import opened Options
  import opened Decimal
  import opened RequestQueue
  import opened RequestQueueSafety
  import opened Subsequences

  /** No context has ended before its handler returned. */
  ghost predicate Prompt(s: State) {
    forall j :: j in s.jobs && s.jobs[j].worker.Running() ==> s.jobs[j].ctx.Live?
  }

  ghost predicate PromptRun(c: Config, states: seq<State>, steps: seq<Step>) {
    IsRun(c, states, steps) && forall i :: 0 <= i < |states| ==> Prompt(states[i])
  }

  /** The same request sent twice: non-zero uid and sequence, same uid, command, sequence and role. */
  predicate Twins(a: Request, b: Request) {
    && a.Keyed()
    && a.uid == b.uid && a.command == b.command && a.sequence == b.sequence
    && a.Lane() == b.Lane()
  }

  /** The dispatcher has looked the key up, found nothing, and has not yet executed or recorded anything. */
  predicate Undecided(job: Job) {
    job.worker.Fetching? || job.worker.Executing? || (job.worker.Remembering? && !job.worker.executed)
  }

  predicate Visible(job: Job) {
    job.succeeded.Some? && !job.worker.Remembering?
  }

  /** Once a request has succeeded, no twin of it has, or is on its way to. */
  ghost predicate Alone(s: State, j: JobId, k: JobId) {
    j in s.jobs && k in s.jobs && j != k && Twins(s.jobs[j].req, s.jobs[k].req) && s.jobs[j].succeeded.Some?
    ==> s.jobs[k].succeeded.None? && !Undecided(s.jobs[k])
  }

  predicate PhaseOk(job: Job) {
    && (Undecided(job) || job.worker.Looking? || job.worker.NoWorker? ==> job.succeeded.None?)
    && (job.worker.Fetching? || job.worker.Remembering? ==> job.req.Keyed())
    && (job.worker.Remembering? && job.worker.executed ==> job.succeeded == Some(job.worker.resp))
  }

  ghost predicate Recorded(records: map<string, Record>, job: Job) {
    Visible(job) && job.req.Keyed() ==> job.req.Key() in records
  }

  ghost predicate OnceInv(s: State) {
    && (forall j, k :: Alone(s, j, k))
    && (forall j :: j in s.jobs ==> PhaseOk(s.jobs[j]) && Recorded(s.records, s.jobs[j]))
  }

  /** In a prompt state the running worker is the one its lane is handling. */
  lemma RunningIsCurrent(c: Config, s: State, j: JobId, k: JobId)
    requires Inv(c, s) && Prompt(s) && j in s.jobs && k in s.jobs
    requires s.jobs[j].worker.Running() && s.jobs[k].worker.Running()
    requires s.jobs[j].req.Lane() == s.jobs[k].req.Lane()
    ensures j == k
  {
    assert JobOk(s.jobs[j]) && JobOk(s.jobs[k]);
    assert Placed(s, j, s.jobs[j]) && Placed(s, k, s.jobs[k]);
  }

  lemma SameKey(a: Request, b: Request)
    ensures a.Key() == b.Key() <==> a.uid == b.uid && a.command == b.command && a.sequence == b.sequence
  {
    TripleKeyInjective(a.uid, a.command, a.sequence, b.uid, b.command, b.sequence);
  }

  /** A lookup that misses proves no twin has executed. */
  lemma MissMeansFirst(c: Config, s: State, j: JobId, k: JobId)
    requires Inv(c, s) && Prompt(s) && OnceInv(s) && j in s.jobs && k in s.jobs && j != k
    requires Twins(s.jobs[j].req, s.jobs[k].req) && s.jobs[k].worker.Looking?
    requires s.jobs[k].req.Key() !in s.records
    ensures s.jobs[j].succeeded.None?
  {
    SameKey(s.jobs[j].req, s.jobs[k].req);
    assert Recorded(s.records, s.jobs[j]);
    if s.jobs[j].worker.Remembering? {
      RunningIsCurrent(c, s, j, k);
    }
  }

  /** What a dispatcher action does to the facts above, for the job that takes it. */
  lemma WorkerPhase(c: Config, job: Job, act: WorkerAct, known: Option<Record>)
    requires WorkerReady(job, act) && PhaseOk(job)
    ensures PhaseOk(WorkerJob(c, job, act, known))
  {
    match act
    case HashFails(_) =>
    case Look =>
    case Fetch(_) =>
    case Execute(_) =>
    case Remember =>
    case Store(_) =>
    case Deliver =>
    case FreeSlot =>
  }

  /** How an action moves its job towards success, and never back. */
  predicate Moved(job: Job, act: WorkerAct, known: Option<Record>, job': Job) {
    && job'.req == job.req
    && (job'.succeeded == job.succeeded || (act.Execute? && job.worker.Executing?))
    && (Undecided(job') && job.req.Keyed() ==> Undecided(job) || (act.Look? && job.worker.Looking? && known.None?))
    && (Visible(job') && job.req.Keyed() ==> Visible(job) || act.Remember?)
  }

  lemma WorkerMoves(c: Config, job: Job, act: WorkerAct, known: Option<Record>)
    requires WorkerReady(job, act) && PhaseOk(job)
    ensures Moved(job, act, known, WorkerJob(c, job, act, known))
  {
    match act
    case HashFails(_) =>
    case Look =>
    case Fetch(_) =>
    case Execute(_) =>
    case Remember =>
    case Store(_) =>
    case Deliver =>
    case FreeSlot =>
  }

  lemma WorkerKeepsAlone(c: Config, s: State, s': State, k: JobId, act: WorkerAct, job': Job, i: JobId, j: JobId)
    requires Inv(c, s) && Prompt(s) && OnceInv(s) && k in s.jobs && s'.jobs == s.jobs[k := job']
    requires Moved(s.jobs[k], act, Get(s.records, s.jobs[k].req.Key()), job')
    requires i in s.jobs && j in s.jobs && i != j && Twins(s.jobs[i].req, s.jobs[j].req)
    ensures Alone(s', i, j)
  {
    assert Alone(s, i, j) && Alone(s, j, i);
    if k == j && s.jobs[j].worker.Looking? && s.jobs[j].req.Key() !in s.records {
      MissMeansFirst(c, s, i, j);
    }
    if k == i && s.jobs[i].worker.Executing? && s.jobs[j].worker.Running() {
      RunningIsCurrent(c, s, i, j);
    }
  }

  lemma WorkerKeepsRecorded(c: Config, s: State, k: JobId, act: WorkerAct)
    requires OnceInv(s) && Enabled(c, s, Worker(k, act))
    ensures var s' := Apply(c, s, Worker(k, act)); forall j :: j in s'.jobs ==> Recorded(s'.records, s'.jobs[j])
  {
    WorkerMoves(c, s.jobs[k], act, Get(s.records, s.jobs[k].req.Key()));
    forall j | j in s.jobs
      ensures Recorded(s.records, s.jobs[j])
    {
    }
  }

  lemma WorkerKeepsAllAlone(c: Config, s: State, s': State, k: JobId, act: WorkerAct, job': Job)
    requires Inv(c, s) && Prompt(s) && OnceInv(s) && k in s.jobs && s'.jobs == s.jobs[k := job']
    requires Moved(s.jobs[k], act, Get(s.records, s.jobs[k].req.Key()), job')
    ensures forall i, j :: Alone(s', i, j)
  {
    forall i, j
      ensures Alone(s', i, j)
    {
      if i in s.jobs && j in s.jobs && i != j && Twins(s.jobs[i].req, s.jobs[j].req) {
        WorkerKeepsAlone(c, s, s', k, act, job', i, j);
      }
    }
  }

  lemma WorkerKeepsPhases(c: Config, s: State, k: JobId, act: WorkerAct)
    requires OnceInv(s) && Enabled(c, s, Worker(k, act))
    ensures var s' := Apply(c, s, Worker(k, act)); forall j :: j in s'.jobs ==> PhaseOk(s'.jobs[j])
  {
    WorkerPhase(c, s.jobs[k], act, Get(s.records, s.jobs[k].req.Key()));
    forall j | j in s.jobs
      ensures PhaseOk(s.jobs[j])
    {
    }
  }

  lemma WorkerKeepsOnce(c: Config, s: State, k: JobId, act: WorkerAct)
    requires Inv(c, s) && Prompt(s) && OnceInv(s) && Enabled(c, s, Worker(k, act))
    ensures OnceInv(Apply(c, s, Worker(k, act)))
  {
    var job, known := s.jobs[k], Get(s.records, s.jobs[k].req.Key());
    WorkerMoves(c, job, act, known);
    WorkerKeepsAllAlone(c, s, Apply(c, s, Worker(k, act)), k, act, WorkerJob(c, job, act, known));
    WorkerKeepsPhases(c, s, k, act);
    WorkerKeepsRecorded(c, s, k, act);
  }

  /** A step that leaves every dispatcher call where it is, or starts one. */
  lemma OtherStepKeepsOnce(s: State, s': State, j: JobId, job': Job)
    requires OnceInv(s) && s'.jobs == s.jobs[j := job'] && s'.records == s.records
    requires if j in s.jobs then StaysOrStarts(s.jobs[j], job') else job'.worker.NoWorker? && job'.succeeded.None?
    ensures OnceInv(s')
  {
    forall i, k
      ensures Alone(s', i, k)
    {
      assert Alone(s, i, k);
    }
  }

  predicate StaysOrStarts(job: Job, job': Job) {
    && job'.req == job.req && job'.succeeded == job.succeeded
    && (job'.worker == job.worker || (job.worker.NoWorker? && job'.worker.Looking?))
  }

  lemma HandleLeavesDispatcher(c: Config, s: State, j: JobId, job: Job, act: HandleAct)
    requires HandleEnabled(c, s, job, act) && JobOk(job)
    ensures var job', s' := HandleJob(c, s, job, act), HandleStep(c, s, j, job, act);
            StaysOrStarts(job, job') && s'.jobs == s.jobs[j := job'] && s'.records == s.records
  {
  }

  lemma CallerLeavesDispatcher(c: Config, s: State, j: JobId, job: Job, act: CallerAct)
    requires CallerEnabled(c, s, job, act)
    ensures var job', s' := CallerJob(c, s, job, act), CallerStep(c, s, j, job, act);
            StaysOrStarts(job, job') && s'.jobs == s.jobs[j := job'] && s'.records == s.records
  {
  }

  lemma StepKeepsOnce(c: Config, s: State, step: Step)
    requires Inv(c, s) && Prompt(s) && OnceInv(s) && Enabled(c, s, step)
    ensures OnceInv(Apply(c, s, step))
  {
    var s' := Apply(c, s, step);
    match step
    case Worker(k, act) => WorkerKeepsOnce(c, s, k, act);
    case Handler(j, act) =>
      HandleLeavesDispatcher(c, s, j, s.jobs[j], act);
      OtherStepKeepsOnce(s, s', j, HandleJob(c, s, s.jobs[j], act));
    case Caller(j, act) =>
      CallerLeavesDispatcher(c, s, j, s.jobs[j], act);
      OtherStepKeepsOnce(s, s', j, CallerJob(c, s, s.jobs[j], act));
    case Close => NothingChanges(s, s');
    case LaneStop(r) => NothingChanges(s, s');
    case LaneTake(r) => OtherStepKeepsOnce(s, s', s.lanes[r].queue[0], s'.jobs[s.lanes[r].queue[0]]);
    case Call(j, _) => OtherStepKeepsOnce(s, s', j, s'.jobs[j]);
    case DeadlineFires(j) => OtherStepKeepsOnce(s, s', j, s'.jobs[j]);
    case ParentEnds(j, _) => OtherStepKeepsOnce(s, s', j, s'.jobs[j]);
  }

  lemma NothingChanges(s: State, s': State)
    requires OnceInv(s) && s'.jobs == s.jobs && s'.records == s.records
    ensures OnceInv(s')
  {
    forall i, k
      ensures Alone(s', i, k)
    {
      assert Alone(s, i, k);
    }
  }

  lemma {:induction false} RunKeepsOnce(c: Config, states: seq<State>, steps: seq<Step>, i: nat)
    requires PromptRun(c, states, steps) && i < |states|
    ensures OnceInv(states[i])
  {
    if i > 0 {
      RunKeepsOnce(c, states, steps, i - 1);
      var s, step := states[i - 1], steps[i - 1];
      assert Inv(c, s) by { RunKeepsInv(c, states, steps, i - 1); }
      assert Enabled(c, s, step) && states[i] == Apply(c, s, step) by { assert StepAt(c, states, steps, i - 1); }
      StepKeepsOnce(c, s, step);
    }
  }

  /** Two sendings of one request never both succeed in the registered handler. */
  lemma SucceedsAtMostOnce(c: Config, states: seq<State>, steps: seq<Step>, i: nat, j: JobId, k: JobId)
    requires PromptRun(c, states, steps) && i < |states|
    requires j in states[i].jobs && k in states[i].jobs && j != k
    requires Twins(states[i].jobs[j].req, states[i].jobs[k].req)
    ensures states[i].jobs[j].succeeded.None? || states[i].jobs[k].succeeded.None?
  {
    RunKeepsOnce(c, states, steps, i);
    assert Alone(states[i], j, k);
  }

  // ---------- what later sendings get ----------

  /** The idempotency key leaves the role out. */
  predicate SameTriple(a: Request, b: Request) {
    a.uid == b.uid && a.command == b.command && a.sequence == b.sequence
  }

  /** The step writes the in-memory record of the key. */
  predicate Remembers(s: State, step: Step, key: string) {
    && step.Worker? && step.workerAct.Remember? && step.job in s.jobs && s.jobs[step.job].worker.Remembering?
    && s.jobs[step.job].req.Key() == key
  }

  /** The record written last, in the first `i` steps. */
  function LastRemembered(states: seq<State>, steps: seq<Step>, i: nat, key: string): Option<Record>
    requires |states| == |steps| + 1 && i <= |steps|
  {
    if i == 0 then None
    else if Remembers(states[i - 1], steps[i - 1], key) then
      var job := states[i - 1].jobs[steps[i - 1].job];
      Some(Record(job.req.payload, job.worker.resp))
    else LastRemembered(states, steps, i - 1, key)
  }

  /** In any run, prompt or not, the record of a key is the one written last. */
  lemma {:induction false} RecordIsLastRemembered(c: Config, states: seq<State>, steps: seq<Step>, i: nat, key: string)
    requires IsRun(c, states, steps) && i < |states|
    ensures Get(states[i].records, key) == LastRemembered(states, steps, i, key)
  {
    if i > 0 {
      RecordIsLastRemembered(c, states, steps, i - 1, key);
      assert StepAt(c, states, steps, i - 1);
      RecordsMove(c, states[i - 1], steps[i - 1], key);
    }
  }

  lemma RecordsMove(c: Config, s: State, step: Step, key: string)
    requires Enabled(c, s, step)
    ensures Get(Apply(c, s, step).records, key) ==
            if Remembers(s, step, key)
            then Some(Record(s.jobs[step.job].req.payload, s.jobs[step.job].worker.resp)) else Get(s.records, key)
  {
    match step
    case Worker(_, act) =>
    case Handler(_, _) =>
    case Caller(_, _) =>
    case Close =>
    case LaneStop(_) =>
    case LaneTake(_) =>
    case Call(_, _) =>
    case DeadlineFires(_) =>
    case ParentEnds(_, _) =>
  }

  /** Job `k` stands at its lookup while another sending of its request has succeeded. */
  predicate Retries(s: State, step: Step, j: JobId, k: JobId) {
    && step == Worker(k, Look) && j in s.jobs && k in s.jobs && j != k && s.jobs[k].worker.Looking?
    && Twins(s.jobs[j].req, s.jobs[k].req) && s.jobs[j].succeeded.Some?
  }

  /** What a sending should get once `first` has succeeded: its response, or 409 for another payload. */
  function Expected(first: Job, later: Request): Response
    requires first.succeeded.Some?
  {
    Replay(later, Record(first.req.payload, first.succeeded.value))
  }

  /** Once one sending has succeeded, a twin that reaches the dispatcher always finds a record, and is answered from
  the one written last, whoever wrote it. */
  lemma LaterSendingGetsLastRecord(c: Config, states: seq<State>, steps: seq<Step>, i: nat, j: JobId, k: JobId)
    requires PromptRun(c, states, steps) && i < |steps| && Retries(states[i], steps[i], j, k)
    ensures k in states[i + 1].jobs
    ensures var later := states[i].jobs[k].req;
            var last := LastRemembered(states, steps, i, later.Key());
            last.Some? && states[i + 1].jobs[k].worker == Delivering(Ok(Replay(later, last.value)))
  {
    var s := states[i];
    var first, later := s.jobs[j], s.jobs[k];
    RecordIsLastRemembered(c, states, steps, i, later.req.Key());
    assert later.req.Key() in s.records by {
      if later.req.Key() !in s.records {
        RunKeepsInv(c, states, steps, i);
        RunKeepsOnce(c, states, steps, i);
        MissMeansFirst(c, s, j, k);
      }
    }
    assert StepAt(c, states, steps, i);
  }

  /** A plain retry gets the first response exactly if the record written last has its payload and that response, or
  has another payload and the first response was itself the 409 answer. */
  lemma PlainRetryGetsFirstIff(c: Config, states: seq<State>, steps: seq<Step>, i: nat, j: JobId, k: JobId)
    requires PromptRun(c, states, steps) && i < |steps| && Retries(states[i], steps[i], j, k)
    requires states[i].jobs[j].req.payload == states[i].jobs[k].req.payload
    ensures k in states[i + 1].jobs
    ensures var first := states[i].jobs[j];
            var last := LastRemembered(states, steps, i, first.req.Key());
            && last.Some?
            && (states[i + 1].jobs[k].worker == Delivering(Ok(first.succeeded.value)) <==>
                  if last.value.payload == first.req.payload then last.value.resp == first.succeeded.value
                  else first.succeeded.value == Conflict(states[i].jobs[k].req))
  {
    LaterSendingGetsLastRecord(c, states, steps, i, j, k);
    SameKey(states[i].jobs[j].req, states[i].jobs[k].req);
  }

  // ---------- when it is the first response ----------

  /** A job of another lane writes the record of the request's key. */
  predicate Clashes(s: State, step: Step, req: Request) {
    Remembers(s, step, req.Key()) && s.jobs[step.job].req.Lane() != req.Lane()
  }

  /** The record of the request is the success of job `j`, once that is visible. */
  ghost predicate KeptFirst(s: State, j: JobId, req: Request) {
    j in s.jobs && s.jobs[j].req == req && Visible(s.jobs[j]) && req.Keyed()
    ==> Get(s.records, req.Key()) == Some(Record(req.payload, s.jobs[j].succeeded.value))
  }

  /** Once job `j` has succeeded with the request, no other lane writes over it. */
  predicate Spared(s: State, step: Step, j: JobId, req: Request) {
    j in s.jobs && Visible(s.jobs[j]) ==> !Clashes(s, step, req)
  }

  lemma NoTwinIsRemembered(s: State, j: JobId, k: JobId)
    requires OnceInv(s) && j in s.jobs && k in s.jobs && j != k && s.jobs[k].req.Lane() == s.jobs[j].req.Lane()
    requires Visible(s.jobs[j]) && s.jobs[j].req.Keyed() && s.jobs[k].worker.Remembering?
    ensures s.jobs[k].req.Key() != s.jobs[j].req.Key()
  {
    SameKey(s.jobs[j].req, s.jobs[k].req);
    assert Alone(s, j, k) && PhaseOk(s.jobs[k]);
  }

  lemma WorkerKeepsFirst(c: Config, s: State, k: JobId, act: WorkerAct, j: JobId, req: Request)
    requires OnceInv(s) && Enabled(c, s, Worker(k, act)) && Spared(s, Worker(k, act), j, req) && KeptFirst(s, j, req)
    ensures KeptFirst(Apply(c, s, Worker(k, act)), j, req)
  {
    WorkerMoves(c, s.jobs[k], act, Get(s.records, s.jobs[k].req.Key()));
    if j in s.jobs && j != k && act.Remember? && Visible(s.jobs[j]) && s.jobs[j].req == req && req.Keyed() {
      if s.jobs[k].req.Lane() == req.Lane() {
        NoTwinIsRemembered(s, j, k);
      }
    }
  }

  lemma StepKeepsFirst(c: Config, s: State, step: Step, j: JobId, req: Request)
    requires OnceInv(s) && JobsOk(s) && Enabled(c, s, step) && Spared(s, step, j, req) && KeptFirst(s, j, req)
    ensures KeptFirst(Apply(c, s, step), j, req)
  {
    if step.Worker? {
      WorkerKeepsFirst(c, s, step.job, step.workerAct, j, req);
    } else if j in s.jobs {
      DispatcherUntouched(c, s, step, j);
    }
  }

  /** Only the worker goroutine moves a dispatcher call and its records, once it is started. */
  lemma DispatcherUntouched(c: Config, s: State, step: Step, j: JobId)
    requires Enabled(c, s, step) && !step.Worker? && j in s.jobs && JobOk(s.jobs[j])
    ensures var s' := Apply(c, s, step);
            j in s'.jobs && StaysOrStarts(s.jobs[j], s'.jobs[j]) && s'.records == s.records
  {
    match step
    case Handler(k, act) =>
      if k == j {
        HandleLeavesDispatcher(c, s, k, s.jobs[k], act);
      }
    case Caller(k, act) => CallerLeavesDispatcher(c, s, k, s.jobs[k], act);
    case _ =>
  }

  lemma RunStepKeepsFirst(c: Config, states: seq<State>, steps: seq<Step>, n: nat, j: JobId, req: Request)
    requires PromptRun(c, states, steps) && n < |steps| && Spared(states[n], steps[n], j, req)
    requires KeptFirst(states[n], j, req)
    ensures KeptFirst(states[n + 1], j, req)
  {
    var s, step := states[n], steps[n];
    assert OnceInv(s) by { RunKeepsOnce(c, states, steps, n); }
    assert JobsOk(s) by { RunKeepsInv(c, states, steps, n); }
    assert Enabled(c, s, step) && states[n + 1] == Apply(c, s, step) by { assert StepAt(c, states, steps, n); }
    StepKeepsFirst(c, s, step, j, req);
  }

  lemma {:induction false} RunKeepsFirst(c: Config, states: seq<State>, steps: seq<Step>, i: nat, j: JobId, req: Request)
    requires PromptRun(c, states, steps) && i < |states|
    requires forall m :: 0 <= m < i ==> Spared(states[m], steps[m], j, req)
    ensures KeptFirst(states[i], j, req)
  {
    if i > 0 {
      RunKeepsFirst(c, states, steps, i - 1, j, req);
      RunStepKeepsFirst(c, states, steps, i - 1, j, req);
    }
  }

  /** Unless a job of another lane has written the record since, a later sending gets the first response, or 409 for
  another payload. */
  lemma SparedSendingGetsFirstResponse(c: Config, states: seq<State>, steps: seq<Step>, i: nat, j: JobId, k: JobId)
    requires PromptRun(c, states, steps) && i < |steps| && Retries(states[i], steps[i], j, k)
    requires forall m :: 0 <= m < i ==> Spared(states[m], steps[m], j, states[i].jobs[j].req)
    ensures k in states[i + 1].jobs
    ensures states[i + 1].jobs[k].worker == Delivering(Ok(Expected(states[i].jobs[j], states[i].jobs[k].req)))
  {
    var s := states[i];
    var first, later := s.jobs[j], s.jobs[k];
    assert KeptFirst(s, j, first.req) by { RunKeepsFirst(c, states, steps, i, j, first.req); }
    assert first.req.Key() == later.req.Key() by { SameKey(first.req, later.req); }
    assert !first.worker.Remembering? by {
      RunKeepsInv(c, states, steps, i);
      if first.worker.Remembering? {
        RunningIsCurrent(c, s, j, k);
      }
    }
    LaterSendingGetsLastRecord(c, states, steps, i, j, k);
    RecordIsLastRemembered(c, states, steps, i, later.req.Key());
  }

  /** What clients can see to: whoever uses the uid, command and sequence of `req` names its role. */
  ghost predicate KeyFixesLane(s: State, req: Request) {
    forall k :: k in s.jobs && SameTriple(s.jobs[k].req, req) ==> s.jobs[k].req.Lane() == req.Lane()
  }

  /** Then every later sending gets the first response, or 409 for another payload. */
  lemma LaterSendingGetsFirstResponse(c: Config, states: seq<State>, steps: seq<Step>, i: nat, j: JobId, k: JobId)
    requires PromptRun(c, states, steps) && i < |steps| && Retries(states[i], steps[i], j, k)
    requires forall m :: 0 <= m < i ==> KeyFixesLane(states[m], states[i].jobs[j].req)
    ensures k in states[i + 1].jobs
    ensures var first, later := states[i].jobs[j], states[i].jobs[k];
            states[i + 1].jobs[k].worker ==
            Delivering(Ok(if later.req.payload == first.req.payload then first.succeeded.value
                          else Conflict(later.req)))
  {
    var req := states[i].jobs[j].req;
    forall m | 0 <= m < i
      ensures Spared(states[m], steps[m], j, req)
    {
      assert KeyFixesLane(states[m], req);
      if Remembers(states[m], steps[m], req.Key()) {
        SameKey(states[m].jobs[steps[m].job].req, req);
      }
    }
    SparedSendingGetsFirstResponse(c, states, steps, i, j, k);
  }
}
