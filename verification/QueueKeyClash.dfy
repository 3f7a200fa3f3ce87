/** Two roles of one account that use the same command and sequence share an idempotency key and not a lane: every such
pair of requests can lose the first one's response. */
module QueueKeyClash {
  import opened Options
  import opened Subsequences
  import opened RequestQueue
  import opened RequestQueueLimits
  import opened QueueIdempotence

  /** Same key, different lanes and different payloads. */
  predicate Clash(a: Request, b: Request) {
    a.Keyed() && SameTriple(a, b) && a.Lane() != b.Lane() && a.payload != b.payload
  }

  /** Two requests can be admitted and run at once. */
  predicate Parallel(c: Config) {
    c.workers >= 2 && c.capacity >= 2 && c.roleCapacity >= 1
  }

  /** Everything but one job and the records is as it was. */
  ghost predicate OnlyJobAndRecords(s: State, s': State, j: JobId) {
    && s'.jobs.Keys == s.jobs.Keys
    && (forall k :: k in s.jobs && k != j ==> s'.jobs[k] == s.jobs[k])
    && s'.lanes == s.lanes && s'.tokens == s.tokens && s'.slots == s.slots
  }

  lemma PutTwice(s: State, j: JobId, mid: Job, job: Job)
    ensures Put(Put(s, j, mid), j, job) == Put(s, j, job)
  {
  }

  lemma LookStep(c: Config, s: State, j: JobId)
    requires j in s.jobs && s.jobs[j].worker.Looking? && s.jobs[j].req.Keyed() && s.jobs[j].req.Key() !in s.records
    ensures Enabled(c, s, Worker(j, Look))
    ensures Apply(c, s, Worker(j, Look)) == Put(s, j, s.jobs[j].(worker := if c.store then Fetching else Executing))
  {
  }

  lemma FetchStep(c: Config, s: State, j: JobId)
    requires j in s.jobs && s.jobs[j].worker.Fetching?
    ensures Enabled(c, s, Worker(j, Fetch(StoreAnswer.Miss)))
    ensures Apply(c, s, Worker(j, Fetch(StoreAnswer.Miss))) == Put(s, j, s.jobs[j].(worker := Executing))
  {
  }

  /** A keyed request misses in memory and, where there is one, in the store. */
  lemma Miss(c: Config, states: seq<State>, steps: seq<Step>, j: JobId)
      returns (states': seq<State>, steps': seq<Step>)
    requires IsRun(c, states, steps)
    requires var s := Last(states);
             j in s.jobs && s.jobs[j].worker.Looking? && s.jobs[j].req.Keyed() && s.jobs[j].req.Key() !in s.records
    ensures IsRun(c, states', steps') && states <= states'
    ensures Last(states') == Put(Last(states), j, Last(states).jobs[j].(worker := Executing))
  {
    var s := Last(states);
    LookStep(c, s, j);
    states', steps' := Extend(c, states, steps, Worker(j, Look));
    if c.store {
      FetchStep(c, Last(states'), j);
      states', steps' := Extend(c, states', steps', Worker(j, Fetch(StoreAnswer.Miss)));
      PutTwice(s, j, s.jobs[j].(worker := Fetching), s.jobs[j].(worker := Executing));
    }
  }

  /** A response is remembered and, where there is a store, saved. */
  lemma RememberSuccess(c: Config, states: seq<State>, steps: seq<Step>, j: JobId, resp: Response)
      returns (states': seq<State>, steps': seq<Step>)
    requires IsRun(c, states, steps)
    requires j in Last(states).jobs && Last(states).jobs[j].worker == Remembering(resp, true)
    ensures IsRun(c, states', steps') && states <= states'
    ensures var s, s' := Last(states), Last(states');
            && OnlyJobAndRecords(s, s', j)
            && s'.jobs[j] == s.jobs[j].(worker := Delivering(Ok(resp)))
            && s'.records == s.records[s.jobs[j].req.Key() := Record(s.jobs[j].req.payload, resp)]
  {
    ActIsStep(c, Last(states), j, Remember);
    states', steps' := Extend(c, states, steps, Worker(j, Remember));
    if c.store {
      ActIsStep(c, Last(states'), j, Store(None));
      states', steps' := Extend(c, states', steps', Worker(j, Store(None)));
    }
  }

  /** A keyed request at the dispatcher executes and is recorded. */
  lemma ExecuteAndRemember(c: Config, states: seq<State>, steps: seq<Step>, j: JobId, resp: Response)
      returns (states': seq<State>, steps': seq<Step>)
    requires IsRun(c, states, steps)
    requires var s := Last(states); j in s.jobs && s.jobs[j].worker.Executing? && s.jobs[j].req.Keyed()
    ensures IsRun(c, states', steps') && states <= states'
    ensures var s, s' := Last(states), Last(states');
            && OnlyJobAndRecords(s, s', j)
            && s'.jobs[j] == s.jobs[j].(succeeded := Some(resp), worker := Delivering(Ok(resp)))
            && s'.records == s.records[s.jobs[j].req.Key() := Record(s.jobs[j].req.payload, resp)]
  {
    ActIsStep(c, Last(states), j, Execute(Ok(resp)));
    states', steps' := Extend(c, states, steps, Worker(j, Execute(Ok(resp))));
    states', steps' := RememberSuccess(c, states', steps', j, resp);
  }

  /** One job moved on in its handler, nothing else about it or the others changed. */
  ghost predicate OnlyHandled(s: State, s': State, j: JobId) {
    && j in s.jobs && s'.jobs.Keys == s.jobs.Keys
    && (forall k :: k in s.jobs && k != j ==> s'.jobs[k] == s.jobs[k])
    && s'.jobs[j].req == s.jobs[j].req && s'.jobs[j].succeeded == s.jobs[j].succeeded
    && s'.jobs[j].ctx == s.jobs[j].ctx && s'.records == s.records
  }

  lemma DeliverStep(c: Config, s: State, j: JobId)
    requires j in s.jobs && s.jobs[j].worker.Delivering? && s.jobs[j].inner.None?
    ensures Enabled(c, s, Worker(j, Deliver))
    ensures var res := s.jobs[j].worker.res;
            Apply(c, s, Worker(j, Deliver)) == Put(s, j, s.jobs[j].(worker := FreeingSlot(res), inner := Some(res)))
  {
  }

  lemma FreeSlotStep(c: Config, s: State, j: JobId)
    requires j in s.jobs && s.jobs[j].worker.FreeingSlot? && !s.jobs[j].slotReleased && s.slots > 0
    ensures Enabled(c, s, Worker(j, FreeSlot))
    ensures Apply(c, s, Worker(j, FreeSlot)) ==
            Put(s, j, s.jobs[j].(worker := Exited(s.jobs[j].worker.res), slotReleased := true)).(slots := s.slots - 1)
  {
  }

  lemma TakeResult(c: Config, states: seq<State>, steps: seq<Step>, j: JobId)
      returns (states': seq<State>, steps': seq<Step>)
    requires IsRun(c, states, steps)
    requires var s := Last(states);
             && j in s.jobs && s.jobs[j].worker.Delivering? && s.jobs[j].handle.Awaiting?
             && s.jobs[j].inner.None? && !s.jobs[j].slotReleased && s.slots > 0
    ensures IsRun(c, states', steps') && states <= states'
    ensures var s, s' := Last(states), Last(states');
            && OnlyHandled(s, s', j)
            && s'.jobs[j].handle.Sending? && s'.jobs[j].result == s.jobs[j].result
            && s'.jobs[j].released == s.jobs[j].released
            && s'.slots == s.slots - 1 && s'.tokens == s.tokens && s'.lanes == s.lanes
  {
    DeliverStep(c, Last(states), j);
    states', steps' := Extend(c, states, steps, Worker(j, Deliver));
    FreeSlotStep(c, Last(states'), j);
    states', steps' := Extend(c, states', steps', Worker(j, FreeSlot));
    states', steps' := Extend(c, states', steps', Handler(j, Await(Proceed)));
  }

  /** A delivered result lets handle finish the job. */
  lemma FinishHandle(c: Config, states: seq<State>, steps: seq<Step>, j: JobId)
      returns (states': seq<State>, steps': seq<Step>)
    requires IsRun(c, states, steps)
    requires var s := Last(states);
             && j in s.jobs && s.jobs[j].worker.Delivering? && s.jobs[j].handle.Awaiting? && s.jobs[j].result.None?
             && s.jobs[j].inner.None? && !s.jobs[j].released && !s.jobs[j].slotReleased
             && s.tokens > 0 && s.slots > 0
             && s.jobs[j].req.Lane() in s.lanes && s.lanes[s.jobs[j].req.Lane()].queue == []
    ensures IsRun(c, states', steps') && states <= states'
    ensures var s, s' := Last(states), Last(states');
            && OnlyHandled(s, s', j)
            && s'.tokens == s.tokens - 1 && s'.slots == s.slots - 1 && LaneWaits(s', s.jobs[j].req.Lane())
  {
    states', steps' := TakeResult(c, states, steps, j);
    states', steps' := Extend(c, states', steps', Handler(j, Send));
    states', steps' := Extend(c, states', steps', Handler(j, Free));
  }

  function AtDispatcher(req: Request): Job {
    Queued(req).(handle := Awaiting, worker := Looking)
  }

  function AtExecutor(req: Request): Job {
    Queued(req).(handle := Awaiting, worker := Executing)
  }

  /** Both requests reach the dispatcher, because neither lane waits for the other. */
  lemma BothLook(c: Config, a: Request, b: Request) returns (states: seq<State>, steps: seq<Step>)
    requires Parallel(c) && Clash(a, b)
    ensures IsRun(c, states, steps)
    ensures var s := Last(states);
            && s.jobs == map[0 := AtDispatcher(a), 1 := AtDispatcher(b)]
            && s.records == map[] && s.tokens == s.slots == 2 && a.Lane() in s.lanes && s.lanes[a.Lane()].queue == []
  {
    states, steps := Drive(c, [INIT], [], 0, a);
    assert Last(states).jobs == map[0 := AtDispatcher(a)];
    states, steps := Drive(c, states, steps, 1, b);
  }

  /** Both requests miss. */
  lemma BothMiss(c: Config, a: Request, b: Request) returns (states: seq<State>, steps: seq<Step>)
    requires Parallel(c) && Clash(a, b)
    ensures IsRun(c, states, steps)
    ensures var s := Last(states);
            && s.jobs == map[0 := AtExecutor(a), 1 := AtExecutor(b)]
            && s.records == map[] && s.tokens == s.slots == 2 && a.Lane() in s.lanes && s.lanes[a.Lane()].queue == []
  {
    states, steps := BothLook(c, a, b);
    states, steps := Miss(c, states, steps, 0);
    assert Last(states).jobs == map[0 := AtExecutor(a), 1 := AtDispatcher(b)];
    states, steps := Miss(c, states, steps, 1);
  }

  function Executed(req: Request, resp: Response): Job {
    Queued(req).(handle := Awaiting, succeeded := Some(resp), worker := Delivering(Ok(resp)))
  }

  /** Both execute, and the second record overwrites the first. */
  lemma Overwrites(c: Config, a: Request, b: Request, resp: Response) returns (states: seq<State>, steps: seq<Step>)
    requires Parallel(c) && Clash(a, b)
    ensures IsRun(c, states, steps)
    ensures var s := Last(states);
            && s.jobs == map[0 := Executed(a, resp), 1 := Executed(b, resp)]
            && s.records == map[a.Key() := Record(b.payload, resp)]
            && s.tokens == s.slots == 2 && a.Lane() in s.lanes && s.lanes[a.Lane()].queue == []
  {
    SameKey(a, b);
    states, steps := BothMiss(c, a, b);
    states, steps := ExecuteAndRemember(c, states, steps, 0, resp);
    states, steps := ExecuteAndRemember(c, states, steps, 1, resp);
  }

  /** The first request's handle is over and its retry has reached the dispatcher. */
  lemma Retry(c: Config, a: Request, b: Request, resp: Response) returns (states: seq<State>, steps: seq<Step>)
    requires Parallel(c) && Clash(a, b)
    ensures IsRun(c, states, steps)
    ensures var s := Last(states);
            && s.jobs.Keys == {0, 1, 2} && s.jobs[0].req == s.jobs[2].req == a
            && s.jobs[0].succeeded == Some(resp) && s.jobs[2].worker == Looking
            && s.records == map[a.Key() := Record(b.payload, resp)]
            && s.jobs[0].ctx.Live? && s.jobs[1].ctx.Live? && s.jobs[2].ctx.Live?
  {
    states, steps := Overwrites(c, a, b, resp);
    states, steps := FinishHandle(c, states, steps, 0);
    states, steps := Drive(c, states, steps, 2, a);
  }

  /** For every clashing pair, every response and every configuration that runs two requests at once: both execute,
  the second overwrites the record, and a plain retry of the first is refused with 409 although it had succeeded.
  Every context is live. */
  lemma CrossRoleRetryIsRefused(c: Config, a: Request, b: Request, resp: Response)
      returns (states: seq<State>, steps: seq<Step>)
    requires Parallel(c) && Clash(a, b)
    ensures IsRun(c, states, steps)
    ensures var s := Last(states);
            && s.jobs.Keys == {0, 1, 2} && s.jobs[0].req == s.jobs[2].req == a
            && s.jobs[0].succeeded == Some(resp)
            && s.jobs[2].worker == Delivering(Ok(Conflict(a)))
            && forall j :: j in s.jobs ==> s.jobs[j].ctx.Live?
  {
    states, steps := Retry(c, a, b, resp);
    ActIsStep(c, Last(states), 2, Look);
    states, steps := Extend(c, states, steps, Worker(2, Look));
  }
}
