/** What holds in every state of every run of the command queue. */
module RequestQueueTheorems {
  import opened Options
  import opened Counting
  import opened Subsequences
  import opened RequestQueue
  import opened RequestQueueSafety

  /** Tokens in the capacity channel are the admitted jobs whose release has not fired; worker slots likewise. */
  lemma SemaphoresConserved(c: Config, states: seq<State>, steps: seq<Step>, i: nat)
    requires IsRun(c, states, steps) && i < |states|
    ensures var s := states[i];
            && s.tokens == |set j | j in s.jobs && s.jobs[j].admitted && !s.jobs[j].released| <= c.capacity
            && s.slots == |set j | j in s.jobs && !s.jobs[j].worker.NoWorker? && !s.jobs[j].slotReleased| <= c.workers
  {
    RunKeepsInv(c, states, steps, i);
    var s := states[i];
    assert Matching(s.jobs, IsOpen) == set j | j in s.jobs && s.jobs[j].admitted && !s.jobs[j].released;
    assert Matching(s.jobs, HoldsSlot) == set j | j in s.jobs && !s.jobs[j].worker.NoWorker? && !s.jobs[j].slotReleased;
  }

  /** No release receive and no result send ever blocks: the goroutine standing at one can always take it. */
  lemma ReleasesAndSendsNeverBlock(c: Config, states: seq<State>, steps: seq<Step>, i: nat, j: JobId)
    requires IsRun(c, states, steps) && i < |states| && j in states[i].jobs
    ensures var s := states[i]; var job := s.jobs[j];
            && (job.pc.Releasing? ==> Enabled(c, s, Caller(j, Release)))
            && (job.handle.Freeing? ==> Enabled(c, s, Handler(j, Free)))
            && (job.handle.FreeingWorker? ==> Enabled(c, s, Handler(j, FreeWorker)))
            && (job.handle.Sending? ==> Enabled(c, s, Handler(j, Send)))
            && (job.worker.Delivering? ==> Enabled(c, s, Worker(j, Deliver)))
            && (job.worker.FreeingSlot? ==> Enabled(c, s, Worker(j, FreeSlot)))
  {
    var s := states[i];
    var job := s.jobs[j];
    assert JobOk(job) && Placed(s, j, job) && (IsOpen(job) ==> s.tokens > 0) && (HoldsSlot(job) ==> s.slots > 0) by {
      RunKeepsInv(c, states, steps, i);
      if IsOpen(job) {
        CountPositive(s.jobs, IsOpen, j);
      }
      if HoldsSlot(job) {
        CountPositive(s.jobs, HoldsSlot, j);
      }
    }
  }

  /** When Dispatch has returned and handle, if the job was dequeued, is over, the token is back. */
  lemma ReleasedWhenDone(c: Config, states: seq<State>, steps: seq<Step>, i: nat, j: JobId)
    requires IsRun(c, states, steps) && i < |states| && j in states[i].jobs
    requires states[i].jobs[j].pc.Returned? && !states[i].jobs[j].InHandle()
    ensures states[i].jobs[j].released == states[i].jobs[j].admitted
  {
    RunKeepsInv(c, states, steps, i);
  }

  /** At most one job of a role is between dequeue and the end of handle. */
  lemma OneJobInHandle(c: Config, states: seq<State>, steps: seq<Step>, i: nat, j: JobId, k: JobId)
    requires IsRun(c, states, steps) && i < |states| && j in states[i].jobs && k in states[i].jobs
    requires states[i].jobs[j].InHandle() && states[i].jobs[k].InHandle()
    requires states[i].jobs[j].req.Lane() == states[i].jobs[k].req.Lane()
    ensures j == k
  {
    RunKeepsInv(c, states, steps, i);
    assert Placed(states[i], j, states[i].jobs[j]) && Placed(states[i], k, states[i].jobs[k]);
  }

  /** When a worker is started for a role, every worker started earlier for it has returned or lost its context. */
  lemma EarlierHandlersAreOver(c: Config, states: seq<State>, steps: seq<Step>, i: nat, j: JobId, k: JobId)
    requires IsRun(c, states, steps) && i < |steps| && StepAt(c, states, steps, i)
    requires steps[i] == Handler(j, Acquire(Proceed))
    requires k in states[i].lanes[states[i].jobs[j].req.Lane()].spawned
    ensures k in states[i].jobs && k != j
    ensures states[i].jobs[k].worker.Finished() || states[i].jobs[k].ctx.Ended?
  {
    RunKeepsInv(c, states, steps, i);
    var s := states[i];
    assert LaneOk(c, s, s.jobs[j].req.Lane(), s.lanes[s.jobs[j].req.Lane()]);
    assert Placed(s, j, s.jobs[j]) && Placed(s, k, s.jobs[k]);
  }

  /** Of the workers started for a role, all but the latest have returned or lost their context, in every state. */
  lemma AllButLatestAreOver(c: Config, states: seq<State>, steps: seq<Step>, i: nat, r: int, a: nat, b: nat)
    requires IsRun(c, states, steps) && i < |states| && r in states[i].lanes && a < b < |states[i].lanes[r].spawned|
    ensures var j := states[i].lanes[r].spawned[a];
            j in states[i].jobs && (states[i].jobs[j].worker.Finished() || states[i].jobs[j].ctx.Ended?)
  {
    RunKeepsInv(c, states, steps, i);
    var s, lane := states[i], states[i].lanes[r];
    var j := lane.spawned[a];
    assert LaneOk(c, s, r, lane) && j in lane.spawned;
    assert Placed(s, j, s.jobs[j]);
    var at: seq<nat> :| Selects(at, lane.spawned, lane.taken);
    assert at[a] < at[b] < |lane.taken|;
    assert lane.taken[at[a]] == j && lane.taken[|lane.taken| - 1] != j;
  }

  /** Two workers of one role run at once only if the one started earlier has lost its context. */
  lemma OverlapNeedsEndedContext(c: Config, states: seq<State>, steps: seq<Step>, i: nat, j: JobId, k: JobId)
    requires IsRun(c, states, steps) && i < |states| && j in states[i].jobs && k in states[i].jobs && j != k
    requires states[i].jobs[j].req.Lane() == states[i].jobs[k].req.Lane()
    requires states[i].jobs[j].worker.Running() && states[i].jobs[k].worker.Running()
    ensures var s, r := states[i], states[i].jobs[j].req.Lane();
            && r in s.lanes
            && exists a, b :: 0 <= a < |s.lanes[r].spawned| && 0 <= b < |s.lanes[r].spawned|
                              && s.lanes[r].spawned[a] == j && s.lanes[r].spawned[b] == k
                              && if a < b then s.jobs[j].ctx.Ended? else b < a && s.jobs[k].ctx.Ended?
  {
    var s, r := states[i], states[i].jobs[j].req.Lane();
    assert r in s.lanes && j in s.lanes[r].spawned && k in s.lanes[r].spawned by {
      RunKeepsInv(c, states, steps, i);
      assert Placed(s, j, s.jobs[j]) && Placed(s, k, s.jobs[k]);
    }
    var a :| 0 <= a < |s.lanes[r].spawned| && s.lanes[r].spawned[a] == j;
    var b :| 0 <= b < |s.lanes[r].spawned| && s.lanes[r].spawned[b] == k;
    if a < b {
      AllButLatestAreOver(c, states, steps, i, r, a, b);
    } else {
      AllButLatestAreOver(c, states, steps, i, r, b, a);
    }
  }

  predicate LiveWorker(job: Job) { job.worker.Running() && job.ctx.Live? }

  /** At most Workers handlers with a live context run at once. */
  lemma WorkersBoundLiveHandlers(c: Config, states: seq<State>, steps: seq<Step>, i: nat)
    requires IsRun(c, states, steps) && i < |states|
    ensures Count(states[i].jobs, LiveWorker) <= c.workers
  {
    RunKeepsInv(c, states, steps, i);
    CountMonotone(states[i].jobs, LiveWorker, HoldsSlot);
  }

  /** Per role: dequeued then queued jobs are the accepted jobs in order, workers are started in a subsequence
  of that order, and no job appears twice. */
  lemma LaneIsFifo(c: Config, states: seq<State>, steps: seq<Step>, i: nat, r: int)
    requires IsRun(c, states, steps) && i < |states| && r in states[i].lanes
    ensures var lane := states[i].lanes[r];
            && lane.taken + lane.queue == lane.accepted
            && IsSubseq(lane.spawned, lane.taken)
            && NoDup(lane.accepted) && NoDup(lane.spawned)
            && |lane.queue| <= c.roleCapacity
  {
    RunKeepsInv(c, states, steps, i);
    var lane := states[i].lanes[r];
    assert LaneOk(c, states[i], r, lane);
    NoDupConcat(lane.taken, lane.queue);
  }

  /** The histories a lane keeps only grow at the end. */
  lemma {:induction false} HistoriesGrow(c: Config, states: seq<State>, steps: seq<Step>, i: nat, k: nat, r: int)
    requires IsRun(c, states, steps) && i <= k < |states| && r in states[i].lanes
    ensures r in states[k].lanes
    ensures var a, b := states[i].lanes[r], states[k].lanes[r];
            a.accepted <= b.accepted && a.taken <= b.taken && a.spawned <= b.spawned
    decreases k
  {
    if i < k {
      HistoriesGrow(c, states, steps, i, k - 1, r);
      assert StepAt(c, states, steps, k - 1);
      StepGrowsHistory(c, states[k - 1], steps[k - 1], r);
    }
  }

  lemma StepGrowsHistory(c: Config, s: State, step: Step, r: int)
    requires Enabled(c, s, step) && r in s.lanes
    ensures var s' := Apply(c, s, step);
            && r in s'.lanes
            && s.lanes[r].accepted <= s'.lanes[r].accepted
            && s.lanes[r].taken <= s'.lanes[r].taken
            && s.lanes[r].spawned <= s'.lanes[r].spawned
  {
    match step
    case Caller(j, act) => assert act == Queue(Proceed) || act == FindLane || Apply(c, s, step).lanes == s.lanes;
    case Handler(j, act) =>
    case _ =>
  }

  /** A request the queue answers with queue-full was never accepted by a lane and never run. */
  lemma QueueFullNeverRuns(c: Config, states: seq<State>, steps: seq<Step>, i: nat, j: JobId)
    requires IsRun(c, states, steps) && i < |states| && j in states[i].jobs
    requires states[i].jobs[j].pc == Returned(QueueFull)
    ensures states[i].jobs[j].worker.NoWorker? && states[i].jobs[j].succeeded.None?
    ensures forall r :: r in states[i].lanes ==> j !in states[i].lanes[r].accepted && j !in states[i].lanes[r].spawned
  {
    RunKeepsInv(c, states, steps, i);
    var s := states[i];
    assert JobOk(s.jobs[j]);
    forall r | r in s.lanes
      ensures j !in s.lanes[r].accepted && j !in s.lanes[r].spawned
    {
      assert LaneOk(c, s, r, s.lanes[r]);
    }
  }

  /** A response that reaches the caller through the queue is the one its own worker produced. */
  lemma AnswerIsOwnHandlers(c: Config, states: seq<State>, steps: seq<Step>, i: nat, j: JobId, resp: Response)
    requires IsRun(c, states, steps) && i < |states| && j in states[i].jobs
    requires states[i].jobs[j].pc == Returned(FromHandler(Ok(resp)))
    ensures states[i].jobs[j].worker.Finished() && states[i].jobs[j].worker.res == Ok(resp)
  {
    RunKeepsInv(c, states, steps, i);
  }
}
