/** Leases and retries, in runs in which no relay marks a row after its lock has expired. */
module LeaseSafety {
  import opened Options
  import opened GlobalMail
  import opened MailPipeline

  /** The step, if it is a mark that takes effect, comes before the lease runs out. */
  predicate OnTime(w: World, step: Step) {
    step.Relaying? && step.relayAct.Do? && !step.relayAct.fault.Lost? && AtWork(w, step.id)
    && (w.relays[step.id].stage.MarkSent? || w.relays[step.id].stage.MarkFailed?) ==>
      w.clock < w.relays[step.id].todo[0].until
  }

  ghost predicate OnTimeRun(c: Config, worlds: seq<World>, steps: seq<Step>) {
    IsRun(c, worlds, steps) && c.maxRetries > 0 && forall i :: 0 <= i < |steps| ==> OnTime(worlds[i], steps[i])
  }

  /** While the lease runs, the row is locked by it and belongs to the relay. */
  predicate LeaseOk(w: World, r: nat, l: Lease) {
    w.clock < l.until ==>
      && l.event in w.db.outbox && w.db.outbox[l.event].status.Processing?
      && w.db.outbox[l.event].lockedUntil == Some(l.until)
      && l.event in w.owners && w.owners[l.event] == r
  }

  ghost predicate RelayOk(w: World, r: nat) {
    r in w.relays && w.relays[r].Working? ==>
      var todo := w.relays[r].todo;
      && todo != []
      && (forall i :: 0 <= i < |todo| ==> LeaseOk(w, r, todo[i]))
      && (forall i, j :: 0 <= i < j < |todo| ==> todo[i].event != todo[j].event)
      && (w.relays[r].stage.MarkFailed? && w.clock < todo[0].until ==>
            w.db.outbox[todo[0].event].retryCount == w.relays[r].stage.retries)
  }

  predicate RowOk(c: Config, w: World, e: int)
    requires e in w.db.outbox
  {
    var row := w.db.outbox[e];
    && row.retryCount == Failures(w, e) <= c.maxRetries
    && (row.status.Failed? <==> row.retryCount == c.maxRetries)
  }

  ghost predicate Inv(c: Config, w: World) {
    && (forall r :: RelayOk(w, r))
    && (forall e :: e in w.db.outbox ==> RowOk(c, w, e))
    && (forall e :: e in w.failures ==> e in w.db.outbox)
  }

  /** No lease that still runs sees its row change. */
  ghost predicate Undisturbed(w: World, w': World, r: nat) {
    && w.clock <= w'.clock
    && (r in w'.relays <==> r in w.relays) && (r in w.relays ==> w'.relays[r] == w.relays[r])
    && forall e :: e in w.db.outbox && w.db.outbox[e].status.Processing?
                   && w.db.outbox[e].lockedUntil.Some? && w.clock < w.db.outbox[e].lockedUntil.value
                   && e in w.owners && w.owners[e] == r ==>
         && e in w'.db.outbox && w'.db.outbox[e] == w.db.outbox[e]
         && e in w'.owners && w'.owners[e] == r
  }

  lemma UndisturbedKeepsRelay(w: World, w': World, r: nat)
    requires RelayOk(w, r) && Undisturbed(w, w', r)
    ensures RelayOk(w', r)
  {
  }

  lemma OthersUndisturbed(c: Config, w: World, id: nat, act: RelayAct, r: nat)
    requires RelayOk(w, id) && RelayEnabled(w, id, act) && OnTime(w, Relaying(id, act)) && r != id
    ensures Undisturbed(w, RelayStep(c, w, id, act), r)
  {
    match act
    case Start =>
    case Fetch(ids, fault) =>
    case Do(fault) =>
      assert LeaseOk(w, id, w.relays[id].todo[0]);
    case StageFails =>
    case Stop =>
  }

  /** The relay's own step: what it drops may change, what it keeps is untouched. */
  lemma DoKeepsOwn(c: Config, w: World, id: nat, fault: Fault)
    requires RelayOk(w, id) && RelayEnabled(w, id, Do(fault))
    ensures RelayOk(RelayStep(c, w, id, Do(fault)), id)
  {
    var w' := RelayStep(c, w, id, Do(fault));
    var todo := w.relays[id].todo;
    assert w'.relays[id] == StageAfter(w, todo, w.relays[id].stage, fault);
    forall i | 0 <= i < |todo|
      ensures LeaseOk(w, id, todo[i]) && (i > 0 ==> LeaseOk(w', id, todo[i]))
    {
    }
    match w.relays[id].stage
    case Decode =>
    case Load =>
    case SetDetail(_) =>
    case SetIndex(_) =>
    case Raise =>
    case Notify =>
    case MarkSent =>
    case ReadRetries =>
    case MarkFailed(_, _) =>
  }

  /** What a relay fetches it has just locked. */
  lemma FetchKeepsOwn(c: Config, w: World, id: nat, ids: seq<int>, fault: Fault)
    requires RelayEnabled(w, id, MailPipeline.Fetch(ids, fault))
    ensures RelayOk(RelayStep(c, w, id, MailPipeline.Fetch(ids, fault)), id)
  {
    var w' := RelayStep(c, w, id, MailPipeline.Fetch(ids, fault));
    if fault.Fine? && ids != [] {
      var until := w.relays[id].until;
      assert w'.relays[id] == Working(MailPipeline.Leases(w.db.outbox, ids, until), Decode);
      forall i | 0 <= i < |ids|
        ensures LeaseOk(w', id, LeaseOf(w.db.outbox, ids[i], until))
      {
        assert ids[i] in ids;
      }
    }
  }

  lemma RelayKeepsOwn(c: Config, w: World, id: nat, act: RelayAct)
    requires RelayOk(w, id) && RelayEnabled(w, id, act)
    ensures RelayOk(RelayStep(c, w, id, act), id)
  {
    match act
    case Start =>
    case Fetch(ids, fault) => FetchKeepsOwn(c, w, id, ids, fault);
    case Do(fault) => DoKeepsOwn(c, w, id, fault);
    case StageFails =>
    case Stop =>
  }

  lemma StepKeepsRelay(c: Config, w: World, step: Step, r: nat)
    requires Inv(c, w) && Enabled(w, step) && OnTime(w, step)
    ensures RelayOk(Apply(c, w, step), r)
  {
    assert RelayOk(w, r);
    match step
    case Tick(_) => UndisturbedKeepsRelay(w, Apply(c, w, step), r);
    case DetailExpires(_) => UndisturbedKeepsRelay(w, Apply(c, w, step), r);
    case Publish(_, _) => UndisturbedKeepsRelay(w, Apply(c, w, step), r);
    case Relaying(id, act) =>
      if id == r {
        RelayKeepsOwn(c, w, id, act);
      } else {
        OthersUndisturbed(c, w, id, act, r);
        UndisturbedKeepsRelay(w, Apply(c, w, step), r);
      }
    case Refresh(_, _) => UndisturbedKeepsRelay(w, Apply(c, w, step), r);
  }

  // ---------- rows ----------

  /** Rows a step may touch: unlocked ones when fetching, the relay's own when marking. */
  lemma RelayKeepsRow(c: Config, w: World, id: nat, act: RelayAct, e: int)
    requires c.maxRetries > 0 && RelayOk(w, id) && RelayEnabled(w, id, act) && OnTime(w, Relaying(id, act))
    requires e in w.db.outbox && RowOk(c, w, e)
    ensures var w' := RelayStep(c, w, id, act);
            && e in w'.db.outbox && RowOk(c, w', e)
            && (w.db.outbox[e].status.Sent? || w.db.outbox[e].status.Failed? ==> w'.db.outbox[e] == w.db.outbox[e])
  {
    match act
    case Start =>
    case Fetch(ids, fault) =>
    case Do(fault) =>
      assert LeaseOk(w, id, w.relays[id].todo[0]);
    case StageFails =>
    case Stop =>
  }

  lemma StepKeepsRow(c: Config, w: World, step: Step, e: int)
    requires c.maxRetries > 0 && Inv(c, w) && Enabled(w, step) && OnTime(w, step)
    ensures var w' := Apply(c, w, step);
            && (e in w'.db.outbox ==> RowOk(c, w', e))
            && (e in w.db.outbox ==> e in w'.db.outbox)
            && (e in w.db.outbox && (w.db.outbox[e].status.Sent? || w.db.outbox[e].status.Failed?) ==>
                  w'.db.outbox[e] == w.db.outbox[e])
  {
    match step
    case Tick(_) =>
    case DetailExpires(_) =>
    case Publish(_, _) =>
    case Relaying(id, act) =>
      assert RelayOk(w, id);
      if e in w.db.outbox {
        RelayKeepsRow(c, w, id, act, e);
      }
    case Refresh(_, _) =>
  }

  lemma StepKeepsInv(c: Config, w: World, step: Step)
    requires c.maxRetries > 0 && Inv(c, w) && Enabled(w, step) && OnTime(w, step)
    ensures Inv(c, Apply(c, w, step))
  {
    var w' := Apply(c, w, step);
    forall r: nat
      ensures RelayOk(w', r)
    {
      StepKeepsRelay(c, w, step, r);
    }
    forall e | e in w'.db.outbox
      ensures RowOk(c, w', e)
    {
      StepKeepsRow(c, w, step, e);
    }
    forall e | e in w'.failures
      ensures e in w'.db.outbox
    {
      StepKeepsRow(c, w, step, e);
    }
  }

  lemma {:induction false} RunKeepsInv(c: Config, worlds: seq<World>, steps: seq<Step>, i: nat)
    requires OnTimeRun(c, worlds, steps) && i < |worlds|
    ensures Inv(c, worlds[i])
  {
    if i > 0 {
      RunKeepsInv(c, worlds, steps, i - 1);
      assert StepAt(c, worlds, steps, i - 1) && OnTime(worlds[i - 1], steps[i - 1]);
      StepKeepsInv(c, worlds[i - 1], steps[i - 1]);
    }
  }

  // ---------- what holds in every such run ----------

  /** A relay holds a running lease on the event. */
  ghost predicate Leases(w: World, r: nat, e: int) {
    && r in w.relays && w.relays[r].Working?
    && exists i :: 0 <= i < |w.relays[r].todo| && w.relays[r].todo[i].event == e && w.clock < w.relays[r].todo[i].until
  }

  /** No row is leased to two relays at once, and a leased row is locked. */
  lemma LeasesAreExclusive(c: Config, worlds: seq<World>, steps: seq<Step>, i: nat, r: nat, s: nat, e: int)
    requires OnTimeRun(c, worlds, steps) && i < |worlds| && Leases(worlds[i], r, e) && Leases(worlds[i], s, e)
    ensures r == s && e in worlds[i].db.outbox && worlds[i].db.outbox[e].status.Processing?
            && !Eligible(worlds[i].db.outbox[e], worlds[i].clock)
  {
    RunKeepsInv(c, worlds, steps, i);
    var w := worlds[i];
    assert RelayOk(w, r) && RelayOk(w, s);
    var k :| 0 <= k < |w.relays[r].todo| && w.relays[r].todo[k].event == e && w.clock < w.relays[r].todo[k].until;
    var l :| 0 <= l < |w.relays[s].todo| && w.relays[s].todo[l].event == e && w.clock < w.relays[s].todo[l].until;
    assert LeaseOk(w, r, w.relays[r].todo[k]) && LeaseOk(w, s, w.relays[s].todo[l]);
  }

  /** Sent and failed rows never change again. */
  lemma {:induction false} SettledRowsStay(c: Config, worlds: seq<World>, steps: seq<Step>, i: nat, j: nat, e: int)
    requires OnTimeRun(c, worlds, steps) && i <= j < |worlds| && e in worlds[i].db.outbox
    requires worlds[i].db.outbox[e].status.Sent? || worlds[i].db.outbox[e].status.Failed?
    ensures e in worlds[j].db.outbox && worlds[j].db.outbox[e] == worlds[i].db.outbox[e]
  {
    if i < j {
      SettledRowsStay(c, worlds, steps, i, j - 1, e);
      RunKeepsInv(c, worlds, steps, j - 1);
      assert StepAt(c, worlds, steps, j - 1) && OnTime(worlds[j - 1], steps[j - 1]);
      StepKeepsRow(c, worlds[j - 1], steps[j - 1], e);
    }
  }

  /** The step marks the event failed, and the mark takes effect. */
  predicate MarksFailed(w: World, step: Step, e: int) {
    && step.Relaying? && step.relayAct.Do? && !step.relayAct.fault.Lost? && AtWork(w, step.id)
    && w.relays[step.id].stage.MarkFailed? && w.relays[step.id].todo[0].event == e
  }

  function FailedMarks(worlds: seq<World>, steps: seq<Step>, i: nat, e: int): nat
    requires |worlds| == |steps| + 1 && i < |worlds|
  {
    if i == 0 then 0
    else FailedMarks(worlds, steps, i - 1, e) + if MarksFailed(worlds[i - 1], steps[i - 1], e) then 1 else 0
  }

  lemma {:induction false} FailuresAreMarks(c: Config, worlds: seq<World>, steps: seq<Step>, i: nat, e: int)
    requires IsRun(c, worlds, steps) && i < |worlds|
    ensures Failures(worlds[i], e) == FailedMarks(worlds, steps, i, e)
  {
    if i > 0 {
      FailuresAreMarks(c, worlds, steps, i - 1, e);
      assert StepAt(c, worlds, steps, i - 1);
    }
  }

  /** The retry count is the number of failed marks, never exceeds the limit, and the row is failed exactly when it
  has reached it. */
  lemma RetriesAreCounted(c: Config, worlds: seq<World>, steps: seq<Step>, i: nat, e: int)
    requires OnTimeRun(c, worlds, steps) && i < |worlds| && e in worlds[i].db.outbox
    ensures var row := worlds[i].db.outbox[e];
            && row.retryCount == FailedMarks(worlds, steps, i, e) <= c.maxRetries
            && (row.status.Failed? <==> row.retryCount == c.maxRetries)
  {
    RunKeepsInv(c, worlds, steps, i);
    assert RowOk(c, worlds[i], e);
    FailuresAreMarks(c, worlds, steps, i, e);
  }

  // ---------- what a late mark does ----------

  predicate Settled(w: World, e: int) {
    e in w.db.outbox && (w.db.outbox[e].status.Sent? || w.db.outbox[e].status.Failed?)
  }

  lemma RelayReopensIff(c: Config, w: World, id: nat, act: RelayAct, e: int)
    requires RelayEnabled(w, id, act) && e in w.db.outbox && w.db.outbox[e].status.Sent?
    ensures var outbox := OutboxAfter(c, w, id, act);
            && e in outbox && (!outbox[e].status.Sent? <==> MarksFailed(w, Relaying(id, act), e))
            && (MarksFailed(w, Relaying(id, act), e) ==>
                  outbox[e].status == if w.relays[id].stage.retries + 1 >= c.maxRetries then Failed else Pending)
  {
    match act
    case Start =>
    case Fetch(_, _) =>
    case Do(_) =>
      match w.relays[id].stage {
        case Decode =>
        case Load =>
        case SetDetail(_) =>
        case SetIndex(_) =>
        case Raise =>
        case Notify =>
        case MarkSent =>
        case ReadRetries =>
        case MarkFailed(_, _) =>
      }
    case StageFails =>
    case Stop =>
  }

  /** In any state whatever: a sent row stops being sent exactly at a failed mark of it that takes effect, and then it
  is pending again or failed as the count read before says. */
  lemma SentRowReopensIff(c: Config, w: World, step: Step, e: int)
    requires Enabled(w, step) && e in w.db.outbox && w.db.outbox[e].status.Sent?
    ensures e in Apply(c, w, step).db.outbox
    ensures !Apply(c, w, step).db.outbox[e].status.Sent? <==> MarksFailed(w, step, e)
    ensures MarksFailed(w, step, e) ==>
              var read := w.relays[step.id].stage.retries;
              Apply(c, w, step).db.outbox[e].status == if read + 1 >= c.maxRetries then Failed else Pending
  {
    match step
    case Tick(_) =>
    case DetailExpires(_) =>
    case Publish(_, _) =>
    case Relaying(id, act) => RelayReopensIff(c, w, id, act, e);
    case Refresh(_, _) =>
  }

  /** The first step of a run that changes a settled row is a late mark. */
  lemma FirstChangeIsLate(c: Config, worlds: seq<World>, steps: seq<Step>, n: nat, e: int)
    requires IsRun(c, worlds, steps) && c.maxRetries > 0 && n < |steps|
    requires forall i :: 0 <= i < n ==> OnTime(worlds[i], steps[i])
    requires Settled(worlds[n], e) && (e in worlds[n + 1].db.outbox ==> worlds[n + 1].db.outbox[e] != worlds[n].db.outbox[e])
    ensures !OnTime(worlds[n], steps[n])
  {
    var before, taken := worlds[..n + 1], steps[..n];
    forall i | 0 <= i < |taken|
      ensures StepAt(c, before, taken, i) && OnTime(before[i], taken[i])
    {
      assert StepAt(c, worlds, steps, i) && OnTime(worlds[i], steps[i]);
    }
    RunKeepsInv(c, before, taken, n);
    assert StepAt(c, worlds, steps, n);
    if OnTime(worlds[n], steps[n]) {
      StepKeepsRow(c, worlds[n], steps[n], e);
    }
  }
}
