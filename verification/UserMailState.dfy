/** The life of one user's row for one mail, under stale saves and without them. */
module UserMailState {
  import opened Options
  import opened LootIndexes
  import opened Sorting
  import opened Subsequences
  import opened RewardClaim
  import opened RewardClaimSafety
  import T = RewardClaimTheorems

  // ---------- deleted is final ----------

  /** Once a row is deleted no save changes it, however stale. */
  lemma {:induction false} DeletedIsFinal(mails: map<int, Loots>, worlds: seq<World>, steps: seq<Step>,
                                          i: nat, j: nat, r: int, m: int)
    requires IsRun(mails, worlds, steps) && i <= j < |worlds|
    requires (r, m) in worlds[i].tables.states && worlds[i].tables.states[(r, m)].status == Deleted
    ensures (r, m) in worlds[j].tables.states && worlds[j].tables.states[(r, m)] == worlds[i].tables.states[(r, m)]
    decreases j
  {
    if i < j {
      DeletedIsFinal(mails, worlds, steps, i, j - 1, r, m);
      assert StepAt(worlds, steps, j - 1);
    }
  }

  // ---------- saves that are not stale ----------

  function Rank(s: Status): nat {
    match s
    case Unread => 0
    case Read => 1
    case Claimed => 2
    case Deleted => 3
  }

  /** Status does not move back, the claimed set grows, and times once set stay. */
  ghost predicate Forward(a: Row, b: Row) {
    && a.role == b.role && a.mail == b.mail && a.createTime == b.createTime
    && Rank(a.status) <= Rank(b.status)
    && Elements(a.claimed) <= Elements(b.claimed) && StrictlySorted(b.claimed)
    && (a.claimTime.Some? ==> b.claimTime == a.claimTime)
    && (a.deleteTime.Some? ==> b.deleteTime == a.deleteTime)
  }

  lemma TargetMovesForward(op: Op, row: Row, now: int)
    requires StrictlySorted(row.claimed)
    ensures Forward(row, Target(op, row, now))
    ensures op.Delete? ==> Target(op, row, now).status == Deleted && Target(op, row, now).deleteTime.Some?
    ensures op.Claim? && row.status != Deleted ==>
              var row' := Target(op, row, now);
              && row'.status == Claimed && row'.claimTime.Some?
              && Elements(row'.claimed) == Elements(row.claimed) + Elements(op.indexes)
    ensures op.MarkRead? && row.status == Unread ==> Target(op, row, now).status == Read
  {
  }

  predicate Active(call: Call) {
    Working(call) || call.pc.Saving?
  }

  /** The row a call will save is its operation applied to the row it read. */
  ghost predicate FromSeen(call: Call) {
    Active(call) ==> call.row == Target(call.op, WorkingRow(call, call.seen, call.now), call.now)
  }

  lemma CallKeepsFromSeen(w: World, call: Call, step: Step)
    requires !step.Invoke? && CallEnabled(w, call, step) && FromSeen(call)
    ensures FromSeen(CallAfter(w, call, step))
  {
    var call' := CallAfter(w, call, step);
    if !step.ReadState? {
      assert call' == call.(pc := call'.pc) && (Active(call') ==> Active(call));
      assert WorkingRow(call', call.seen, call.now) == WorkingRow(call, call.seen, call.now);
    } else {
      assert WorkingRow(call', call'.seen, call'.now) == WorkingRow(call, call'.seen, call'.now);
    }
  }

  lemma {:induction false} RunKeepsFromSeen(mails: map<int, Loots>, worlds: seq<World>, steps: seq<Step>, i: nat, id: nat)
    requires IsRun(mails, worlds, steps) && i < |worlds| && id in worlds[i].calls
    ensures FromSeen(worlds[i].calls[id])
  {
    if i > 0 {
      var w, step := worlds[i - 1], steps[i - 1];
      assert Enabled(w, step) && worlds[i] == Apply(w, step) by { assert StepAt(worlds, steps, i - 1); }
      if id in w.calls {
        RunKeepsFromSeen(mails, worlds, steps, i - 1, id);
        if id == step.id {
          CallKeepsFromSeen(w, w.calls[id], step);
        }
      }
    }
  }

  /** The stored row is still the one the call read. */
  predicate Current(w: World, call: Call) {
    Get(w.tables.states, (call.role, call.mail)) == call.seen
  }

  /** Saving over the row that was read moves it forward. */
  lemma SavedMovesForward(call: Call, lateColumns: bool)
    requires FromSeen(call) && call.pc.Saving? && call.seen.Some? && StrictlySorted(call.seen.value.claimed)
    ensures Forward(call.seen.value, SavedRow(call.seen, call.row, lateColumns))
  {
    TargetMovesForward(call.op, WorkingRow(call, call.seen, call.now), call.now);
  }

  lemma SaveMovesForward(w: World, call: Call, step: Step)
    requires step.DoSave? && CallEnabled(w, call, step) && StatesOk(w.tables) && FromSeen(call) && Current(w, call)
    requires call.row.role == call.role && call.row.mail == call.mail
    ensures var t, t' := w.tables, TablesAfter(w, call, step);
            forall rm :: rm in t.states ==> rm in t'.states && Forward(t.states[rm], t'.states[rm])
  {
    var t, t' := w.tables, TablesAfter(w, call, step);
    forall rm | rm in t.states
      ensures rm in t'.states && Forward(t.states[rm], t'.states[rm])
    {
      assert RowOk(t, rm.0, rm.1, t.states[rm]);
      if rm == (call.role, call.mail) {
        SavedMovesForward(call, step.lateColumns);
      }
    }
  }

  /** In any run, a save whose row has not changed since it was read moves the row forward. */
  lemma CurrentSaveMovesForward(mails: map<int, Loots>, worlds: seq<World>, steps: seq<Step>, i: nat)
    requires IsRun(mails, worlds, steps) && i < |steps| && steps[i].DoSave?
    requires Enabled(worlds[i], steps[i]) && Current(worlds[i], worlds[i].calls[steps[i].id])
    ensures forall rm :: rm in worlds[i].tables.states ==>
              rm in worlds[i + 1].tables.states
              && Forward(worlds[i].tables.states[rm], worlds[i + 1].tables.states[rm])
  {
    var w, step := worlds[i], steps[i];
    var call := w.calls[step.id];
    assert StatesOk(w.tables) && call.row.role == call.role && call.row.mail == call.mail by {
      RunKeepsInv(mails, worlds, steps, i);
      assert CallOk(w.tables, step.id, call);
    }
    RunKeepsFromSeen(mails, worlds, steps, i, step.id);
    SaveMovesForward(w, call, step);
    assert worlds[i + 1] == Apply(w, step) by { assert StepAt(worlds, steps, i); }
  }

  // ---------- runs whose calls do not overlap ----------

  /** At most one call is between its read and its save of any one row. */
  ghost predicate NoOverlap(w: World) {
    forall a, b :: a in w.calls && b in w.calls && a != b && Active(w.calls[a]) && Active(w.calls[b]) ==>
      w.calls[a].role != w.calls[b].role || w.calls[a].mail != w.calls[b].mail
  }

  lemma {:induction false} ActiveIsCurrent(mails: map<int, Loots>, worlds: seq<World>, steps: seq<Step>, i: nat, id: nat)
    requires IsRun(mails, worlds, steps) && i < |worlds| && id in worlds[i].calls && Active(worlds[i].calls[id])
    requires forall n :: 0 <= n <= i ==> NoOverlap(worlds[n])
    ensures Current(worlds[i], worlds[i].calls[id])
  {
    assert i > 0;
    var w, step := worlds[i - 1], steps[i - 1];
    assert StepAt(worlds, steps, i - 1);
    if id in w.calls && Active(w.calls[id]) {
      ActiveIsCurrent(mails, worlds, steps, i - 1, id);
      if step.DoSave? && step.id != id {
        RunKeepsInv(mails, worlds, steps, i - 1);
        assert CallOk(w.tables, step.id, w.calls[step.id]);
      }
    }
  }

  /** Without overlap every step moves every row forward. */
  lemma SequentialRunsMoveForward(mails: map<int, Loots>, worlds: seq<World>, steps: seq<Step>, i: nat)
    requires IsRun(mails, worlds, steps) && i < |steps|
    requires forall n :: 0 <= n <= i ==> NoOverlap(worlds[n])
    ensures forall rm :: rm in worlds[i].tables.states ==>
              rm in worlds[i + 1].tables.states
              && Forward(worlds[i].tables.states[rm], worlds[i + 1].tables.states[rm])
  {
    assert StepAt(worlds, steps, i);
    if steps[i].DoSave? {
      ActiveIsCurrent(mails, worlds, steps, i, steps[i].id);
      CurrentSaveMovesForward(mails, worlds, steps, i);
    } else {
      RunKeepsInv(mails, worlds, steps, i);
      forall rm | rm in worlds[i].tables.states
        ensures rm in worlds[i + 1].tables.states
                && Forward(worlds[i].tables.states[rm], worlds[i + 1].tables.states[rm])
      {
        assert RowOk(worlds[i].tables, rm.0, rm.1, worlds[i].tables.states[rm]);
      }
    }
  }

  /** A claim has reserved its reward, and a read of the same row has begun. */
  lemma ClaimAndRead() returns (worlds: seq<World>, steps: seq<Step>)
    ensures IsRun(T.ONE_GEM, worlds, steps)
    ensures var w := Last(worlds);
            && w.mails == T.ONE_GEM && w.tables.states == map[] && w.tables.backpack == map[]
            && GrantKey(1, 5, 0) in w.tables.ledger
            && w.calls.Keys == {0, 1} && w.calls[0] == T.Claiming(Paying([0]))
            && w.calls[1].role == 1 && w.calls[1].mail == 5 && w.calls[1].pc.Saving?
            && w.calls[1].row.role == 1 && w.calls[1].row.mail == 5
            && w.calls[1].row.status == Read && w.calls[1].row.claimed == []
  {
    worlds, steps := [InitWorld(T.ONE_GEM)], [];
    worlds, steps := T.ReadAndReserve(worlds, steps, 0);
    worlds, steps := Extend(T.ONE_GEM, worlds, steps, Invoke(1, MarkRead, 1, 1, 5));
    worlds, steps := Extend(T.ONE_GEM, worlds, steps, ReadState(1, 11));
  }

  /** The claim pays and is saved. */
  lemma ClaimIsSaved() returns (worlds: seq<World>, steps: seq<Step>)
    ensures IsRun(T.ONE_GEM, worlds, steps)
    ensures var w := Last(worlds);
            && (1, 5) in w.tables.states && w.tables.states[(1, 5)].status == Claimed
            && w.tables.states[(1, 5)].claimed == [0] && GrantKey(1, 5, 0) in w.tables.ledger
            && 1 in w.calls && w.calls[1].pc.Saving? && w.calls[1].row.role == 1 && w.calls[1].row.mail == 5
            && w.calls[1].row.status == Read && w.calls[1].row.claimed == []
  {
    worlds, steps := ClaimAndRead();
    worlds, steps := Extend(T.ONE_GEM, worlds, steps, DoPay(0, Fine));
    worlds, steps := Extend(T.ONE_GEM, worlds, steps, DoMarkPaid(0, Fine));
    worlds, steps := Extend(T.ONE_GEM, worlds, steps, Next(0));
    worlds, steps := Extend(T.ONE_GEM, worlds, steps, DoSave(0, Fine, false));
  }

  /** With overlap a row can move back: a read that started before a claim was saved undoes the claim. The reward
  is not granted twice all the same, because the ledger row stays. */
  lemma StaleReadUndoesClaim() returns (worlds: seq<World>, steps: seq<Step>)
    ensures IsRun(T.ONE_GEM, worlds, steps) && |worlds| > 1
    ensures var before, after := worlds[|worlds| - 2].tables, worlds[|worlds| - 1].tables;
            && (1, 5) in before.states && before.states[(1, 5)].status == Claimed && before.states[(1, 5)].claimed == [0]
            && (1, 5) in after.states && after.states[(1, 5)].status == Read && after.states[(1, 5)].claimed == []
            && GrantKey(1, 5, 0) in after.ledger
  {
    worlds, steps := ClaimIsSaved();
    worlds, steps := Extend(T.ONE_GEM, worlds, steps, DoSave(1, Fine, false));
  }
}
