/** What every interleaving of claims, stale saves, faults and crashes keeps. */
module RewardClaimSafety {
  import opened Options
  import opened Decimal
  import opened LootIndexes
  import opened Sorting
  import opened RewardClaim

  // ---------- the tables ----------

  ghost predicate LedgerOk(t: Tables) {
    forall k :: k in t.ledger ==> k == GrantKey(t.ledger[k].role, t.ledger[k].mail, t.ledger[k].index)
  }

  /** A backpack row and its ledger row speak of the same reward, and it is the loot of that index. */
  predicate PaidFor(mails: map<int, Loots>, b: BackpackRow, l: LedgerRow) {
    && b.role == l.role && b.index == l.index
    && l.mail in mails && LootAt(mails[l.mail], l.index) == Loot(b.loot)
  }

  ghost predicate BackpackOk(w: World) {
    && (forall k :: k in w.tables.backpack ==>
          k in w.tables.ledger && PaidFor(w.mails, w.tables.backpack[k], w.tables.ledger[k]))
    && (forall k :: k in w.tables.ledger && w.tables.ledger[k].status == Succeeded ==> k in w.tables.backpack)
  }

  ghost predicate Reserved(t: Tables, role: int, mail: int, index: int) {
    GrantKey(role, mail, index) in t.ledger
  }

  ghost predicate RowOk(t: Tables, role: int, mail: int, row: Row) {
    && row.role == role && row.mail == mail
    && StrictlySorted(row.claimed)
    && forall i :: i in row.claimed ==> Reserved(t, role, mail, i)
  }

  ghost predicate StatesOk(t: Tables) {
    forall r, m :: (r, m) in t.states ==> RowOk(t, r, m, t.states[(r, m)])
  }

  // ---------- the calls ----------

  predicate Holding(call: Call) {
    call.pc.Paying? || call.pc.MarkingPaid? || call.pc.MarkingUnpaid?
  }

  predicate Working(call: Call) {
    call.pc.Granting? || Holding(call)
  }

  /** The ledger row a call has reserved and not yet marked. */
  ghost predicate HoldsKey(t: Tables, id: nat, call: Call)
    requires Holding(call)
  {
    && call.pc.todo != [] && Key(call) in t.ledger
    && t.ledger[Key(call)].owner == id && t.ledger[Key(call)].status == Pending
    && (call.pc.MarkingPaid? ==> Key(call) in t.backpack)
  }

  ghost predicate CallOk(t: Tables, id: nat, call: Call) {
    && (Working(call) || call.pc.Saving? ==>
        && call.row.role == call.role && call.row.mail == call.mail && StrictlySorted(call.row.claimed)
        && forall i :: i in call.row.claimed ==>
             Reserved(t, call.role, call.mail, i) || (Working(call) && i in call.pc.todo))
    && (Holding(call) ==> HoldsKey(t, id, call))
  }

  ghost predicate CallsOk(w: World) {
    forall id :: id in w.calls ==> CallOk(w.tables, id, w.calls[id])
  }

  ghost predicate Inv(w: World) {
    LedgerOk(w.tables) && BackpackOk(w) && StatesOk(w.tables) && CallsOk(w)
  }

  // ---------- what a step may do to the tables ----------

  /** Nothing of the ledger or backpack is lost, and only rows owned by the stepping call change status. */
  ghost predicate Grows(t: Tables, t': Tables, id: nat) {
    && (forall k :: k in t.ledger ==> k in t'.ledger && SameGrant(t.ledger[k], t'.ledger[k]))
    && (forall k :: k in t.ledger && t.ledger[k].owner != id ==> t'.ledger[k] == t.ledger[k])
    && (forall k :: k in t.backpack ==> k in t'.backpack && t'.backpack[k] == t.backpack[k])
  }

  predicate SameGrant(l: LedgerRow, l': LedgerRow) {
    l'.role == l.role && l'.mail == l.mail && l'.index == l.index && l'.owner == l.owner
  }

  lemma GrantsAreOwn(t: Tables, id: nat, call: Call)
    requires LedgerOk(t) && Holding(call) && HoldsKey(t, id, call)
    ensures var l := t.ledger[Key(call)];
            l.role == call.role && l.mail == call.mail && l.index == call.pc.todo[0]
  {
    var l := t.ledger[Key(call)];
    TripleKeyInjective(l.role, l.mail, l.index, call.role, call.mail, call.pc.todo[0]);
  }

  lemma InsertsGrow(t: Tables, key: string, l: LedgerRow, b: BackpackRow, id: nat)
    ensures Grows(t, Reserve(t, key, l), id) && Grows(t, Pay(t, key, b), id)
  {
  }

  lemma MarksGrow(t: Tables, key: string, id: nat)
    requires key in t.ledger ==> t.ledger[key].owner == id
    ensures Grows(t, MarkSucceeded(t, key), id) && Grows(t, MarkFailed(t, key), id)
  {
  }

  lemma StepGrows(w: World, step: Step)
    requires Inv(w) && Enabled(w, step)
    ensures Grows(w.tables, Apply(w, step).tables, step.id)
  {
    if !step.Invoke? {
      CallGrows(w, w.calls[step.id], step);
    }
  }

  lemma CallGrows(w: World, call: Call, step: Step)
    requires !step.Invoke? && CallEnabled(w, call, step) && CallOk(w.tables, step.id, call)
    ensures Grows(w.tables, TablesAfter(w, call, step), step.id)
  {
    var t := w.tables;
    if step.DoReserve? {
      var l := LedgerRow(call.role, call.server, call.mail, call.pc.todo[0], Pending, "", step.id);
      InsertsGrow(t, Key(call), l, BackpackRow(0, 0, 0, None), step.id);
    } else if step.DoPay? {
      var b := BackpackRow(call.role, call.server, call.pc.todo[0], LootAt(w.mails[call.mail], call.pc.todo[0]).value);
      InsertsGrow(t, Key(call), LedgerRow(0, 0, 0, 0, Pending, "", 0), b, step.id);
    } else if step.DoMarkPaid? || step.DoMarkUnpaid? {
      MarksGrow(t, Key(call), step.id);
    }
  }

  lemma StepKeepsLedger(w: World, step: Step)
    requires Inv(w) && Enabled(w, step)
    ensures LedgerOk(Apply(w, step).tables)
  {
    if !step.Invoke? {
      assert CallOk(w.tables, step.id, w.calls[step.id]);
    }
  }

  /** What a call pays is the loot of the row it holds. */
  lemma PayKeepsBackpack(w: World, call: Call, step: Step)
    requires step.DoPay? && CallEnabled(w, call, step) && BackpackOk(w)
    requires LedgerOk(w.tables) && HoldsKey(w.tables, step.id, call)
    ensures BackpackOk(w.(tables := TablesAfter(w, call, step)))
  {
    var k := Key(call);
    assert PaidFor(w.mails, BackpackRow(call.role, call.server, call.pc.todo[0],
                                        LootAt(w.mails[call.mail], call.pc.todo[0]).value), w.tables.ledger[k]) by {
      GrantsAreOwn(w.tables, step.id, call);
    }
  }

  lemma MarkKeepsBackpack(w: World, k: string)
    requires BackpackOk(w)
    ensures k in w.tables.backpack ==> BackpackOk(w.(tables := MarkSucceeded(w.tables, k)))
    ensures BackpackOk(w.(tables := MarkFailed(w.tables, k)))
  {
  }

  lemma ReserveKeepsBackpack(w: World, k: string, l: LedgerRow)
    requires BackpackOk(w) && l.status == Pending
    ensures BackpackOk(w.(tables := Reserve(w.tables, k, l)))
  {
  }

  lemma CallKeepsBackpack(w: World, call: Call, step: Step)
    requires !step.Invoke? && CallEnabled(w, call, step) && BackpackOk(w)
    requires LedgerOk(w.tables) && CallOk(w.tables, step.id, call)
    ensures BackpackOk(w.(tables := TablesAfter(w, call, step)))
  {
    match step
    case ReadState(_, _) =>
    case Next(_) =>
    case DoReserve(_, _) =>
      ReserveKeepsBackpack(w, Key(call), LedgerRow(call.role, call.server, call.mail, call.pc.todo[0], Pending, "", step.id));
    case DoPay(_, _) => PayKeepsBackpack(w, call, step);
    case DoMarkPaid(_, _) => MarkKeepsBackpack(w, Key(call));
    case DoMarkUnpaid(_, _) => MarkKeepsBackpack(w, Key(call));
    case DoSave(_, _, _) =>
    case Abort(_) =>
  }

  lemma StepKeepsBackpack(w: World, step: Step)
    requires Inv(w) && Enabled(w, step)
    ensures BackpackOk(Apply(w, step))
  {
    if !step.Invoke? {
      CallKeepsBackpack(w, w.calls[step.id], step);
    }
  }

  lemma GrowthKeepsStates(t: Tables, t': Tables, id: nat)
    requires StatesOk(t) && Grows(t, t', id) && t'.states == t.states
    ensures StatesOk(t')
  {
    forall r, m | (r, m) in t'.states
      ensures RowOk(t', r, m, t'.states[(r, m)])
    {
      assert RowOk(t, r, m, t.states[(r, m)]);
    }
  }

  lemma SaveKeepsStates(t: Tables, row: Row, lateColumns: bool)
    requires StatesOk(t) && RowOk(t, row.role, row.mail, row)
    ensures StatesOk(SaveState(t, row, lateColumns))
  {
    var t' := SaveState(t, row, lateColumns);
    forall r, m | (r, m) in t'.states
      ensures RowOk(t', r, m, t'.states[(r, m)])
    {
      assert (r, m) in t.states ==> RowOk(t, r, m, t.states[(r, m)]);
    }
  }

  lemma CallKeepsStates(w: World, call: Call, step: Step)
    requires !step.Invoke? && CallEnabled(w, call, step) && StatesOk(w.tables) && CallOk(w.tables, step.id, call)
    requires Grows(w.tables, TablesAfter(w, call, step), step.id)
    ensures StatesOk(TablesAfter(w, call, step))
  {
    if step.DoSave? {
      SaveKeepsStates(w.tables, call.row, step.lateColumns);
    } else {
      assert TablesAfter(w, call, step).states == w.tables.states;
      GrowthKeepsStates(w.tables, TablesAfter(w, call, step), step.id);
    }
  }

  lemma StepKeepsStates(w: World, step: Step)
    requires Inv(w) && Enabled(w, step)
    ensures StatesOk(Apply(w, step).tables)
  {
    if !step.Invoke? {
      var call := w.calls[step.id];
      assert CallOk(w.tables, step.id, call);
      CallGrows(w, call, step);
      CallKeepsStates(w, call, step);
    }
  }

  /** Every index a claim will save is already saved or among the ones it is about to grant. */
  lemma MergedIsCovered(existing: seq<int>, indexes: seq<int>, i: int)
    requires i in Merged(existing, indexes)
    ensures i in existing || i in Fresh(existing, indexes)
  {
    assert i in Elements(Merged(existing, indexes));
    assert i in Elements(existing) || i in Elements(Fresh(existing, indexes));
  }

  /** The list a call will save is strictly increasing, and what is new in it is what the call will grant first. */
  ghost predicate Prepares(existing: seq<int>, claimed: seq<int>, pc: Pc) {
    && (pc.Saving? || pc.Granting?) && StrictlySorted(claimed)
    && forall i :: i in claimed ==> i in existing || (pc.Granting? && i in pc.todo)
  }

  lemma TargetPrepares(op: Op, row: Row, now: int)
    requires StrictlySorted(row.claimed)
    ensures var row' := Target(op, row, now);
            row'.role == row.role && row'.mail == row.mail && Prepares(row.claimed, row'.claimed, AfterReadPc(op, row))
  {
    if op.Claim? && row.status != Deleted {
      var claimed, todo := Merged(row.claimed, op.indexes), Fresh(row.claimed, op.indexes);
      assert Target(op, row, now).claimed == claimed && AfterReadPc(op, row) == Granting(todo);
      forall i | i in claimed
        ensures i in row.claimed || i in todo
      {
        MergedIsCovered(row.claimed, op.indexes, i);
      }
    }
  }

  /** A call that has read a good row, or started a new one, is good. */
  lemma PreparedCallOk(t: Tables, id: nat, call: Call, existing: seq<int>)
    requires call.row.role == call.role && call.row.mail == call.mail && Prepares(existing, call.row.claimed, call.pc)
    requires forall i :: i in existing ==> Reserved(t, call.role, call.mail, i)
    ensures CallOk(t, id, call)
  {
  }

  lemma WorkingRowOk(t: Tables, call: Call, now: int)
    requires StatesOk(t)
    ensures RowOk(t, call.role, call.mail, WorkingRow(call, Get(t.states, (call.role, call.mail)), now))
  {
    var stored := Get(t.states, (call.role, call.mail));
    assert stored.Some? ==> RowOk(t, call.role, call.mail, stored.value);
  }

  lemma ReadStateKeepsCall(w: World, step: Step)
    requires StatesOk(w.tables) && step.ReadState? && Enabled(w, step)
    ensures CallOk(w.tables, step.id, Apply(w, step).calls[step.id])
  {
    var call, call' := w.calls[step.id], Apply(w, step).calls[step.id];
    var row := WorkingRow(call, Get(w.tables.states, (call.role, call.mail)), step.now);
    WorkingRowOk(w.tables, call, step.now);
    assert call'.role == call.role && call'.mail == call.mail
           && call'.row == Target(call.op, row, step.now) && call'.pc == AfterReadPc(call.op, row);
    TargetPrepares(call.op, row, step.now);
    PreparedCallOk(w.tables, step.id, call', row.claimed);
  }

  lemma OwnStepKeepsCall(w: World, step: Step)
    requires Inv(w) && Enabled(w, step) && !step.Invoke? && !step.ReadState?
    ensures CallOk(Apply(w, step).tables, step.id, Apply(w, step).calls[step.id])
  {
    var call := w.calls[step.id];
    assert CallOk(w.tables, step.id, call);
    CallGrows(w, call, step);
    match step
    case DoReserve(_, _) => ReserveKeepsCall(w, call, step);
    case DoPay(_, _) => PayKeepsCall(w, call, step);
    case DoMarkPaid(_, _) => MarkPaidKeepsCall(w, call, step);
    case Next(_) => ClosingKeepsCall(w, call, step);
    case DoMarkUnpaid(_, _) => ClosingKeepsCall(w, call, step);
    case DoSave(_, _, _) => ClosingKeepsCall(w, call, step);
    case Abort(_) => ClosingKeepsCall(w, call, step);
  }

  lemma ReserveKeepsCall(w: World, call: Call, step: Step)
    requires step.DoReserve? && CallEnabled(w, call, step) && CallOk(w.tables, step.id, call)
    requires Grows(w.tables, TablesAfter(w, call, step), step.id)
    ensures CallOk(TablesAfter(w, call, step), step.id, CallAfter(w, call, step))
  {
    HeadIsReserved(w, call, TablesAfter(w, call, step), step.id);
  }

  lemma PayKeepsCall(w: World, call: Call, step: Step)
    requires step.DoPay? && CallEnabled(w, call, step) && CallOk(w.tables, step.id, call)
    requires Grows(w.tables, TablesAfter(w, call, step), step.id)
    ensures CallOk(TablesAfter(w, call, step), step.id, CallAfter(w, call, step))
  {
  }

  lemma MarkPaidKeepsCall(w: World, call: Call, step: Step)
    requires step.DoMarkPaid? && CallEnabled(w, call, step) && CallOk(w.tables, step.id, call)
    requires Grows(w.tables, TablesAfter(w, call, step), step.id)
    ensures CallOk(TablesAfter(w, call, step), step.id, CallAfter(w, call, step))
  {
    HeadIsReserved(w, call, TablesAfter(w, call, step), step.id);
  }

  lemma ClosingKeepsCall(w: World, call: Call, step: Step)
    requires step.Next? || step.DoMarkUnpaid? || step.DoSave? || step.Abort?
    requires CallEnabled(w, call, step) && CallOk(w.tables, step.id, call)
    ensures CallOk(TablesAfter(w, call, step), step.id, CallAfter(w, call, step))
  {
  }

  /** Dropping the first index of the list leaves every other index of the claim covered. */
  lemma HeadIsReserved(w: World, call: Call, t': Tables, id: nat)
    requires Working(call) && CallOk(w.tables, id, call) && Grows(w.tables, t', id) && call.pc.todo != []
    ensures forall i :: i in call.row.claimed ==>
              Reserved(t', call.role, call.mail, i) || i == call.pc.todo[0] || i in call.pc.todo[1..]
  {
    assert call.pc.todo == [call.pc.todo[0]] + call.pc.todo[1..];
  }

  lemma OtherStepKeepsCall(w: World, step: Step, id: nat)
    requires Inv(w) && Enabled(w, step) && id in w.calls && id != step.id
    ensures CallOk(Apply(w, step).tables, id, w.calls[id])
  {
    StepGrows(w, step);
    assert CallOk(w.tables, id, w.calls[id]);
  }

  lemma StepKeepsInv(w: World, step: Step)
    requires Inv(w) && Enabled(w, step)
    ensures Inv(Apply(w, step))
  {
    var w' := Apply(w, step);
    StepKeepsLedger(w, step);
    StepKeepsBackpack(w, step);
    StepKeepsStates(w, step);
    forall id | id in w'.calls
      ensures CallOk(w'.tables, id, w'.calls[id])
    {
      if id != step.id {
        OtherStepKeepsCall(w, step, id);
      } else if step.ReadState? {
        ReadStateKeepsCall(w, step);
      } else if !step.Invoke? {
        OwnStepKeepsCall(w, step);
      }
    }
  }

  lemma {:induction false} RunKeepsInv(mails: map<int, Loots>, worlds: seq<World>, steps: seq<Step>, i: nat)
    requires IsRun(mails, worlds, steps) && i < |worlds|
    ensures Inv(worlds[i]) && worlds[i].mails == mails
  {
    if i > 0 {
      RunKeepsInv(mails, worlds, steps, i - 1);
      var w, step := worlds[i - 1], steps[i - 1];
      assert Enabled(w, step) && worlds[i] == Apply(w, step) by { assert StepAt(worlds, steps, i - 1); }
      StepKeepsInv(w, step);
    }
  }
}
