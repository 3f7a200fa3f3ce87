/** What holds in every run of the claim protocol, and what needs runs without faults. */
module RewardClaimTheorems {
  import opened Options
  import opened Decimal
  import opened LootIndexes
  import opened Sorting
  import opened Subsequences
  import opened RewardClaim
  import opened RewardClaimSafety

  /** The backpack rows of one reward. */
  ghost function RowsOf(t: Tables, role: int, mail: int, index: int): set<string> {
    set k | k in t.backpack && k in t.ledger
            && t.ledger[k].role == role && t.ledger[k].mail == mail && t.ledger[k].index == index
  }

  /** No reward is in a backpack twice, and every backpack row is the loot of the reward its ledger row names. */
  lemma NoDoubleGrant(mails: map<int, Loots>, worlds: seq<World>, steps: seq<Step>, i: nat)
    requires IsRun(mails, worlds, steps) && i < |worlds|
    ensures var t := worlds[i].tables;
            && (forall r, m, x :: |RowsOf(t, r, m, x)| <= 1)
            && (forall k :: k in t.backpack ==> k in t.ledger && PaidFor(mails, t.backpack[k], t.ledger[k]))
  {
    RunKeepsInv(mails, worlds, steps, i);
    var t := worlds[i].tables;
    forall r, m, x
      ensures |RowsOf(t, r, m, x)| <= 1
    {
      assert RowsOf(t, r, m, x) <= {GrantKey(r, m, x)};
      AtMostOne(RowsOf(t, r, m, x), GrantKey(r, m, x));
    }
  }

  lemma AtMostOne<T>(s: set<T>, x: T)
    requires s <= {x}
    ensures |s| <= 1
  {
    if x in s {
      assert s == {x};
    } else {
      assert s == {};
    }
  }

  /** Every claimed index of a saved state has a ledger row, and that row is for this role, mail and index. */
  lemma ClaimedIsReserved(mails: map<int, Loots>, worlds: seq<World>, steps: seq<Step>, i: nat, r: int, m: int, x: int)
    requires IsRun(mails, worlds, steps) && i < |worlds|
    requires (r, m) in worlds[i].tables.states && x in worlds[i].tables.states[(r, m)].claimed
    ensures var t := worlds[i].tables; var k := GrantKey(r, m, x);
            k in t.ledger && t.ledger[k].role == r && t.ledger[k].mail == m && t.ledger[k].index == x
  {
    RunKeepsInv(mails, worlds, steps, i);
    var t := worlds[i].tables;
    assert RowOk(t, r, m, t.states[(r, m)]);
    var l := t.ledger[GrantKey(r, m, x)];
    TripleKeyInjective(l.role, l.mail, l.index, r, m, x);
  }

  // ---------- the ledger ----------

  predicate Marks(step: Step) { step.DoMarkPaid? || step.DoMarkUnpaid? }

  /** A step leaves a ledger row alone, unless the row is pending and the step is a mark by the call that
  reserved it. */
  lemma LedgerMovesOnce(w: World, step: Step, k: string)
    requires Inv(w) && Enabled(w, step) && k in w.tables.ledger
    ensures k in Apply(w, step).tables.ledger && RowMoves(step, w.tables.ledger[k], Apply(w, step).tables.ledger[k])
  {
    if !step.Invoke? {
      CallMovesRow(w, w.calls[step.id], step, k);
    }
  }

  predicate RowMoves(step: Step, l: LedgerRow, l': LedgerRow) {
    || l' == l
    || (l.status == Pending && l.owner == step.id && Marks(step)
        && l'.status == if step.DoMarkPaid? then Succeeded else Failed)
  }

  lemma CallMovesRow(w: World, call: Call, step: Step, k: string)
    requires !step.Invoke? && CallEnabled(w, call, step) && CallOk(w.tables, step.id, call) && k in w.tables.ledger
    ensures var t' := TablesAfter(w, call, step); k in t'.ledger && RowMoves(step, w.tables.ledger[k], t'.ledger[k])
  {
    match step
    case ReadState(_, _) =>
    case Next(_) =>
    case DoReserve(_, _) =>
    case DoPay(_, _) =>
    case DoMarkPaid(_, _) => assert HoldsKey(w.tables, step.id, call);
    case DoMarkUnpaid(_, _) => assert HoldsKey(w.tables, step.id, call);
    case DoSave(_, _, _) =>
    case Abort(_) =>
  }

  /** The same along a run. */
  lemma RunMovesRow(mails: map<int, Loots>, worlds: seq<World>, steps: seq<Step>, n: nat, k: string)
    requires IsRun(mails, worlds, steps) && n < |steps| && k in worlds[n].tables.ledger
    ensures k in worlds[n + 1].tables.ledger
    ensures RowMoves(steps[n], worlds[n].tables.ledger[k], worlds[n + 1].tables.ledger[k])
  {
    RunKeepsInv(mails, worlds, steps, n);
    assert StepAt(worlds, steps, n);
    LedgerMovesOnce(worlds[n], steps[n], k);
  }

  /** Once a ledger row is succeeded or failed it never changes again. */
  lemma {:induction false} SettledIsFinal(mails: map<int, Loots>, worlds: seq<World>, steps: seq<Step>,
                                          i: nat, j: nat, k: string)
    requires IsRun(mails, worlds, steps) && i <= j < |worlds|
    requires k in worlds[i].tables.ledger && worlds[i].tables.ledger[k].status != Pending
    ensures k in worlds[j].tables.ledger && worlds[j].tables.ledger[k] == worlds[i].tables.ledger[k]
    decreases j
  {
    if i < j {
      SettledIsFinal(mails, worlds, steps, i, j - 1, k);
      RunMovesRow(mails, worlds, steps, j - 1, k);
    }
  }

  lemma SucceededIsPaid(mails: map<int, Loots>, worlds: seq<World>, steps: seq<Step>, i: nat, k: string)
    requires IsRun(mails, worlds, steps) && i < |worlds|
    requires k in worlds[i].tables.ledger && worlds[i].tables.ledger[k].status == Succeeded
    ensures k in worlds[i].tables.backpack
  {
    RunKeepsInv(mails, worlds, steps, i);
  }

  // ---------- when a claimed index is granted ----------

  /** A step without faults: no repository error, and no call dies once it has read its row. */
  predicate FaultFree(w: World, step: Step)
    requires Enabled(w, step)
  {
    match step
    case DoReserve(_, fault) => fault.Fine?
    case DoPay(_, fault) => fault.Fine?
    case DoMarkPaid(_, fault) => fault.Fine?
    case DoMarkUnpaid(_, fault) => fault.Fine?
    case DoSave(_, fault, _) => fault.Fine?
    case Abort(id) => w.calls[id].pc.Starting? || Ended(w.calls[id])
    case _ => true
  }

  /** The call that reserved a key is still at work on it. */
  ghost predicate InHand(w: World, k: string, id: nat) {
    && id in w.calls && Holding(w.calls[id]) && w.calls[id].pc.todo != [] && Key(w.calls[id]) == k
  }

  /** A ledger row is succeeded, in the hands of its owner, or its owner ended with an error. */
  ghost predicate Accounted(w: World, k: string)
    requires k in w.tables.ledger
  {
    var l := w.tables.ledger[k];
    l.status == Succeeded || InHand(w, k, l.owner) || (l.owner in w.calls && w.calls[l.owner].pc.Broken?)
  }

  /** A step by another call leaves a row in hand, or broken, as it is. */
  lemma OwnerKeepsHand(w: World, step: Step, k: string, id: nat)
    requires Enabled(w, step) && id != step.id
    ensures InHand(w, k, id) ==> InHand(Apply(w, step), k, id)
    ensures id in w.calls ==> id in Apply(w, step).calls && Apply(w, step).calls[id] == w.calls[id]
  {
  }

  /** What the owner's own next step makes of the row it has in hand. */
  lemma OwnerMoves(w: World, step: Step, k: string)
    requires Inv(w) && Enabled(w, step) && InHand(w, k, step.id)
    ensures var w' := Apply(w, step);
            || InHand(w', k, step.id)
            || (k in w'.tables.ledger && w'.tables.ledger[k].status == Succeeded)
            || w'.calls[step.id].pc.Broken?
    ensures FaultFree(w, step) && !w.calls[step.id].pc.MarkingUnpaid? ==> !Apply(w, step).calls[step.id].pc.Broken?
  {
    assert CallOk(w.tables, step.id, w.calls[step.id]);
  }

  /** A key that a step adds to the ledger is in the hand of the call that added it, unless that call failed. */
  lemma NewRowInHand(w: World, step: Step, k: string)
    requires Enabled(w, step) && k !in w.tables.ledger && k in Apply(w, step).tables.ledger
    ensures var w' := Apply(w, step);
            && w'.tables.ledger[k].owner == step.id
            && (InHand(w', k, step.id) || (w'.calls[step.id].pc.Broken? && !FaultFree(w, step)))
  {
  }

  lemma StepAccounts(w: World, step: Step, k: string)
    requires Inv(w) && Enabled(w, step) && k in Apply(w, step).tables.ledger
    requires k in w.tables.ledger ==> Accounted(w, k)
    ensures Accounted(Apply(w, step), k)
  {
    if k !in w.tables.ledger {
      NewRowInHand(w, step, k);
    } else {
      var id := w.tables.ledger[k].owner;
      LedgerMovesOnce(w, step, k);
      if id != step.id {
        OwnerKeepsHand(w, step, k, id);
      } else if InHand(w, k, id) {
        OwnerMoves(w, step, k);
      } else if w.tables.ledger[k].status != Succeeded {
        BrokenStays(w, step);
      }
    }
  }

  lemma BrokenStays(w: World, step: Step)
    requires Enabled(w, step) && !step.Invoke? && w.calls[step.id].pc.Broken?
    ensures Apply(w, step).calls[step.id].pc.Broken?
  {
  }

  lemma {:induction false} RunAccounts(mails: map<int, Loots>, worlds: seq<World>, steps: seq<Step>, i: nat, k: string)
    requires IsRun(mails, worlds, steps) && i < |worlds| && k in worlds[i].tables.ledger
    ensures Accounted(worlds[i], k)
  {
    if i > 0 {
      if k in worlds[i - 1].tables.ledger {
        RunAccounts(mails, worlds, steps, i - 1, k);
      }
      RunKeepsInv(mails, worlds, steps, i - 1);
      assert StepAt(worlds, steps, i - 1);
      StepAccounts(worlds[i - 1], steps[i - 1], k);
    }
  }

  /** In any run: a claimed index whose reserving call has returned without an error is in the backpack exactly
  once, with the loot of that index. What can be missing is only what a failed or crashed call left behind. */
  lemma ClaimedIsGrantedUnlessOwnerBroke(mails: map<int, Loots>, worlds: seq<World>, steps: seq<Step>, i: nat,
                                         r: int, m: int, x: int)
    requires IsRun(mails, worlds, steps) && i < |worlds|
    requires (r, m) in worlds[i].tables.states && x in worlds[i].tables.states[(r, m)].claimed
    requires var l := Get(worlds[i].tables.ledger, GrantKey(r, m, x));
             l.Some? && l.value.owner in worlds[i].calls && worlds[i].calls[l.value.owner].pc.Done?
    ensures var t := worlds[i].tables; var k := GrantKey(r, m, x);
            && RowsOf(t, r, m, x) == {k}
            && m in mails && LootAt(mails[m], x) == Loot(t.backpack[k].loot)
  {
    var t := worlds[i].tables;
    var k := GrantKey(r, m, x);
    ClaimedIsReserved(mails, worlds, steps, i, r, m, x);
    RunKeepsInv(mails, worlds, steps, i);
    RunAccounts(mails, worlds, steps, i, k);
    assert k in t.backpack;
    assert forall q :: q in RowsOf(t, r, m, x) ==> q == k;
  }

  /** The step is a payment of key `k` by call `id` that takes effect. */
  predicate Pays(w: World, step: Step, k: string, id: nat) {
    && step.DoPay? && step.id == id && !step.fault.Lost? && Enabled(w, step)
    && Key(w.calls[id]) == k
  }

  /** Where the backpack row of a key can come from, in one step. */
  ghost predicate PaysOwn(w: World, step: Step, w': World, k: string) {
    var t, t' := w.tables, w'.tables;
    && (k in t'.backpack && k !in t.backpack ==> Pays(w, step, k, step.id))
    && (Pays(w, step, k, step.id) ==> k in t.ledger && t.ledger[k].owner == step.id && k in t'.backpack)
    && (k in t.ledger ==> k in t'.ledger && t'.ledger[k].owner == t.ledger[k].owner)
    && (k in t.backpack ==> k in t.ledger && k in t'.backpack)
  }

  lemma StepPaysOwn(w: World, step: Step, k: string)
    requires Inv(w) && Enabled(w, step)
    ensures PaysOwn(w, step, Apply(w, step), k)
  {
    StepGrows(w, step);
    if !step.Invoke? {
      assert CallOk(w.tables, step.id, w.calls[step.id]);
    }
  }

  lemma RunPaysOwn(mails: map<int, Loots>, worlds: seq<World>, steps: seq<Step>, n: nat, k: string)
    requires IsRun(mails, worlds, steps) && n < |steps|
    ensures PaysOwn(worlds[n], steps[n], worlds[n + 1], k)
  {
    RunKeepsInv(mails, worlds, steps, n);
    assert StepAt(worlds, steps, n);
    StepPaysOwn(worlds[n], steps[n], k);
  }

  /** One of the first `i` steps is such a payment. */
  predicate PaidBefore(worlds: seq<World>, steps: seq<Step>, i: nat, k: string, id: nat)
    requires |worlds| == |steps| + 1 && i <= |steps|
  {
    i > 0 && (PaidBefore(worlds, steps, i - 1, k, id) || Pays(worlds[i - 1], steps[i - 1], k, id))
  }

  lemma {:induction false} NotPaidBeforeReserved(mails: map<int, Loots>, worlds: seq<World>, steps: seq<Step>, i: nat,
                                                 k: string, id: nat)
    requires IsRun(mails, worlds, steps) && i < |worlds| && k !in worlds[i].tables.ledger
    ensures !PaidBefore(worlds, steps, i, k, id)
  {
    if i > 0 {
      RunPaysOwn(mails, worlds, steps, i - 1, k);
      NotPaidBeforeReserved(mails, worlds, steps, i - 1, k, id);
    }
  }

  /** In any run: the reward of a reserved key is in the backpack exactly if the call that reserved it has made a
  payment of it that took effect, whether or not that reported an error. */
  lemma {:induction false} PaidIffOwnerPaid(mails: map<int, Loots>, worlds: seq<World>, steps: seq<Step>, i: nat, k: string)
    requires IsRun(mails, worlds, steps) && i < |worlds| && k in worlds[i].tables.ledger
    ensures k in worlds[i].tables.backpack <==> PaidBefore(worlds, steps, i, k, worlds[i].tables.ledger[k].owner)
  {
    var owner := worlds[i].tables.ledger[k].owner;
    assert i > 0;
    RunPaysOwn(mails, worlds, steps, i - 1, k);
    if k in worlds[i - 1].tables.ledger {
      PaidIffOwnerPaid(mails, worlds, steps, i - 1, k);
    } else {
      NotPaidBeforeReserved(mails, worlds, steps, i - 1, k, owner);
    }
  }

  ghost predicate FaultFreeRun(mails: map<int, Loots>, worlds: seq<World>, steps: seq<Step>) {
    IsRun(mails, worlds, steps) && forall i :: 0 <= i < |steps| ==> StepAt(worlds, steps, i) && FaultFree(worlds[i], steps[i])
  }

  ghost predicate NeverUnpaid(w: World) {
    && (forall id :: id in w.calls ==> !w.calls[id].pc.MarkingUnpaid?)
    && (forall k :: k in w.tables.ledger ==>
          w.tables.ledger[k].status == Succeeded || InHand(w, k, w.tables.ledger[k].owner))
  }

  lemma FaultFreeStep(w: World, step: Step)
    requires Inv(w) && NeverUnpaid(w) && Enabled(w, step) && FaultFree(w, step)
    ensures NeverUnpaid(Apply(w, step))
  {
    var w' := Apply(w, step);
    forall k | k in w'.tables.ledger
      ensures w'.tables.ledger[k].status == Succeeded || InHand(w', k, w'.tables.ledger[k].owner)
    {
      if k !in w.tables.ledger {
        NewRowInHand(w, step, k);
      } else {
        LedgerMovesOnce(w, step, k);
        if w.tables.ledger[k].owner != step.id {
          OwnerKeepsHand(w, step, k, w.tables.ledger[k].owner);
        } else if InHand(w, k, step.id) {
          OwnerMoves(w, step, k);
        }
      }
    }
  }

  lemma {:induction false} FaultFreeKeeps(mails: map<int, Loots>, worlds: seq<World>, steps: seq<Step>, i: nat)
    requires FaultFreeRun(mails, worlds, steps) && i < |worlds|
    ensures NeverUnpaid(worlds[i])
  {
    if i > 0 {
      var w, step := worlds[i - 1], steps[i - 1];
      assert NeverUnpaid(w) by { FaultFreeKeeps(mails, worlds, steps, i - 1); }
      assert Inv(w) by { RunKeepsInv(mails, worlds, steps, i - 1); }
      assert Enabled(w, step) && FaultFree(w, step) && worlds[i] == Apply(w, step) by { assert StepAt(worlds, steps, i - 1); }
      FaultFreeStep(w, step);
    }
  }

  /** In a run without faults, once all calls have ended, every claimed index has exactly one backpack row and it
  holds that index's loot. */
  lemma ClaimedIsGrantedOnce(mails: map<int, Loots>, worlds: seq<World>, steps: seq<Step>, i: nat, r: int, m: int, x: int)
    requires FaultFreeRun(mails, worlds, steps) && i < |worlds|
    requires forall id :: id in worlds[i].calls ==> Ended(worlds[i].calls[id])
    requires (r, m) in worlds[i].tables.states && x in worlds[i].tables.states[(r, m)].claimed
    ensures var t := worlds[i].tables; var k := GrantKey(r, m, x);
            && RowsOf(t, r, m, x) == {k}
            && m in mails && LootAt(mails[m], x) == Loot(t.backpack[k].loot)
  {
    var t := worlds[i].tables;
    var k := GrantKey(r, m, x);
    ClaimedIsReserved(mails, worlds, steps, i, r, m, x);
    RunKeepsInv(mails, worlds, steps, i);
    FaultFreeKeeps(mails, worlds, steps, i);
    assert k in t.backpack;
    assert forall q :: q in RowsOf(t, r, m, x) ==> q == k;
  }

  // ---------- a crash between reserving and granting ----------

  const ONE_GEM := map[5 := Items(["gem"])]

  lemma FirstIndex()
    ensures Fresh([], [0]) == [0] && Merged([], [0]) == [0]
  {
    StrictlySortedUnique(Fresh([], [0]), [0]);
    StrictlySortedUnique(Merged([], [0]), [0]);
  }

  /** The call of a claim of the only loot of mail 5, once it has read a row that is not there. */
  function Claiming(pc: Pc): Call {
    Call(Claim([0]), 1, 1, 5, 10, None, Row(1, 1, 5, Claimed, [0], Some(10), None, 1, 10, Some(10)), pc)
  }

  lemma LaterUpdateWins<K, V>(m: map<K, V>, k: K, a: V, b: V)
    ensures m[k := a][k := b] == m[k := b]
  {
  }

  lemma ReadStep(w: World, id: nat)
    requires id !in w.calls && w.mails == ONE_GEM && (1, 5) !in w.tables.states
    ensures var started := w.(calls := w.calls[id := NewCall(Claim([0]), 1, 1, 5)]);
            && Enabled(started, ReadState(id, 10))
            && Apply(started, ReadState(id, 10)) == w.(calls := w.calls[id := Claiming(Granting([0]))])
  {
    FirstIndex();
    LaterUpdateWins(w.calls, id, NewCall(Claim([0]), 1, 1, 5), Claiming(Granting([0])));
  }

  /** What the reservation leaves: the key is taken, and the call pays only if it took it. */
  ghost predicate Reserves(w: World, w': World, id: nat, k: string) {
    && w'.mails == w.mails && w'.tables.states == w.tables.states && w'.tables.backpack == w.tables.backpack
    && k in w'.tables.ledger && (k in w.tables.ledger ==> w'.tables == w.tables)
    && w'.calls == w.calls[id := Claiming(if k in w.tables.ledger then Granting([]) else Paying([0]))]
  }

  lemma ReserveStep(w: World, id: nat)
    requires id in w.calls && w.calls[id] == Claiming(Granting([0])) && w.mails == ONE_GEM
    ensures Enabled(w, DoReserve(id, Fine)) && Reserves(w, Apply(w, DoReserve(id, Fine)), id, GrantKey(1, 5, 0))
  {
    assert [0][1..] == [];
  }

  /** A claim of the only loot of mail 5, once it has read its row. */
  lemma ReadClaim(worlds: seq<World>, steps: seq<Step>, id: nat)
    returns (worlds': seq<World>, steps': seq<Step>)
    requires IsRun(ONE_GEM, worlds, steps)
    requires var w := Last(worlds); id !in w.calls && w.mails == ONE_GEM && (1, 5) !in w.tables.states
    ensures IsRun(ONE_GEM, worlds', steps') && worlds <= worlds'
    ensures Last(worlds') == Last(worlds).(calls := Last(worlds).calls[id := Claiming(Granting([0]))])
  {
    FirstIndex();
    ReadStep(Last(worlds), id);
    worlds', steps' := Extend(ONE_GEM, worlds, steps, Invoke(id, Claim([0]), 1, 1, 5));
    worlds', steps' := Extend(ONE_GEM, worlds', steps', ReadState(id, 10));
  }

  /** And up to and including its reservation. */
  lemma ReadAndReserve(worlds: seq<World>, steps: seq<Step>, id: nat)
    returns (worlds': seq<World>, steps': seq<Step>)
    requires IsRun(ONE_GEM, worlds, steps)
    requires var w := Last(worlds); id !in w.calls && w.mails == ONE_GEM && (1, 5) !in w.tables.states
    ensures IsRun(ONE_GEM, worlds', steps') && worlds <= worlds'
    ensures Reserves(Last(worlds), Last(worlds'), id, GrantKey(1, 5, 0))
  {
    worlds', steps' := ReadClaim(worlds, steps, id);
    var w := Last(worlds');
    ReserveStep(w, id);
    worlds', steps' := Extend(ONE_GEM, worlds', steps', DoReserve(id, Fine));
    ReservesFrom(Last(worlds), w, Last(worlds'), id, GrantKey(1, 5, 0));
  }

  lemma ReservesFrom(w: World, mid: World, w': World, id: nat, k: string)
    requires id !in w.calls && mid == w.(calls := w.calls[id := Claiming(Granting([0]))]) && Reserves(mid, w', id, k)
    ensures Reserves(w, w', id, k)
  {
    assert forall pc :: mid.calls[id := Claiming(pc)] == w.calls[id := Claiming(pc)];
  }

  /** A claim that dies after its reservation makes the retry skip the grant and still mark the mail claimed. */
  lemma CrashLosesReward() returns (worlds: seq<World>, steps: seq<Step>)
    ensures IsRun(ONE_GEM, worlds, steps)
    ensures var w := Last(worlds);
            && 1 in w.calls && w.calls[1].pc.Done?
            && (1, 5) in w.tables.states && w.tables.states[(1, 5)].status == Claimed
            && 0 in w.tables.states[(1, 5)].claimed
            && RowsOf(w.tables, 1, 5, 0) == {}
  {
    worlds, steps := [InitWorld(ONE_GEM)], [];
    worlds, steps := ReadAndReserve(worlds, steps, 0);
    worlds, steps := Extend(ONE_GEM, worlds, steps, Abort(0));
    worlds, steps := ReadAndReserve(worlds, steps, 1);
    worlds, steps := Extend(ONE_GEM, worlds, steps, Next(1));
    worlds, steps := Extend(ONE_GEM, worlds, steps, DoSave(1, Fine, false));
  }
}
