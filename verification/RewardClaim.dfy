/** Reading, claiming and deleting a global mail, over the user-state, reward-ledger and backpack tables.

Every repository call is one atomic step. Calls by any number of processes interleave freely, any call can
crash between two steps, and any repository call can return an error with or without having taken effect. */
module RewardClaim {
  import opened Options
  import opened Decimal
  import opened LootIndexes
  import opened Sorting
  import opened Subsequences

  datatype Status = Unread | Read | Claimed | Deleted

  /** A row of user_global_mail_state; times are instants, absent times are None. */
  datatype Row = Row(
    role: int, server: int, mail: int,
    status: Status,
    claimed: seq<int>,
    claimTime: Option<int>,
    deleteTime: Option<int>,
    version: int,
    createTime: int,
    updateTime: Option<int>)

  datatype LedgerStatus = Pending | Succeeded | Failed

  /** A row of user_global_mail_reward_ledger. `owner` is the call that inserted it: history, not a column. */
  datatype LedgerRow = LedgerRow(
    role: int, server: int, mail: int, index: int,
    status: LedgerStatus, externalId: string, owner: nat)

  /** A row of user_backpack_reward. */
  datatype BackpackRow = BackpackRow(role: int, server: int, index: int, loot: Option<string>)

  datatype Tables = Tables(
    states: map<(int, int), Row>,
    ledger: map<string, LedgerRow>,
    backpack: map<string, BackpackRow>)

  /** The loots column of a mail. */
  datatype Loots = NoLoots | Malformed | Items(items: seq<string>)

  datatype LootResult = NoSuchLoot | Loot(value: Option<string>)

  /** `lootAtIndex` */
  function LootAt(loots: Loots, index: int): LootResult {
    if index < 0 then NoSuchLoot
    else match loots
      case NoLoots => Loot(None)
      case Malformed => NoSuchLoot
      case Items(items) => if index >= |items| then NoSuchLoot else Loot(Some(items[index]))
  }

  function GrantKey(role: int, mail: int, index: int): string {
    TripleKey(role, mail, index)
  }

  // ---------- the repository ----------

  /** `SaveUserState`: insert, or update every column unless the stored row is deleted. Each assigned column is
  guarded by the stored status, and the database evaluates the guards one column after the other; on the write
  that sets the status to deleted, `lateColumns` says whether version and update_time saw the old status. */
  function SavedRow(stored: Option<Row>, row: Row, lateColumns: bool): Row {
    if stored.None? then row
    else if stored.value.status == Deleted then stored.value
    else
      var was := stored.value;
      var keepLate := row.status == Deleted && lateColumns;
      row.(role := was.role, mail := was.mail, createTime := was.createTime,
           version := if keepLate then was.version else row.version,
           updateTime := if keepLate then was.updateTime else row.updateTime)
  }

  function SaveState(t: Tables, row: Row, lateColumns: bool): Tables {
    t.(states := t.states[(row.role, row.mail) := SavedRow(Get(t.states, (row.role, row.mail)), row, lateColumns)])
  }

  /** `ReserveGlobalMailReward`: insert a pending row unless the key is taken. */
  function Reserve(t: Tables, key: string, row: LedgerRow): Tables {
    if key in t.ledger then t else t.(ledger := t.ledger[key := row])
  }

  /** `GrantBackpackReward`: insert unless the key is taken. */
  function Pay(t: Tables, key: string, row: BackpackRow): Tables {
    if key in t.backpack then t else t.(backpack := t.backpack[key := row])
  }

  function MarkSucceeded(t: Tables, key: string): Tables {
    if key !in t.ledger then t
    else t.(ledger := t.ledger[key := t.ledger[key].(status := Succeeded, externalId := "playersrv-backpack:" + key)])
  }

  function MarkFailed(t: Tables, key: string): Tables {
    if key !in t.ledger then t else t.(ledger := t.ledger[key := t.ledger[key].(status := Failed)])
  }

  // ---------- the calls ----------

  datatype Op = MarkRead | Claim(indexes: seq<int>) | Delete

  datatype Pc =
    | Starting
    | Granting(todo: seq<int>)       // loop over the new indexes
    | Paying(todo: seq<int>)         // the first of todo is reserved by this call
    | MarkingPaid(todo: seq<int>)    // its backpack row is written
    | MarkingUnpaid(todo: seq<int>)  // writing it returned an error
    | Saving
    | Done
    | Broken                         // returned an error, or crashed

  datatype Call = Call(
    op: Op, role: int, server: int, mail: int,
    now: int,
    seen: Option<Row>,               // the row this call read
    row: Row,                        // the row it will save
    pc: Pc)

  datatype World = World(mails: map<int, Loots>, tables: Tables, calls: map<nat, Call>)

  function InitWorld(mails: map<int, Loots>): World {
    World(mails, Tables(map[], map[], map[]), map[])
  }

  /** How a repository call came back. */
  datatype Fault = Fine | Lost | Late    // no error; error without effect; error after taking effect

  datatype Step =
    | Invoke(id: nat, op: Op, role: int, server: int, mail: int)
    | ReadState(id: nat, now: int)
    | Next(id: nat)
    | DoReserve(id: nat, fault: Fault)
    | DoPay(id: nat, fault: Fault)
    | DoMarkPaid(id: nat, fault: Fault)
    | DoMarkUnpaid(id: nat, fault: Fault)
    | DoSave(id: nat, fault: Fault, lateColumns: bool)
    | Abort(id: nat)                 // a read fails, the mail is not visible, or the process dies

  /** The row a call works on: the stored one or a new unread one, one version up. */
  function WorkingRow(call: Call, stored: Option<Row>, now: int): Row {
    var row :=
      if stored.Some? then stored.value
      else Row(call.role, call.server, call.mail, Unread, [], None, None, 0, now, None);
    row.(version := row.version + 1)
  }

  /** The read closure. */
  function AfterRead(row: Row, now: int): Row {
    if row.status == Deleted then row
    else row.(status := if row.status == Unread then Read else row.status, updateTime := Some(now))
  }

  /** What the claim closure turns the row into once every new index is granted. */
  function AfterClaim(row: Row, indexes: seq<int>, now: int): Row {
    if row.status == Deleted then row
    else row.(status := Claimed,
              claimed := Merged(row.claimed, indexes),
              claimTime := if row.claimTime.None? then Some(now) else row.claimTime,
              updateTime := Some(now))
  }

  /** The delete closure. */
  function AfterDelete(row: Row, now: int): Row {
    row.(status := Deleted,
         deleteTime := if row.deleteTime.None? then Some(now) else row.deleteTime,
         updateTime := Some(now))
  }

  /** What a call saves, given the row it works on. */
  function Target(op: Op, row: Row, now: int): Row {
    var row' := match op
      case MarkRead => AfterRead(row, now)
      case Claim(indexes) => AfterClaim(row, indexes, now)
      case Delete => AfterDelete(row, now);
    if row'.updateTime.None? then row'.(updateTime := Some(now)) else row'
  }

  /** Where a call goes once it has read the row: a claim of a live mail grants first. */
  function AfterReadPc(op: Op, row: Row): Pc {
    if op.Claim? && row.status != Deleted then Granting(Fresh(row.claimed, op.indexes)) else Saving
  }

  predicate Enabled(w: World, step: Step) {
    if step.Invoke? then step.id !in w.calls
    else step.id in w.calls && CallEnabled(w, w.calls[step.id], step)
  }

  predicate CallEnabled(w: World, call: Call, step: Step)
    requires !step.Invoke?
  {
    match step
    case ReadState(_, _) => call.pc.Starting? && call.mail in w.mails
    case Next(_) =>
      call.pc.Granting? && call.mail in w.mails
      && (call.pc.todo == [] || LootAt(w.mails[call.mail], call.pc.todo[0]).NoSuchLoot?)
    case DoReserve(_, _) =>
      call.pc.Granting? && call.mail in w.mails
      && call.pc.todo != [] && LootAt(w.mails[call.mail], call.pc.todo[0]).Loot?
    case DoPay(_, _) =>
      call.pc.Paying? && call.mail in w.mails
      && call.pc.todo != [] && LootAt(w.mails[call.mail], call.pc.todo[0]).Loot?
    case DoMarkPaid(_, _) => call.pc.MarkingPaid? && call.pc.todo != []
    case DoMarkUnpaid(_, _) => call.pc.MarkingUnpaid? && call.pc.todo != []
    case DoSave(_, _, _) => call.pc.Saving?
    case Abort(_) => true
  }

  predicate Ended(call: Call) { call.pc.Done? || call.pc.Broken? }

  /** The tables after a repository call with the given fault. */
  function Effect(t: Tables, t': Tables, fault: Fault): Tables {
    if fault.Lost? then t else t'
  }

  function Key(call: Call): string
    requires call.pc.Granting? || call.pc.Paying? || call.pc.MarkingPaid? || call.pc.MarkingUnpaid?
    requires call.pc.todo != []
  {
    GrantKey(call.role, call.mail, call.pc.todo[0])
  }

  function TablesAfter(w: World, call: Call, step: Step): Tables
    requires !step.Invoke? && CallEnabled(w, call, step)
  {
    var t := w.tables;
    match step
    case ReadState(_, _) => t
    case Next(_) => t
    case Abort(_) => t
    case DoReserve(id, fault) =>
      Effect(t, Reserve(t, Key(call), LedgerRow(call.role, call.server, call.mail, call.pc.todo[0], Pending, "", id)), fault)
    case DoPay(_, fault) =>
      Effect(t, Pay(t, Key(call), BackpackRow(call.role, call.server, call.pc.todo[0],
                                              LootAt(w.mails[call.mail], call.pc.todo[0]).value)), fault)
    case DoMarkPaid(_, fault) => Effect(t, MarkSucceeded(t, Key(call)), fault)
    case DoMarkUnpaid(_, fault) => Effect(t, MarkFailed(t, Key(call)), fault)
    case DoSave(_, fault, late) => Effect(t, SaveState(t, call.row, late), fault)
  }

  function CallAfter(w: World, call: Call, step: Step): Call
    requires !step.Invoke? && CallEnabled(w, call, step)
  {
    match step
    case ReadState(_, now) =>
      var stored := Get(w.tables.states, (call.role, call.mail));
      var row := WorkingRow(call, stored, now);
      call.(now := now, seen := stored, row := Target(call.op, row, now), pc := AfterReadPc(call.op, row))
    case Next(_) => call.(pc := if call.pc.todo == [] then Saving else Broken)
    case DoReserve(_, fault) =>
      call.(pc := if !fault.Fine? then Broken
                  else if Key(call) in w.tables.ledger then Granting(call.pc.todo[1..])
                  else Paying(call.pc.todo))
    case DoPay(_, fault) => call.(pc := if fault.Fine? then MarkingPaid(call.pc.todo) else MarkingUnpaid(call.pc.todo))
    case DoMarkPaid(_, fault) => call.(pc := if fault.Fine? then Granting(call.pc.todo[1..]) else Broken)
    case DoMarkUnpaid(_, _) => call.(pc := Broken)
    case DoSave(_, fault, _) => call.(pc := if fault.Fine? then Done else Broken)
    case Abort(_) => call.(pc := if Ended(call) then call.pc else Broken)
  }

  function NewCall(op: Op, role: int, server: int, mail: int): Call {
    Call(op, role, server, mail, 0, None, Row(role, server, mail, Unread, [], None, None, 0, 0, None), Starting)
  }

  function Apply(w: World, step: Step): World
    requires Enabled(w, step)
  {
    if step.Invoke? then
      w.(calls := w.calls[step.id := NewCall(step.op, step.role, step.server, step.mail)])
    else
      var call := w.calls[step.id];
      w.(tables := TablesAfter(w, call, step), calls := w.calls[step.id := CallAfter(w, call, step)])
  }

  ghost predicate StepAt(worlds: seq<World>, steps: seq<Step>, i: nat)
    requires |worlds| == |steps| + 1 && i < |steps|
  {
    Enabled(worlds[i], steps[i]) && worlds[i + 1] == Apply(worlds[i], steps[i])
  }

  ghost predicate IsRun(mails: map<int, Loots>, worlds: seq<World>, steps: seq<Step>) {
    && |worlds| == |steps| + 1
    && worlds[0] == InitWorld(mails)
    && forall i :: 0 <= i < |steps| ==> StepAt(worlds, steps, i)
  }

  /** A run goes on with any enabled step. */
  lemma Extend(mails: map<int, Loots>, worlds: seq<World>, steps: seq<Step>, step: Step)
      returns (worlds': seq<World>, steps': seq<Step>)
    requires IsRun(mails, worlds, steps) && Enabled(Last(worlds), step)
    ensures IsRun(mails, worlds', steps')
    ensures worlds' == worlds + [Apply(Last(worlds), step)] && steps' == steps + [step]
  {
    worlds', steps' := worlds + [Apply(Last(worlds), step)], steps + [step];
    forall i | 0 <= i < |steps'|
      ensures StepAt(worlds', steps', i)
    {
      assert i < |steps| ==> StepAt(worlds, steps, i);
    }
  }
}
