/** The mail service, the backpack service and the repository as code over mutable tables.

The object carries the run of the claim protocol that explains its tables. Every method extends that run by
steps of the call it serves, so whatever holds in every run of the protocol holds of these tables. A repository
call may fail with or without having taken effect; which, is chosen anew each time. */
module PlayerMailService {
  import opened Options
  import opened LootIndexes
  import opened RewardClaim
  import opened Subsequences

  class Service {
    const mails: map<int, Loots>
    var states: map<(int, int), Row>
    var ledger: map<string, LedgerRow>
    var backpack: map<string, BackpackRow>
    ghost var worlds: seq<World>
    ghost var steps: seq<Step>

    ghost predicate Valid()
      reads this
    {
      && IsRun(mails, worlds, steps)
      && Now().mails == mails && Now().tables == Tables(states, ledger, backpack)
    }

    /** The state the run has reached. */
    ghost function Now(): World
      reads this
      requires worlds != []
    {
      Last(worlds)
    }

    /** Where call `id` stands. */
    ghost predicate At(id: nat, pc: Pc)
      reads this
    {
      worlds != [] && id in Now().calls && Now().calls[id].pc == pc
    }

    /** Only call `id` has moved since the state `was`. */
    ghost predicate OnlyMoved(id: nat, was: World)
      reads this
    {
      && worlds != [] && id in was.calls && id in Now().calls
      && Now().calls[id] == was.calls[id].(pc := Now().calls[id].pc)
    }

    constructor (mails: map<int, Loots>)
      ensures Valid() && this.mails == mails
      ensures states == map[] && ledger == map[] && backpack == map[]
    {
      this.mails := mails;
      states, ledger, backpack := map[], map[], map[];
      worlds, steps := [InitWorld(mails)], [];
    }

    /** Record a step of the protocol; the tables must already show its effect. */
    ghost method Record(step: Step)
      requires IsRun(mails, worlds, steps) && Enabled(Now(), step) && Now().mails == mails
      requires Apply(Now(), step).tables == Tables(states, ledger, backpack)
      modifies this`worlds, this`steps
      ensures Valid() && worlds == old(worlds) + [Apply(old(Now()), step)]
    {
      worlds, steps := Extend(mails, worlds, steps, step);
    }

    // ---------- repository ----------

    method ReserveGlobalMailReward(id: nat, key: string, row: LedgerRow) returns (reserved: bool, failed: bool)
      requires Valid() && Enabled(Now(), DoReserve(id, Fine))
      requires key == Key(Now().calls[id])
      requires var call := Now().calls[id];
               row == LedgerRow(call.role, call.server, call.mail, call.pc.todo[0], Pending, "", id)
      modifies this`ledger, this`worlds, this`steps
      ensures Valid() && old(worlds) <= worlds && OnlyMoved(id, old(Now()))
      ensures !failed && reserved ==> At(id, Paying(old(Now().calls[id].pc.todo)))
      ensures !failed && !reserved ==> At(id, Granting(old(Now().calls[id].pc.todo)[1..]))
      ensures failed ==> At(id, Broken)
    {
      var fault: Fault := *;
      failed := !fault.Fine?;
      reserved := !failed && key !in ledger;
      if !fault.Lost? && key !in ledger {
        ledger := ledger[key := row];
      }
      Record(DoReserve(id, fault));
    }

    method GrantBackpackReward(id: nat, key: string, row: BackpackRow) returns (failed: bool)
      requires Valid() && Enabled(Now(), DoPay(id, Fine))
      requires key == Key(Now().calls[id])
      requires var call := Now().calls[id];
               row == BackpackRow(call.role, call.server, call.pc.todo[0], LootAt(mails[call.mail], call.pc.todo[0]).value)
      modifies this`backpack, this`worlds, this`steps
      ensures Valid() && old(worlds) <= worlds && OnlyMoved(id, old(Now()))
      ensures var todo := old(Now().calls[id].pc.todo); At(id, if failed then MarkingUnpaid(todo) else MarkingPaid(todo))
    {
      var fault: Fault := *;
      failed := !fault.Fine?;
      if !fault.Lost? && key !in backpack {
        backpack := backpack[key := row];
      }
      Record(DoPay(id, fault));
    }

    method MarkGlobalMailRewardSucceeded(id: nat, key: string) returns (failed: bool)
      requires Valid() && Enabled(Now(), DoMarkPaid(id, Fine)) && key == Key(Now().calls[id])
      modifies this`ledger, this`worlds, this`steps
      ensures Valid() && old(worlds) <= worlds && OnlyMoved(id, old(Now()))
      ensures At(id, if failed then Broken else Granting(old(Now().calls[id].pc.todo)[1..]))
    {
      var fault: Fault := *;
      failed := !fault.Fine?;
      if !fault.Lost? && key in ledger {
        ledger := ledger[key := ledger[key].(status := Succeeded, externalId := "playersrv-backpack:" + key)];
      }
      Record(DoMarkPaid(id, fault));
    }

    method MarkGlobalMailRewardFailed(id: nat, key: string)
      requires Valid() && Enabled(Now(), DoMarkUnpaid(id, Fine)) && key == Key(Now().calls[id])
      modifies this`ledger, this`worlds, this`steps
      ensures Valid() && old(worlds) <= worlds && OnlyMoved(id, old(Now())) && At(id, Broken)
    {
      var fault: Fault := *;
      if !fault.Lost? && key in ledger {
        ledger := ledger[key := ledger[key].(status := Failed)];
      }
      Record(DoMarkUnpaid(id, fault));
    }

    /** Insert the row, or overwrite every column of a row that is not deleted. */
    method SaveUserState(id: nat, row: Row) returns (failed: bool)
      requires Valid() && Enabled(Now(), DoSave(id, Fine, false)) && row == Now().calls[id].row
      modifies this`states, this`worlds, this`steps
      ensures Valid() && old(worlds) <= worlds && OnlyMoved(id, old(Now()))
      ensures At(id, if failed then Broken else Done)
    {
      var fault: Fault := *;
      var lateColumns: bool := *;
      failed := !fault.Fine?;
      var rm := (row.role, row.mail);
      if !fault.Lost? {
        if rm !in states {
          states := states[rm := row];
        } else if states[rm].status != Deleted {
          var was := states[rm];
          states := states[rm := row.(role := was.role, mail := was.mail, createTime := was.createTime)];
          if row.status == Deleted && lateColumns {
            states := states[rm := states[rm].(version := was.version, updateTime := was.updateTime)];
          }
        }
      }
      Record(DoSave(id, fault, lateColumns));
    }

    // ---------- backpack service ----------

    /** Reserve, grant, mark; a reservation that is already taken ends the grant without an error. */
    method GrantGlobalMailReward(id: nat, role: int, server: int, mail: int, index: int, loot: Option<string>)
      returns (failed: bool)
      requires Valid() && Enabled(Now(), DoReserve(id, Fine))
      requires var call := Now().calls[id];
               && role == call.role && server == call.server && mail == call.mail && index == call.pc.todo[0]
               && LootAt(mails[mail], index) == Loot(loot)
      modifies this`ledger, this`backpack, this`worlds, this`steps
      ensures Valid() && old(worlds) <= worlds && OnlyMoved(id, old(Now()))
      ensures At(id, if failed then Broken else Granting(old(Now().calls[id].pc.todo)[1..]))
    {
      var key := GrantKey(role, mail, index);
      var reserved;
      reserved, failed := ReserveGlobalMailReward(id, key, LedgerRow(role, server, mail, index, Pending, "", id));
      if failed || !reserved {
        return;
      }
      failed := GrantBackpackReward(id, key, BackpackRow(role, server, index, loot));
      if failed {
        MarkGlobalMailRewardFailed(id, key);
        return;
      }
      failed := MarkGlobalMailRewardSucceeded(id, key);
    }

    // ---------- mail service ----------

    /** Grant every index that is not yet claimed, in increasing order, stopping at the first failure. */
    method GrantNewIndexes(id: nat, role: int, server: int, mail: int, todo: seq<int>) returns (failed: bool)
      requires Valid() && At(id, Granting(todo)) && mail in mails
      requires var call := Now().calls[id]; role == call.role && server == call.server && mail == call.mail
      modifies this`ledger, this`backpack, this`worlds, this`steps
      ensures Valid() && old(worlds) <= worlds && OnlyMoved(id, old(Now()))
      ensures At(id, if failed then Broken else Saving)
    {
      for i := 0 to |todo|
        invariant Valid() && old(worlds) <= worlds && OnlyMoved(id, old(Now())) && At(id, Granting(todo[i..]))
      {
        var found := LootAt(mails[mail], todo[i]);
        if found.NoSuchLoot? {
          Record(Next(id));
          return true;
        }
        var broke := GrantGlobalMailReward(id, role, server, mail, todo[i], found.value);
        if broke {
          return true;
        }
        assert todo[i..][1..] == todo[i + 1..];
      }
      assert todo[|todo|..] == [];
      Record(Next(id));
      failed := false;
    }

    /** The first half of `updateGlobalMailState`: find the visible mail and the stored row, or start a new row. */
    method ReadRow(id: nat, op: Op, role: int, server: int, mail: int, now: int) returns (found: Option<Row>)
      requires Valid() && id !in Now().calls
      modifies this`worlds, this`steps
      ensures Valid() && old(worlds) <= worlds && id in Now().calls
      ensures found.None? ==> At(id, Broken) && Now().calls[id].op == op
      ensures found.Some? ==>
                && mail in mails
                && Now().calls[id] == Call(op, role, server, mail, now, Get(states, (role, mail)),
                                           Target(op, found.value, now), AfterReadPc(op, found.value))
    {
      found := None;
      Record(Invoke(id, op, role, server, mail));
      var readFails: bool := *;
      if mail !in mails || readFails {
        Record(Abort(id));
        return;
      }
      var row := Row(role, server, mail, Unread, [], None, None, 0, now, None);
      if (role, mail) in states {
        row := states[(role, mail)];
      }
      row := row.(version := row.version + 1);
      Record(ReadState(id, now));
      found := Some(row);
    }

    /** `updateGlobalMailState` with the read, claim or delete closure. */
    method UpdateGlobalMailState(id: nat, op: Op, role: int, server: int, mail: int, now: int)
      returns (result: Option<Row>)
      requires Valid() && id !in Now().calls
      modifies this`states, this`ledger, this`backpack, this`worlds, this`steps
      ensures Valid() && old(worlds) <= worlds && id in Now().calls && Now().calls[id].op == op
      ensures At(id, if result.Some? then Done else Broken)
      ensures result.Some? ==> result.value == Now().calls[id].row
    {
      result := None;
      var found := ReadRow(id, op, role, server, mail, now);
      if found.None? {
        return;
      }
      var row := found.value;
      if op.Claim? && row.status != Deleted {
        var todo := NewLootIndexes(row.claimed, op.indexes);
        var broke := GrantNewIndexes(id, role, server, mail, todo);
        if broke {
          return;
        }
      }
      row := CloseOver(op, row, now);
      var failed := SaveUserState(id, row);
      if !failed {
        result := Some(row);
      }
    }

    /** The closure of the operation, applied to the row that was read. */
    method CloseOver(op: Op, row: Row, now: int) returns (out: Row)
      ensures out == Target(op, row, now)
    {
      out := row;
      match op {
        case MarkRead =>
          if out.status != Deleted {
            if out.status == Unread {
              out := out.(status := Read);
            }
            out := out.(updateTime := Some(now));
          }
        case Claim(indexes) =>
          if out.status != Deleted {
            var merged := MergeLootIndexes(out.claimed, indexes);
            out := out.(status := Claimed, claimed := merged);
            if out.claimTime.None? {
              out := out.(claimTime := Some(now));
            }
            out := out.(updateTime := Some(now));
          }
        case Delete =>
          out := out.(status := Deleted);
          if out.deleteTime.None? {
            out := out.(deleteTime := Some(now));
          }
          out := out.(updateTime := Some(now));
      }
      if out.updateTime.None? {
        out := out.(updateTime := Some(now));
      }
    }
  }
}
