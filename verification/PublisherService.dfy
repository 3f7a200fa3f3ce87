/** `PublisherService.Publish` and its transaction as code over mutable tables.

The object carries the run of the pipeline that explains its tables; every repository call is one step of the
publisher, and may fail with or without having taken effect unless `reliable` is set. */
module Publishing {
  import opened Options
  import opened GlobalMail
  import opened MailPipeline
  import opened Subsequences
  import PublishSafety

  /** Insert the conditions one by one, each under the mail's ID, up to a duplicate key. */
  method InsertConditions(ids: set<int>, mail: Mail) returns (ok: bool, ids': set<int>, rows: seq<Condition>)
    ensures ok <==> DistinctIds(mail.conditions) && Ids(mail.conditions) !! ids
    ensures ok ==> ids' == ids + Ids(mail.conditions) && rows == Tagged(mail.conditions, mail.id)
  {
    ids', rows := ids, [];
    var conditions := mail.conditions;
    for i := 0 to |conditions|
      invariant |rows| == i && forall k :: 0 <= k < i ==> rows[k] == conditions[k].(mailId := mail.id)
      invariant ids' == ids + Ids(conditions[..i]) && DistinctIds(conditions[..i]) && Ids(conditions[..i]) !! ids
    {
      var row := conditions[i].(mailId := mail.id);
      assert Ids(conditions[..i + 1]) == Ids(conditions[..i]) + {row.id};
      if row.id in ids' {
        Duplicate(ids, conditions, i);
        return false, ids', rows;
      }
      ids', rows := ids' + {row.id}, rows + [row];
      assert row.id !in Ids(conditions[..i]);
      Distinct(conditions, i);
    }
    assert conditions[..|conditions|] == conditions;
    ok := true;
  }

  lemma Duplicate(ids: set<int>, conditions: seq<Condition>, i: nat)
    requires i < |conditions| && conditions[i].id in ids + Ids(conditions[..i])
    ensures !(DistinctIds(conditions) && Ids(conditions) !! ids)
  {
    if conditions[i].id in ids {
      assert conditions[i].id in Ids(conditions);
    } else {
      var k :| 0 <= k < i && conditions[..i][k].id == conditions[i].id;
      assert conditions[k].id == conditions[i].id;
    }
  }

  lemma Distinct(conditions: seq<Condition>, i: nat)
    requires i < |conditions| && DistinctIds(conditions[..i]) && conditions[i].id !in Ids(conditions[..i])
    ensures DistinctIds(conditions[..i + 1])
  {
    forall a, b | 0 <= a < b < i + 1
      ensures conditions[a].id != conditions[b].id
    {
      assert conditions[..i][a].id in Ids(conditions[..i]);
      assert b < i ==> conditions[..i][a].id != conditions[..i][b].id;
    }
  }

  /** `createGlobalMailWithOutbox`: all inserts, or none when one meets a duplicate key. */
  method CreateGlobalMailWithOutbox(db: Db, key: string, cmd: Command, mail: Mail, event: int) returns (ok: bool, db': Db)
    ensures ok <==> Insertable(db, key, mail, event)
    ensures db' == if ok then Insert(db, key, cmd, mail, event) else db
  {
    if mail.id in db.mails {
      return false, db;
    }
    var fine, ids, rows := InsertConditions(db.conditionIds, mail);
    if !fine || event in db.outbox {
      return false, db;
    }
    var tx := db.(mails := db.mails[mail.id := mail.(conditions := rows)], conditionIds := ids,
                  outbox := db.outbox[event := Event(mail.id, mail.version, Pending, 0, None, None)]);
    if key != "" {
      if key in tx.receipts {
        return false, db;
      }
      tx := tx.(receipts := tx.receipts[key := Receipt(cmd, mail)]);
    }
    return true, tx;
  }

  class PublisherService {
    const c: Config
    const reliable: bool
    var db: Db
    var clock: int
    ghost var worlds: seq<World>
    ghost var steps: seq<Step>

    ghost predicate Valid()
      reads this
    {
      IsRun(c, worlds, steps) && Now().db == db && Now().clock == clock
    }

    ghost function Now(): World
      reads this
      requires worlds != []
    {
      Last(worlds)
    }

    ghost predicate At(id: nat, p: Publisher)
      reads this
    {
      worlds != [] && id in Now().publishers && Now().publishers[id] == p
    }

    /** Start in any state the pipeline can reach. */
    constructor (c: Config, reliable: bool, db: Db, clock: int, ghost worlds: seq<World>, ghost steps: seq<Step>)
      requires IsRun(c, worlds, steps) && worlds[|steps|].db == db && worlds[|steps|].clock == clock
      ensures Valid() && this.c == c && this.reliable == reliable && this.worlds == worlds && this.steps == steps
    {
      this.c, this.reliable, this.db, this.clock, this.worlds, this.steps := c, reliable, db, clock, worlds, steps;
    }

    ghost method Record(step: Step)
      requires IsRun(c, worlds, steps) && Enabled(Now(), step)
      requires Apply(c, Now(), step).db == db && Apply(c, Now(), step).clock == clock
      modifies this`worlds, this`steps
      ensures Valid() && worlds == old(worlds) + [Apply(c, old(Now()), step)]
    {
      worlds, steps := Extend(c, worlds, steps, step);
    }

    method Call() returns (fault: Fault)
      ensures reliable ==> fault.Fine?
    {
      fault := *;
      if reliable {
        fault := Fine;
      }
    }

    /** `validateMail`, the default action and the first step of the machine. */
    method Submit(id: nat, key: string, cmd: Command) returns (accepted: Option<Command>)
      requires Valid() && id !in Now().publishers
      modifies this`worlds, this`steps
      ensures Valid() && old(worlds) <= worlds
      ensures accepted.Some? <==> Acceptable(cmd.mail)
      ensures accepted.Some? ==> accepted.value == Normal(cmd)
      ensures At(id, if accepted.Some? then Checking(key, accepted.value) else Refused(key))
    {
      Record(Step.Publish(id, PublishAct.Submit(key, cmd)));
      if cmd.mail.title == "" || cmd.mail.content == "" {
        return None;
      }
      if cmd.mail.startTime == 0 || cmd.mail.expireTime == 0 || cmd.mail.expireTime <= cmd.mail.startTime {
        return None;
      }
      var filled := cmd;
      if filled.action == "" {
        filled := filled.(action := "publish");
      }
      accepted := Some(filled);
    }

    function Normal(cmd: Command): Command {
      if cmd.action == "" then cmd.(action := "publish") else cmd
    }

    /** Create the mail, its event and its receipt. */
    method CreateMail(id: nat, key: string, cmd: Command, mail: Mail, event: int) returns (failed: bool)
      requires Valid() && At(id, Creating(key, cmd, mail, event))
      modifies this`db, this`worlds, this`steps
      ensures Valid() && old(worlds) <= worlds && At(id, if failed then Refused(key) else Accepted(key, mail))
      ensures !failed ==> Insertable(old(db), key, mail, event)
      ensures reliable && Insertable(old(db), key, mail, event) ==> !failed
      ensures db == old(db) || (Insertable(old(db), key, mail, event) && db == Insert(old(db), key, cmd, mail, event))
      ensures !failed ==> db != old(db)
    {
      var ok, next := CreateGlobalMailWithOutbox(db, key, cmd, mail, event);
      var fault := Call();
      if !fault.Lost? {
        db := next;
      }
      failed := !ok || !fault.Fine?;
      Record(Step.Publish(id, Create(fault)));
    }

    /** Publish, or return the receipt of an earlier publish with the same key and the same request. `mailId` and
    `event` are what the ID generator gives. */
    method Publish(id: nat, key: string, cmd: Command, mailId: int, event: int) returns (result: Option<Mail>)
      requires Valid() && id !in Now().publishers
      modifies this`db, this`worlds, this`steps
      ensures Valid() && old(worlds) <= worlds
      ensures At(id, if result.Some? then Accepted(key, result.value) else Refused(key))
      ensures key != "" && key in old(db).receipts ==>
                && db == old(db)
                && (result.Some? ==> result.value == old(db).receipts[key].response)
                && (reliable && Acceptable(cmd.mail) ==>
                      (result.Some? <==> old(db).receipts[key].request == Normal(cmd)))
      ensures result.Some? && !(key != "" && key in old(db).receipts) ==>
                && result.value == NewMail(Normal(cmd), mailId, clock)
                && Insertable(old(db), key, result.value, event)
                && db == Insert(old(db), key, Normal(cmd), result.value, event)
      ensures result.Some? ==> PublishSafety.Answers(db, result.value)
      ensures result.Some? && key != "" ==> key in db.receipts && db.receipts[key].response == result.value
    {
      var accepted := Submit(id, key, cmd);
      if accepted.None? {
        return None;
      }
      if key != "" {
        var fault := Call();
        if !fault.Fine? {
          Record(Step.Publish(id, GiveUp));
          return None;
        }
      }
      var known := if key == "" then None else Get(db.receipts, key);
      Record(Step.Publish(id, Check(known.Some?, mailId, event)));
      if known.Some? {
        result := if known.value.request == accepted.value then Some(known.value.response) else None;
      } else {
        var mail := NewMail(accepted.value, mailId, clock);
        var failed := CreateMail(id, key, accepted.value, mail, event);
        result := if failed then None else Some(mail);
      }
      Conclude(id);
    }

    /** What an accepted publish answers is stored and on record, in this run as in all. */
    ghost method Conclude(id: nat)
      requires Valid() && id in Now().publishers
      ensures PublishSafety.PublisherOk(db, Now().publishers[id])
    {
      PublishSafety.RunKeepsInv(c, worlds, steps, |steps|);
    }
  }
}
