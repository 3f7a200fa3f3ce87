/** Publishing: one outbox row per mail, one mail per idempotency key. */
module PublishSafety {
  import opened Options
  import opened GlobalMail
  import opened MailPipeline

  /** Mails and outbox rows are in one-to-one correspondence, and rows agree with their mails. */
  ghost predicate RowsOk(db: Db) {
    && (forall m :: m in db.mails ==> db.mails[m].id == m && db.mails[m].status == Published)
    && (forall e :: e in db.outbox ==> db.outbox[e].mail in db.mails
                                       && db.outbox[e].version == db.mails[db.outbox[e].mail].version)
    && (forall e, f :: e in db.outbox && f in db.outbox && db.outbox[e].mail == db.outbox[f].mail ==> e == f)
    && (forall m :: m in db.mails ==> exists e :: e in db.outbox && db.outbox[e].mail == m)
  }

  predicate Answers(db: Db, mail: Mail) {
    mail.id in db.mails && db.mails[mail.id] == Stored(mail)
  }

  ghost predicate ReceiptsOk(db: Db) {
    forall k :: k in db.receipts ==> k != "" && Answers(db, db.receipts[k].response)
  }

  ghost predicate PublisherOk(db: Db, p: Publisher) {
    match p
    case Creating(_, _, mail, _) => mail.status == Published && mail.version == 1
    case Accepted(key, mail) =>
      Answers(db, mail) && (key != "" ==> key in db.receipts && db.receipts[key].response == mail)
    case _ => true
  }

  ghost predicate Inv(w: World) {
    && RowsOk(w.db) && ReceiptsOk(w.db)
    && forall p :: p in w.publishers ==> PublisherOk(w.db, w.publishers[p])
  }

  /** Nothing that was committed is ever changed or lost. */
  ghost predicate Extends(db: Db, db': Db) {
    && (forall m :: m in db.mails ==> m in db'.mails && db'.mails[m] == db.mails[m])
    && (forall k :: k in db.receipts ==> k in db'.receipts && db'.receipts[k] == db.receipts[k])
    && (forall e :: e in db.outbox ==> e in db'.outbox && SameEvent(db.outbox[e], db'.outbox[e]))
  }

  predicate SameEvent(a: Event, b: Event) {
    a.mail == b.mail && a.version == b.version
  }

  lemma InsertKeepsRows(db: Db, key: string, cmd: Command, mail: Mail, event: int)
    requires RowsOk(db) && Insertable(db, key, mail, event) && mail.status == Published
    ensures RowsOk(Insert(db, key, cmd, mail, event))
  {
    var mails, outbox := db.mails[mail.id := Stored(mail)], db.outbox[event := NewEvent(mail)];
    assert Insert(db, key, cmd, mail, event).mails == mails && Insert(db, key, cmd, mail, event).outbox == outbox;
    forall m | m in mails
      ensures exists e :: e in outbox && outbox[e].mail == m
    {
      if m == mail.id {
        assert outbox[event].mail == m;
      } else {
        var e :| e in db.outbox && db.outbox[e].mail == m;
        assert outbox[e].mail == m;
      }
    }
  }

  lemma InsertKeepsReceipts(db: Db, key: string, cmd: Command, mail: Mail, event: int)
    requires ReceiptsOk(db) && Insertable(db, key, mail, event)
    ensures var db' := Insert(db, key, cmd, mail, event); ReceiptsOk(db') && Extends(db, db')
  {
    assert forall k :: k in db.receipts ==> Answers(db, db.receipts[k].response);
  }

  /** A relay step changes only the progress columns of outbox rows. */
  lemma RelayKeepsIdentity(c: Config, w: World, id: nat, act: RelayAct)
    requires RelayEnabled(w, id, act)
    ensures var db' := RelayStep(c, w, id, act).db;
            && db'.mails == w.db.mails && db'.receipts == w.db.receipts
            && db'.outbox.Keys == w.db.outbox.Keys
            && forall e :: e in w.db.outbox ==> SameEvent(w.db.outbox[e], db'.outbox[e])
  {
    match act
    case Start =>
    case Fetch(ids, fault) =>
    case Do(fault) =>
      assert w.relays[id].todo[0].event in w.db.outbox;
    case StageFails =>
    case Stop =>
  }

  lemma SameRows(db: Db, db': Db)
    requires RowsOk(db) && ReceiptsOk(db)
    requires db'.mails == db.mails && db'.receipts == db.receipts && db'.outbox.Keys == db.outbox.Keys
    requires forall e :: e in db.outbox ==> SameEvent(db.outbox[e], db'.outbox[e])
    ensures RowsOk(db') && ReceiptsOk(db') && Extends(db, db')
  {
    forall m | m in db'.mails
      ensures exists e :: e in db'.outbox && db'.outbox[e].mail == m
    {
      var e :| e in db.outbox && db.outbox[e].mail == m;
      assert db'.outbox[e].mail == m;
    }
  }

  lemma PublishKeepsDb(w: World, id: nat, act: PublishAct)
    requires RowsOk(w.db) && ReceiptsOk(w.db) && PublishEnabled(w, id, act)
    requires id in w.publishers ==> PublisherOk(w.db, w.publishers[id])
    ensures var db' := DbAfterPublish(w, id, act); RowsOk(db') && ReceiptsOk(db') && Extends(w.db, db')
  {
    if act.Create? && Insertable(w.db, w.publishers[id].key, w.publishers[id].mail, w.publishers[id].event) {
      var p := w.publishers[id];
      InsertKeepsRows(w.db, p.key, p.cmd, p.mail, p.event);
      InsertKeepsReceipts(w.db, p.key, p.cmd, p.mail, p.event);
    }
  }

  lemma StepKeepsDb(c: Config, w: World, step: Step)
    requires Inv(w) && Enabled(w, step)
    ensures var db' := Apply(c, w, step).db; RowsOk(db') && ReceiptsOk(db') && Extends(w.db, db')
  {
    match step
    case Publish(id, act) => PublishKeepsDb(w, id, act);
    case Relaying(id, act) =>
      RelayKeepsIdentity(c, w, id, act);
      SameRows(w.db, RelayStep(c, w, id, act).db);
    case _ =>
  }

  lemma GrowthKeepsPublisher(db: Db, db': Db, p: Publisher)
    requires PublisherOk(db, p) && Extends(db, db')
    ensures PublisherOk(db', p)
  {
  }

  lemma ActKeepsPublisher(w: World, id: nat, act: PublishAct)
    requires ReceiptsOk(w.db) && PublishEnabled(w, id, act)
    requires id in w.publishers ==> PublisherOk(w.db, w.publishers[id])
    requires Extends(w.db, DbAfterPublish(w, id, act))
    ensures PublisherOk(DbAfterPublish(w, id, act), PublisherAfter(w, id, act))
  {
    match act
    case Submit(key, cmd) =>
    case Check(found, mailId, event) =>
      var p := w.publishers[id];
      if found {
        assert Answers(w.db, w.db.receipts[p.key].response);
      }
    case Create(fault) =>
    case GiveUp =>
  }

  lemma StepKeepsInv(c: Config, w: World, step: Step)
    requires Inv(w) && Enabled(w, step)
    ensures Inv(Apply(c, w, step)) && Extends(w.db, Apply(c, w, step).db)
  {
    var w' := Apply(c, w, step);
    StepKeepsDb(c, w, step);
    forall p | p in w'.publishers
      ensures PublisherOk(w'.db, w'.publishers[p])
    {
      if step.Publish? && step.id == p {
        ActKeepsPublisher(w, p, step.publishAct);
      } else {
        GrowthKeepsPublisher(w.db, w'.db, w.publishers[p]);
      }
    }
  }

  lemma {:induction false} RunKeepsInv(c: Config, worlds: seq<World>, steps: seq<Step>, i: nat)
    requires IsRun(c, worlds, steps) && i < |worlds|
    ensures Inv(worlds[i])
  {
    if i > 0 {
      RunKeepsInv(c, worlds, steps, i - 1);
      assert StepAt(c, worlds, steps, i - 1);
      StepKeepsInv(c, worlds[i - 1], steps[i - 1]);
    }
  }

  lemma ExtendsTransitive(a: Db, b: Db, c: Db)
    requires Extends(a, b) && Extends(b, c)
    ensures Extends(a, c)
  {
  }

  lemma {:induction false} RunExtends(c: Config, worlds: seq<World>, steps: seq<Step>, i: nat, j: nat)
    requires IsRun(c, worlds, steps) && i <= j < |worlds|
    ensures Extends(worlds[i].db, worlds[j].db)
  {
    if i < j {
      RunExtends(c, worlds, steps, i, j - 1);
      assert Extends(worlds[j - 1].db, worlds[j].db) by {
        RunKeepsInv(c, worlds, steps, j - 1);
        assert StepAt(c, worlds, steps, j - 1);
        StepKeepsInv(c, worlds[j - 1], steps[j - 1]);
      }
      ExtendsTransitive(worlds[i].db, worlds[j - 1].db, worlds[j].db);
    }
  }

  // ---------- what holds in every run ----------

  /** Mails and outbox rows match one to one. */
  lemma OneOutboxRowPerMail(c: Config, worlds: seq<World>, steps: seq<Step>, i: nat, mail: int)
    requires IsRun(c, worlds, steps) && i < |worlds|
    ensures var db := worlds[i].db;
            mail in db.mails <==> exists e :: e in db.outbox && db.outbox[e].mail == mail
    ensures var db := worlds[i].db;
            forall e, f :: e in db.outbox && f in db.outbox && db.outbox[e].mail == mail == db.outbox[f].mail ==> e == f
  {
    RunKeepsInv(c, worlds, steps, i);
  }

  /** Step i commits a new mail for `key`. */
  ghost predicate CommitsFor(w: World, step: Step, key: string) {
    && step.Publish? && step.publishAct.Create? && !step.publishAct.fault.Lost?
    && PublishEnabled(w, step.id, step.publishAct)
    && var p := w.publishers[step.id];
       p.key == key && Insertable(w.db, p.key, p.mail, p.event)
  }

  /** However many publishers race, retry or crash, a non-empty key commits one mail, and committing is the only way
  a mail comes into being. */
  lemma KeyCommitsOnce(c: Config, worlds: seq<World>, steps: seq<Step>, i: nat, j: nat, key: string)
    requires IsRun(c, worlds, steps) && i < |steps| && j < |steps| && key != ""
    requires CommitsFor(worlds[i], steps[i], key) && CommitsFor(worlds[j], steps[j], key)
    ensures i == j
  {
    assert StepAt(c, worlds, steps, i) && StepAt(c, worlds, steps, j);
    if i < j {
      RunExtends(c, worlds, steps, i + 1, j);
    } else if j < i {
      RunExtends(c, worlds, steps, j + 1, i);
    }
  }

  lemma MailsComeFromCommits(c: Config, worlds: seq<World>, steps: seq<Step>, i: nat)
    requires IsRun(c, worlds, steps) && i < |steps|
    ensures worlds[i + 1].db.mails != worlds[i].db.mails <==>
            steps[i].Publish? && steps[i].id in worlds[i].publishers
            && CommitsFor(worlds[i], steps[i], worlds[i].publishers[steps[i].id].key)
    ensures |worlds[i + 1].db.mails| <= |worlds[i].db.mails| + 1
  {
    assert StepAt(c, worlds, steps, i);
    var w, step := worlds[i], steps[i];
    if step.Publish? && step.publishAct.Create? {
      var p := w.publishers[step.id];
      if CommitsFor(w, step, p.key) {
        assert worlds[i + 1].db.mails == w.db.mails[p.mail.id := Stored(p.mail)];
        assert p.mail.id in worlds[i + 1].db.mails;
      }
    }
  }

  /** Every successful publish of a non-empty key, whenever it returned, returned the one mail of that key; and what
  it returned is the stored mail. */
  lemma SameKeySameMail(c: Config, worlds: seq<World>, steps: seq<Step>, i: nat, p: nat, j: nat, q: nat)
    requires IsRun(c, worlds, steps) && i < |worlds| && j < |worlds|
    requires p in worlds[i].publishers && worlds[i].publishers[p].Accepted?
    requires q in worlds[j].publishers && worlds[j].publishers[q].Accepted?
    requires worlds[i].publishers[p].key == worlds[j].publishers[q].key != ""
    ensures worlds[i].publishers[p].mail == worlds[j].publishers[q].mail
  {
    RunKeepsInv(c, worlds, steps, i);
    RunKeepsInv(c, worlds, steps, j);
    if i <= j {
      RunExtends(c, worlds, steps, i, j);
    } else {
      RunExtends(c, worlds, steps, j, i);
    }
  }

  /** A published mail is there, unchanged, ever after. */
  lemma AcceptedIsStored(c: Config, worlds: seq<World>, steps: seq<Step>, i: nat, p: nat, j: nat)
    requires IsRun(c, worlds, steps) && i <= j < |worlds|
    requires p in worlds[i].publishers && worlds[i].publishers[p].Accepted?
    ensures var mail := worlds[i].publishers[p].mail;
            mail.id in worlds[j].db.mails && worlds[j].db.mails[mail.id] == Stored(mail)
  {
    RunKeepsInv(c, worlds, steps, i);
    RunExtends(c, worlds, steps, i, j);
  }
}
