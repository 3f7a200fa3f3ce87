/** From the relay's advance step to the player's screen. */
module PublishToPlayer {
  import opened GlobalMail
  import opened MailPipeline
  import opened MailVisibility
  import opened ProjectionTheorems
  import LocalCaches
  import ProjectionSafety

  /** Once a mail's event has passed its advance step, the next refresh that reads the version and swaps makes the
  mail visible, while its window lasts, to exactly the players who match its conditions and whose server it lists or
  nothing cached lists. */
  lemma AdvancedMailIsSeen(c: Config, worlds: seq<World>, steps: seq<Step>, j: nat, k: nat, i: nat, id: nat, mail: int,
                           snapshot: CacheSnapshot, list: seq<Mail>, p: Profile, now: int)
    requires IsRun(c, worlds, steps) && j < k < i < |steps|
    requires Advances(worlds[j], steps[j], mail) && Asks(worlds[k], steps[k], id) && Swaps(worlds[i], steps[i], id)
    requires Built(snapshot, list)
    requires worlds[i].tasks[id].cache in worlds[i + 1].caches
    requires LocalCaches.Enumerates(list, worlds[i + 1].caches[worlds[i].tasks[id].cache].mails)
    requires mail in worlds[i].db.mails
    requires InWindow(worlds[i].db.mails[mail], worlds[i].tasks[id].pc.now) && InWindow(worlds[i].db.mails[mail], now)
    ensures var row := worlds[i].db.mails[mail];
            row in Seen(snapshot, p, now) <==>
              && AllMatch(row.conditions, p)
              && (Reaches(row, p) || forall n :: 0 <= n < |list| ==> !Reaches(list[n], p))
  {
    var row, held := worlds[i].db.mails[mail], worlds[i + 1].caches[worlds[i].tasks[id].cache].mails;
    assert row in list && row.status == Published by {
      SnapshotCoversAdvanced(c, worlds, steps, j, k, i, id, mail);
      ProjectionSafety.RunKeepsInv(c, worlds, steps, i);
      ProjectionSafety.RunKeepsInv(c, worlds, steps, i + 1);
      assert StepAt(c, worlds, steps, i);
      assert held[mail] == row && HasId(list, mail);
    }
    if AllMatch(row.conditions, p) {
      SeenIff(snapshot, p, now, list, row);
    } else if row in Seen(snapshot, p, now) {
      SeenPass(snapshot, p, now, list, row);
    }
  }
}
