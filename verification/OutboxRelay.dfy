/** The outbox relay and its repositories as code over mutable tables.

The object carries the run of the pipeline that explains its tables, and every repository, Redis and Kafka call
extends that run by one step of this relay, so whatever holds in every run of the pipeline holds of these tables.
A call may fail with or without having taken effect, unless `reliable` is set, and time passes between calls. */
module OutboxRelaying {
  import opened Options
  import opened GlobalMail
  import opened MailPipeline
  import opened Subsequences
  import opened Sorting
  import Choice
  import ProjectionSafety

  // ---------- the query ----------

  /** Rows the query returns: eligible ones that no other transaction holds. */
  predicate Candidate(outbox: map<int, Event>, now: int, held: set<int>, e: int) {
    e in outbox && Eligible(outbox[e], now) && e !in held
  }

  /** The candidates with the lowest IDs, in order, as many as the limit allows. */
  ghost predicate Lowest(outbox: map<int, Event>, now: int, held: set<int>, limit: nat, ids: seq<int>) {
    && StrictlySorted(ids) && |ids| <= limit
    && (forall i :: 0 <= i < |ids| ==> Candidate(outbox, now, held, ids[i]))
    && (forall e, f :: Candidate(outbox, now, held, e) && e !in ids && f in ids ==> f < e)
    && (forall e :: Candidate(outbox, now, held, e) && e !in ids ==> |ids| == limit)
  }

  method SelectPending(outbox: map<int, Event>, now: int, held: set<int>, limit: nat) returns (ids: seq<int>)
    ensures Lowest(outbox, now, held, limit, ids)
  {
    var found: seq<int>, rest := [], outbox.Keys;
    while rest != {}
      invariant rest <= outbox.Keys && StrictlySorted(found)
      invariant forall e :: e in Elements(found) <==> Candidate(outbox, now, held, e) && e !in rest
      decreases rest
    {
      var e := Choice.Any(rest);
      if Eligible(outbox[e], now) && e !in held {
        found := InsertDistinct(found, e);
      }
      rest := rest - {e};
    }
    assert forall i :: 0 <= i < |found| ==> found[i] in Elements(found);
    ids := if |found| <= limit then found else found[..limit];
    forall e, f | e in found && e !in ids && f in ids
      ensures f < e
    {
      var i :| 0 <= i < |found| && found[i] == e;
      var j :| 0 <= j < |ids| && ids[j] == f;
      assert ids == found[..limit] && i >= limit;
    }
  }

  function Cap(limit: int): nat {
    if limit <= 0 then 100 else limit
  }

  /** The events as fetched, one per row found. */
  method ToEvents(outbox: map<int, Event>, ids: seq<int>, until: int) returns (events: seq<Lease>)
    requires forall i :: 0 <= i < |ids| ==> ids[i] in outbox
    ensures events == Leases(outbox, ids, until)
  {
    events := [];
    for i := 0 to |ids|
      invariant |events| == i && forall k :: 0 <= k < i ==> events[k] == LeaseOf(outbox, ids[k], until)
    {
      events := events + [LeaseOf(outbox, ids[i], until)];
    }
  }

  // ---------- how far a flush has come ----------

  predicate Reached(events: seq<Lease>, i: nat, e: int)
    requires i <= |events|
  {
    exists k :: 0 <= k < i && events[k].event == e
  }

  function Events(leases: seq<Lease>): set<int> {
    set i | 0 <= i < |leases| :: leases[i].event
  }

  predicate DistinctEvents(events: seq<Lease>) {
    forall i, j :: 0 <= i < j < |events| ==> events[i].event != events[j].event
  }

  /** Rows not reached are as they were fetched; of the others, the sent ones are those counted. */
  ghost predicate Progress(was: map<int, Event>, now: map<int, Event>, events: seq<Lease>, i: nat, sent: set<int>)
    requires i <= |events|
  {
    && now.Keys == was.Keys && sent <= now.Keys
    && forall e :: e in now ==>
         if Reached(events, i, e) then now[e].status.Sent? <==> e in sent else now[e] == was[e] && e !in sent
  }

  ghost predicate AllSent(events: seq<Lease>, i: nat, sent: set<int>)
    requires i <= |events|
  {
    forall k :: 0 <= k < i ==> events[k].event in sent
  }

  lemma SentAreReached(was: map<int, Event>, now: map<int, Event>, events: seq<Lease>, sent: set<int>)
    requires Progress(was, now, events, |events|, sent)
    ensures sent <= Events(events)
    ensures AllSent(events, |events|, sent) ==> sent == Events(events)
  {
    forall e | e in sent
      ensures e in Events(events)
    {
      assert Reached(events, |events|, e);
    }
  }

  lemma EventsOfLeases(outbox: map<int, Event>, ids: seq<int>, until: int)
    requires forall i :: 0 <= i < |ids| ==> ids[i] in outbox
    ensures Events(Leases(outbox, ids, until)) == Elements(ids)
  {
    var events := Leases(outbox, ids, until);
    forall e | e in Elements(ids)
      ensures e in Events(events)
    {
      var i :| 0 <= i < |ids| && ids[i] == e;
      assert events[i].event == e;
    }
  }

  lemma ProgressMade(was: map<int, Event>, now: map<int, Event>, next: map<int, Event>,
                     events: seq<Lease>, i: nat, sent: set<int>, counted: bool)
    requires i < |events| && DistinctEvents(events) && Progress(was, now, events, i, sent)
    requires var e := events[i].event;
             && e in now && next.Keys == now.Keys && (next[e].status.Sent? <==> counted)
             && forall f :: f in now && f != e ==> next[f] == now[f]
    ensures events[i].event !in sent
    ensures Progress(was, next, events, i + 1, if counted then sent + {events[i].event} else sent)
  {
    var sent' := if counted then sent + {events[i].event} else sent;
    assert !Reached(events, i, events[i].event);
    forall f | f in next
      ensures if Reached(events, i + 1, f) then next[f].status.Sent? <==> f in sent' else next[f] == was[f] && f !in sent'
    {
      assert Reached(events, i + 1, f) <==> Reached(events, i, f) || f == events[i].event;
    }
  }

  /** A fetch left every row as it was or locked an open one. */
  ghost predicate Fetched(was: map<int, Event>, locked: map<int, Event>, events: seq<Lease>) {
    && locked.Keys == was.Keys
    && (forall i :: 0 <= i < |events| ==> events[i].event in locked && locked[events[i].event].status.Processing?)
    && (forall e :: e in was ==> locked[e] == was[e]
                                 || (locked[e].status.Processing? && (was[e].status.Pending? || was[e].status.Processing?)))
  }

  /** What a flush does to the table. */
  ghost predicate Flushed(was: map<int, Event>, now: map<int, Event>, sent: set<int>, failed: bool) {
    && now.Keys == was.Keys && sent <= now.Keys
    && (forall e :: e in sent ==> now[e].status.Sent?)
    && (forall e :: e in was && (was[e].status.Sent? || was[e].status.Failed?) ==> now[e] == was[e] && e !in sent)
    && (!failed ==> forall e :: e in now ==> (now[e].status.Sent? <==> was[e].status.Sent? || e in sent))
  }

  lemma ProgressIsFlushed(was: map<int, Event>, locked: map<int, Event>, now: map<int, Event>,
                          events: seq<Lease>, i: nat, sent: set<int>)
    requires i <= |events| && Fetched(was, locked, events) && Progress(locked, now, events, i, sent)
    ensures Flushed(was, now, sent, false)
  {
    forall e | e in now
      ensures if Reached(events, i, e) then locked[e].status.Processing? else now[e] == locked[e]
    {
    }
  }

  /** The same when the mark of event `i` failed, with or without effect. */
  lemma StopIsFlushed(was: map<int, Event>, locked: map<int, Event>, now: map<int, Event>, next: map<int, Event>,
                      events: seq<Lease>, i: nat, sent: set<int>)
    requires i < |events| && Fetched(was, locked, events) && DistinctEvents(events)
    requires Progress(locked, now, events, i, sent)
    requires var e := events[i].event;
             && next.Keys == now.Keys && (next[e] == now[e] || next[e] == MarkedSent(now[e]))
             && forall f :: f in now && f != e ==> next[f] == now[f]
    ensures Flushed(was, next, sent, true)
  {
    ProgressIsFlushed(was, locked, now, events, i, sent);
    assert !Reached(events, i, events[i].event);
  }

  datatype Outcome = Counted | Retried | Aborted

  class OutboxRelay {
    const c: Config
    const id: nat
    const reliable: bool
    var mails: map<int, Mail>
    var outbox: map<int, Event>
    var redis: Redis
    var notified: set<int>
    var clock: int
    ghost var worlds: seq<World>
    ghost var steps: seq<Step>

    ghost predicate Shows(w: World)
      reads this
    {
      && w.db.mails == mails && w.db.outbox == outbox && w.redis == redis && w.notified == notified
      && w.clock == clock
    }

    ghost predicate Valid()
      reads this
    {
      IsRun(c, worlds, steps) && Shows(Now())
    }

    ghost function Now(): World
      reads this
      requires worlds != []
    {
      Last(worlds)
    }

    ghost predicate At(r: Relay)
      reads this
    {
      worlds != [] && id in Now().relays && Now().relays[id] == r
    }

    /** Start in any state the pipeline can reach. */
    constructor (c: Config, id: nat, reliable: bool, mails: map<int, Mail>, outbox: map<int, Event>,
                 redis: Redis, notified: set<int>, clock: int, ghost worlds: seq<World>, ghost steps: seq<Step>)
      requires IsRun(c, worlds, steps)
      requires var w := worlds[|steps|];
               && w.db.mails == mails && w.db.outbox == outbox && w.redis == redis && w.notified == notified
               && w.clock == clock
      ensures Valid() && this.c == c && this.id == id && this.reliable == reliable
      ensures this.worlds == worlds && this.steps == steps
    {
      this.c, this.id, this.reliable := c, id, reliable;
      this.mails, this.outbox, this.redis, this.notified, this.clock := mails, outbox, redis, notified, clock;
      this.worlds, this.steps := worlds, steps;
    }

    /** Record a step of the pipeline; the tables must already show its effect. */
    ghost method Record(step: Step)
      requires IsRun(c, worlds, steps) && Enabled(Now(), step) && Shows(Apply(c, Now(), step))
      modifies this`worlds, this`steps
      ensures Valid() && worlds == old(worlds) + [Apply(c, old(Now()), step)]
    {
      worlds, steps := Extend(c, worlds, steps, step);
    }

    method Elapse()
      requires Valid()
      modifies this`clock, this`worlds, this`steps
      ensures Valid() && old(worlds) <= worlds && old(clock) <= clock
      ensures Now().relays == old(Now().relays)
    {
      var elapsed: int := *;
      if elapsed > 0 {
        clock := clock + elapsed;
        Record(Tick(elapsed));
      }
    }

    /** How the next call comes back. */
    method Call() returns (fault: Fault)
      ensures reliable ==> fault.Fine?
    {
      fault := *;
      if reliable {
        fault := Fine;
      }
    }

    // ---------- repositories ----------

    /** Lease the pending rows with the lowest IDs, skipping those other transactions hold. */
    method FetchPending(limit: int, until: int, held: set<int>)
      returns (events: seq<Lease>, failed: bool, ghost ids: seq<int>)
      requires Valid() && At(Fetching(until))
      modifies this`outbox, this`worlds, this`steps
      ensures Valid() && old(worlds) <= worlds
      ensures At(if failed || events == [] then Idle else Working(events, Decode))
      ensures reliable ==> !failed
      ensures (failed ==> events == []) && |events| <= Cap(limit) && DistinctEvents(events)
      ensures !failed ==> Lowest(old(outbox), clock, held, Cap(limit), ids) && events == Leases(old(outbox), ids, until)
      ensures !failed ==> outbox == LockAll(old(outbox), ids, until)
      ensures Fetched(old(outbox), outbox, events)
    {
      var found := SelectPending(outbox, clock, held, Cap(limit));
      ids := found;
      events := ToEvents(outbox, found, until);
      var fault := Call();
      failed := !fault.Fine?;
      if !fault.Lost? {
        outbox := LockAll(outbox, found, until);
      }
      Record(Relaying(id, Fetch(ids, fault)));
      if failed {
        events := [];
      }
    }

    ghost predicate Calling(todo: seq<Lease>, stage: Stage)
      reads this
    {
      Valid() && todo != [] && todo[0].event in outbox && At(Working(todo, stage))
    }

    method SetGlobalMail(mail: Mail, ghost todo: seq<Lease>) returns (failed: bool)
      requires Calling(todo, SetDetail(mail))
      modifies this`redis, this`worlds, this`steps
      ensures Calling(todo, if failed then ReadRetries else SetIndex(mail)) && old(worlds) <= worlds && (reliable ==> !failed)
      ensures redis == old(redis) || redis == old(redis).(details := old(redis).details[mail.id := mail])
      ensures !failed ==> mail.id in redis.details && redis.details[mail.id] == mail
    {
      var fault := Call();
      failed := !fault.Fine?;
      if !fault.Lost? {
        redis := redis.(details := redis.details[mail.id := mail]);
      }
      Record(Relaying(id, Do(fault)));
    }

    method AddGlobalMailToIndexes(mail: Mail, ghost todo: seq<Lease>) returns (failed: bool)
      requires Calling(todo, SetIndex(mail))
      modifies this`redis, this`worlds, this`steps
      ensures Calling(todo, if failed then ReadRetries else Raise) && old(worlds) <= worlds && (reliable ==> !failed)
      ensures redis == old(redis) || redis == old(redis).(index := old(redis).index[mail.id := Unix(mail.expireTime)])
      ensures !failed ==> mail.id in redis.index && redis.index[mail.id] == Unix(mail.expireTime)
    {
      var fault := Call();
      failed := !fault.Fine?;
      if !fault.Lost? {
        redis := redis.(index := redis.index[mail.id := Unix(mail.expireTime)]);
      }
      Record(Relaying(id, Do(fault)));
    }

    method AdvanceGlobalMailVersion(target: int, ghost todo: seq<Lease>) returns (failed: bool)
      requires Calling(todo, Raise) && target == todo[0].version
      modifies this`redis, this`worlds, this`steps
      ensures Calling(todo, if failed then ReadRetries else Notify) && old(worlds) <= worlds && (reliable ==> !failed)
      ensures redis == old(redis) || redis == old(redis).(version := Raised(old(redis).version, target))
      ensures old(redis).version <= redis.version && (!failed ==> redis.version >= target)
    {
      var fault := Call();
      failed := !fault.Fine?;
      if !fault.Lost? && redis.version < target {
        redis := redis.(version := target);
      }
      Record(Relaying(id, Do(fault)));
    }

    method PublishGlobalMailChanged(event: int, ghost todo: seq<Lease>) returns (failed: bool)
      requires Calling(todo, Notify) && event == todo[0].event
      modifies this`notified, this`worlds, this`steps
      ensures Calling(todo, if failed then ReadRetries else MarkSent) && old(worlds) <= worlds && (reliable ==> !failed)
    {
      var fault := Call();
      failed := !fault.Fine?;
      if !fault.Lost? {
        notified := notified + {event};
      }
      Record(Relaying(id, Do(fault)));
    }

    /** Only the row of `event` may have changed. */
    twostate predicate OnlyRow(event: int)
      reads this
    {
      outbox.Keys == old(outbox).Keys && forall f :: f in outbox && f != event ==> outbox[f] == old(outbox)[f]
    }

    method MarkPublished(event: int, ghost todo: seq<Lease>) returns (failed: bool)
      requires Calling(todo, MarkSent) && event == todo[0].event
      modifies this`outbox, this`worlds, this`steps
      ensures Valid() && old(worlds) <= worlds && At(if failed then Idle else Rest(todo)) && OnlyRow(event)
      ensures reliable ==> !failed
      ensures outbox[event] == MarkedSent(old(outbox)[event]) || (failed && outbox[event] == old(outbox)[event])
    {
      var fault := Call();
      failed := !fault.Fine?;
      if !fault.Lost? {
        outbox := outbox[event := MarkedSent(outbox[event])];
      }
      Record(Relaying(id, Do(fault)));
    }

    /** Read the retry count, then decide and write; errors are ignored by the caller. */
    method MarkFailed(event: int, retryAt: int, ghost todo: seq<Lease>)
      requires Calling(todo, ReadRetries) && event == todo[0].event && retryAt == RetryAt(clock, todo[0].retryCount)
      modifies this`outbox, this`worlds, this`steps
      ensures Valid() && old(worlds) <= worlds && At(Rest(todo)) && OnlyRow(event)
      ensures || outbox[event] == old(outbox)[event]
              || outbox[event] == MarkedFailed(c, old(outbox)[event], old(outbox)[event].retryCount, retryAt)
    {
      var fault := Call();
      var retries := outbox[event].retryCount;
      Record(Relaying(id, Do(fault)));
      if !fault.Fine? {
        return;
      }
      fault := Call();
      if !fault.Lost? {
        var failed := retries + 1 >= c.maxRetries;
        var row := outbox[event].(retryCount := outbox[event].retryCount + 1, lockedUntil := None);
        row := if failed then row.(status := Failed, nextRetry := None)
               else row.(status := Pending, nextRetry := Some(retryAt));
        outbox := outbox[event := row];
      }
      Record(Relaying(id, Do(fault)));
    }

    // ---------- the relay ----------

    method NextRetryTime(retryCount: nat) returns (t: int)
      ensures t == RetryAt(clock, retryCount)
      ensures clock < t <= clock + 1800 * SECOND && (retryCount < 30 ==> t == clock + (retryCount + 1) * 60 * SECOND)
    {
      var backoff := (retryCount + 1) * 60 * SECOND;
      if backoff > 30 * 60 * SECOND {
        backoff := 30 * 60 * SECOND;
      }
      t := clock + backoff;
    }

    /** Decode the payload and load the mail. */
    method LoadMail(lease: Lease, ghost todo: seq<Lease>) returns (found: Option<Mail>)
      requires Calling(todo, Decode) && lease == todo[0]
      modifies this`clock, this`worlds, this`steps
      ensures Calling(todo, if found.None? then ReadRetries else SetDetail(found.value)) && old(worlds) <= worlds
      ensures reliable && lease.mail in mails ==> found.Some?
    {
      var decoded := Call();
      if !decoded.Fine? {
        Record(Relaying(id, StageFails));
        return None;
      }
      Record(Relaying(id, Do(Fine)));
      Elapse();
      var read := Call();
      if !read.Fine? || lease.mail !in mails {
        Record(Relaying(id, StageFails));
        return None;
      }
      found := Some(mails[lease.mail]);
      Record(Relaying(id, Do(Fine)));
    }

    /** Write the detail and the index. */
    method Store(mail: Mail, ghost todo: seq<Lease>) returns (failed: bool)
      requires Calling(todo, SetDetail(mail))
      modifies this`redis, this`clock, this`worlds, this`steps
      ensures Calling(todo, if failed then ReadRetries else Raise) && old(worlds) <= worlds && (reliable ==> !failed)
    {
      failed := SetGlobalMail(mail, todo);
      if !failed {
        Elapse();
        failed := AddGlobalMailToIndexes(mail, todo);
      }
    }

    /** Raise the version and send the event. */
    method Announce(lease: Lease, ghost todo: seq<Lease>) returns (failed: bool)
      requires Calling(todo, Raise) && lease == todo[0]
      modifies this`redis, this`notified, this`clock, this`worlds, this`steps
      ensures Calling(todo, if failed then ReadRetries else MarkSent) && old(worlds) <= worlds && (reliable ==> !failed)
    {
      failed := AdvanceGlobalMailVersion(lease.version, todo);
      if !failed {
        Elapse();
        failed := PublishGlobalMailChanged(lease.event, todo);
      }
    }

    /** The stages of one event up to the mark, stopping at the first failure. */
    method Project(lease: Lease, ghost todo: seq<Lease>) returns (failed: bool)
      requires Calling(todo, Decode) && lease == todo[0]
      modifies this`redis, this`notified, this`clock, this`worlds, this`steps
      ensures Calling(todo, if failed then ReadRetries else MarkSent) && old(worlds) <= worlds
      ensures reliable && lease.mail in mails ==> !failed
    {
      var mail := LoadMail(lease, todo);
      failed := mail.None?;
      if !failed {
        Elapse();
        failed := Store(mail.value, todo);
        if !failed {
          Elapse();
          failed := Announce(lease, todo);
        }
      }
    }

    /** One turn of the loop. */
    method Handle(lease: Lease, ghost todo: seq<Lease>) returns (outcome: Outcome)
      requires Calling(todo, Decode) && lease == todo[0]
      modifies this`outbox, this`redis, this`notified, this`clock, this`worlds, this`steps
      ensures Valid() && old(worlds) <= worlds && OnlyRow(lease.event)
      ensures At(if outcome.Aborted? then Idle else Rest(todo))
      ensures outcome.Counted? ==> outbox[lease.event] == MarkedSent(old(outbox)[lease.event])
      ensures outcome.Aborted? ==>
                outbox[lease.event] == old(outbox)[lease.event] || outbox[lease.event] == MarkedSent(old(outbox)[lease.event])
      ensures outcome.Retried? ==>
                var row := old(outbox)[lease.event];
                || outbox[lease.event] == row
                || outbox[lease.event] == MarkedFailed(c, row, row.retryCount, RetryAt(clock, lease.retryCount))
      ensures reliable && lease.mail in mails ==> outcome.Counted?
    {
      var failed := Project(lease, todo);
      Elapse();
      if failed {
        var retryAt := NextRetryTime(lease.retryCount);
        MarkFailed(lease.event, retryAt, todo);
        return Retried;
      }
      failed := MarkPublished(lease.event, todo);
      outcome := if failed then Aborted else Counted;
    }

    /** The event whose turn it is: the flush gets one further or stops. */
    method HandleNext(events: seq<Lease>, i: nat, ghost was: map<int, Event>, ghost locked: map<int, Event>,
                      ghost sent: set<int>) returns (outcome: Outcome)
      requires i < |events| && events[i].mail in mails && DistinctEvents(events) && Fetched(was, locked, events)
      requires Valid() && At(Working(events[i..], Decode)) && Progress(locked, outbox, events, i, sent)
      modifies this`outbox, this`redis, this`notified, this`clock, this`worlds, this`steps
      ensures Valid() && old(worlds) <= worlds && (reliable ==> outcome.Counted?)
      ensures outcome.Aborted? ==> At(Idle) && Flushed(was, outbox, sent, true)
      ensures !outcome.Aborted? ==> At(if i + 1 == |events| then Idle else Working(events[i + 1..], Decode))
      ensures !outcome.Aborted? ==>
                && events[i].event !in sent
                && Progress(locked, outbox, events, i + 1, if outcome.Counted? then sent + {events[i].event} else sent)
    {
      assert !Reached(events, i, events[i].event);
      outcome := Handle(events[i], events[i..]);
      if outcome.Aborted? {
        StopIsFlushed(was, locked, old(outbox), outbox, events, i, sent);
      } else {
        ProgressMade(locked, old(outbox), outbox, events, i, sent, outcome.Counted?);
        assert events[i..][1..] == events[i + 1..];
      }
    }

    /** Every event in turn, up to a failing mark. `sent` are the events counted. */
    method HandleAll(events: seq<Lease>, ghost was: map<int, Event>)
      returns (published: nat, failed: bool, ghost sent: set<int>)
      requires Valid() && Fetched(was, outbox, events) && DistinctEvents(events)
      requires At(if events == [] then Idle else Working(events, Decode))
      requires forall i :: 0 <= i < |events| ==> events[i].mail in mails
      modifies this`outbox, this`redis, this`notified, this`clock, this`worlds, this`steps
      ensures Valid() && old(worlds) <= worlds && At(Idle) && |sent| == published <= |events|
      ensures Flushed(was, outbox, sent, failed)
      ensures reliable ==> !failed && sent == Events(events) && published == |events|
    {
      published, failed, sent := 0, false, {};
      for i := 0 to |events|
        invariant Valid() && old(worlds) <= worlds && At(if i == |events| then Idle else Working(events[i..], Decode))
        invariant |sent| == published <= i
        invariant Progress(old(outbox), outbox, events, i, sent)
        invariant reliable ==> AllSent(events, i, sent) && published == i
      {
        var outcome := HandleNext(events, i, was, old(outbox), sent);
        if outcome.Aborted? {
          failed := true;
          return;
        }
        if outcome.Counted? {
          published := published + 1;
          sent := sent + {events[i].event};
        }
      }
      ProgressIsFlushed(was, old(outbox), outbox, events, |events|, sent);
      SentAreReached(old(outbox), outbox, events, sent);
    }

    /** The first lines of Flush: fix the lease's end and fetch. */
    method Begin(limit: int, held: set<int>)
      returns (events: seq<Lease>, failed: bool, ghost fetched: int, ghost ids: seq<int>)
      requires Valid() && (id in Now().relays ==> Now().relays[id].Idle?)
      modifies this`outbox, this`clock, this`worlds, this`steps
      ensures Valid() && old(worlds) <= worlds && old(clock) <= fetched && (reliable ==> !failed)
      ensures At(if failed || events == [] then Idle else Working(events, Decode))
      ensures (failed ==> events == []) && |events| <= Cap(limit) && DistinctEvents(events)
      ensures Fetched(old(outbox), outbox, events)
      ensures forall i :: 0 <= i < |events| ==> events[i].mail in mails
      ensures !failed ==> Lowest(old(outbox), fetched, held, Cap(limit), ids) && Events(events) == Elements(ids)
      ensures !failed ==> |events| == |ids|
    {
      var until := clock + c.lockTtl;
      Record(Relaying(id, Start));
      Elapse();
      fetched := clock;
      events, failed, ids := FetchPending(limit, until, held);
      Loadable(events);
      if !failed {
        EventsOfLeases(old(outbox), ids, until);
      }
    }

    /** Fetch, then take every event through its stages. */
    method Flush(limit: int, held: set<int>)
      returns (published: nat, failed: bool, ghost sent: set<int>, ghost fetched: int, ghost ids: seq<int>)
      requires Valid() && (id in Now().relays ==> Now().relays[id].Idle?)
      modifies this`outbox, this`redis, this`notified, this`clock, this`worlds, this`steps
      ensures Valid() && old(worlds) <= worlds && At(Idle)
      ensures |sent| == published <= Cap(limit)
      ensures Flushed(old(outbox), outbox, sent, failed)
      ensures forall e :: e in sent ==> ProjectionSafety.Delivered(Now(), e)
      ensures old(clock) <= fetched
      ensures reliable ==>
                && !failed && Lowest(old(outbox), fetched, held, Cap(limit), ids)
                && sent == Elements(ids) && published == |ids|
    {
      published, sent := 0, {};
      var events;
      events, failed, fetched, ids := Begin(limit, held);
      if failed {
        return;
      }
      published, failed, sent := HandleAll(events, old(outbox));
      Conclude(sent);
    }

    /** Every fetched event has its mail. */
    ghost method Loadable(events: seq<Lease>)
      requires Valid() && At(if events == [] then Idle else Working(events, Decode))
      ensures forall i :: 0 <= i < |events| ==> events[i].mail in mails
    {
      ProjectionSafety.RunKeepsInv(c, worlds, steps, |steps|);
      assert ProjectionSafety.RelayOk(Now(), Now().relays[id]);
    }

    /** Sent rows are delivered, in this run as in all. */
    ghost method Conclude(sent: set<int>)
      requires Valid() && forall e :: e in sent ==> e in outbox && outbox[e].status.Sent?
      ensures forall e :: e in sent ==> e in Now().db.outbox && ProjectionSafety.Delivered(Now(), e)
    {
      ProjectionSafety.RunKeepsInv(c, worlds, steps, |steps|);
    }
  }
}
