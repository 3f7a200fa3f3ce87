/** `IdempotentCommandDispatcher.Dispatch` as code over its `records` map.

The store is another process and the registered handler is unknown code: what they answer is a parameter. Each
call also yields the actions of the worker goroutine that make it up, which ties the code to the queue's machine. */
module CommandDispatching {
  import opened Options
  import opened RequestQueue
  import opened Subsequences

  /** The actions take a job with this key, and the records, to another job and other records. */
  ghost predicate Performs(c: Config, key: string, job: Job, records: map<string, Record>, acts: seq<WorkerAct>,
                           job': Job, records': map<string, Record>)
    decreases acts
  {
    if acts == [] then job' == job && records' == records
    else
      && WorkerReady(job, acts[0]) && !acts[0].FreeSlot?
      && Performs(c, key, WorkerJob(c, job, acts[0], Get(records, key)), RecordsAfter(job, acts[0], key, records),
                  acts[1..], job', records')
  }

  /** What a call performs, the queue's machine can do, and nothing else of the machine changes. */
  lemma {:induction false} PerformedIsReachable(c: Config, states: seq<State>, steps: seq<Step>, j: JobId,
                                                acts: seq<WorkerAct>, job': Job, records': map<string, Record>)
      returns (states': seq<State>, steps': seq<Step>)
    requires IsRun(c, states, steps) && j in Last(states).jobs
    requires var job := Last(states).jobs[j];
             Performs(c, job.req.Key(), job, Last(states).records, acts, job', records')
    ensures IsRun(c, states', steps') && states <= states'
    ensures Last(states') == Last(states).(jobs := Last(states).jobs[j := job'], records := records')
    decreases acts
  {
    var s := Last(states);
    states', steps' := states, steps;
    if acts == [] {
      assert s.jobs[j := job'] == s.jobs;
    } else {
      var job, key := s.jobs[j], s.jobs[j].req.Key();
      var job1, records1 := WorkerJob(c, job, acts[0], Get(s.records, key)), RecordsAfter(job, acts[0], key, s.records);
      assert Performs(c, key, job1, records1, acts[1..], job', records') && job1.req == job.req;
      ActIsStep(c, s, j, acts[0]);
      states', steps' := Extend(c, states, steps, Worker(j, acts[0]));
      assert Last(states') == s.(jobs := s.jobs[j := job1], records := records1);
      states', steps' := PerformedIsReachable(c, states', steps', j, acts[1..], job', records');
      assert s.jobs[j := job1][j := job'] == s.jobs[j := job'];
    }
  }

  /** One more action at the end. */
  lemma {:induction false} PerformOneMore(c: Config, key: string, job: Job, records: map<string, Record>,
                                          acts: seq<WorkerAct>, mid: Job, recordsMid: map<string, Record>, act: WorkerAct)
    requires Performs(c, key, job, records, acts, mid, recordsMid) && WorkerReady(mid, act) && !act.FreeSlot?
    ensures Performs(c, key, job, records, acts + [act], WorkerJob(c, mid, act, Get(recordsMid, key)),
                     RecordsAfter(mid, act, key, recordsMid))
    decreases acts
  {
    if acts == [] {
      assert [act][1..] == [];
    } else {
      PerformOneMore(c, key, WorkerJob(c, job, acts[0], Get(records, key)), RecordsAfter(job, acts[0], key, records),
                     acts[1..], mid, recordsMid, act);
      assert (acts + [act])[1..] == acts[1..] + [act];
    }
  }

  /** What hashing, the store, the registered handler and the save of one call come back with. */
  datatype Environment = Environment(hashing: Option<Error>, stored: StoreAnswer, handled: Result, saving: Option<Error>)

  class IdempotentCommandDispatcher {
    const c: Config
    var records: map<string, Record>
    ghost var executed: nat              // calls of the registered handler
    // the call in progress: its key, where it began, what it has done and where it is
    ghost var calling: string
    ghost var start: Job
    ghost var before: map<string, Record>
    ghost var acts: seq<WorkerAct>
    ghost var job: Job

    ghost predicate Following()
      reads this
    {
      Performs(c, calling, start, before, acts, job, records)
    }

    constructor (c: Config)
      ensures this.c == c && records == map[] && executed == 0
    {
      this.c, records, executed := c, map[], 0;
    }

    /** Record an action; `records` must already show its effect. */
    ghost method Act(act: WorkerAct, was: map<string, Record>)
      requires Performs(c, calling, start, before, acts, job, was) && WorkerReady(job, act) && !act.FreeSlot?
      requires records == RecordsAfter(job, act, calling, was)
      modifies this`acts, this`job
      ensures Following() && acts == old(acts) + [act] && job == WorkerJob(c, old(job), act, Get(was, calling))
    {
      PerformOneMore(c, calling, start, before, acts, job, was, act);
      acts, job := acts + [act], WorkerJob(c, job, act, Get(was, calling));
    }

    /** The registered handler, counted. */
    method Next(req: Request, env: Environment) returns (res: Result)
      requires Following() && job.worker == Executing && job.req == req
      modifies this`executed, this`acts, this`job
      ensures Following() && executed == old(executed) + 1 && job.req == req && res == env.handled
      ensures job.worker == if res.Ok? && req.Keyed() then Remembering(res.resp, true) else Delivering(res)
    {
      res := env.handled;
      executed := executed + 1;
      Act(Execute(res), records);
    }

    method Remember(key: string, payload: string, resp: Response)
      requires Following() && job.worker.Remembering? && job.worker.resp == resp
      requires key == calling && payload == job.req.payload
      modifies this`records, this`acts, this`job
      ensures Following() && records == old(records)[key := Record(payload, resp)] && job.req == old(job).req
      ensures job.worker == if old(job).worker.executed && c.store then Storing(resp) else Delivering(Ok(resp))
    {
      ghost var was := records;
      records := records[key := Record(payload, resp)];
      Act(WorkerAct.Remember, was);
    }

    /** Ask the store; a record it has is remembered here too. */
    method AskStore(req: Request, key: string, env: Environment) returns (answered: Option<Result>)
      requires Following() && job.worker == Fetching && job.req == req && key == calling
      modifies this`records, this`acts, this`job
      ensures Following() && job.req == req
      ensures job.worker == if answered.Some? then Delivering(answered.value) else Executing
      ensures match env.stored
              case StoreError(err) => answered == Some(Fail(err)) && records == old(records)
              case Miss => answered == None && records == old(records)
              case Found(record) =>
                if record.payload == req.payload
                then answered == Some(Ok(record.resp)) && records == old(records)[key := record]
                else answered == Some(Ok(Conflict(req))) && records == old(records)
    {
      var answer := env.stored;
      Act(Fetch(answer), records);
      match answer {
        case StoreError(err) => answered := Some(Fail(err));
        case Miss => answered := None;
        case Found(record) =>
          var resp := UseRecord(req, key, record);
          answered := Some(Ok(resp));
      }
    }

    /** A record the store has: a conflict, or remembered here too. */
    method UseRecord(req: Request, key: string, record: Record) returns (resp: Response)
      requires Following() && job.req == req && key == calling
      requires job.worker == if record.payload == req.payload then Remembering(record.resp, false)
                             else Delivering(Ok(Conflict(req)))
      modifies this`records, this`acts, this`job
      ensures Following() && job.req == req && job.worker == Delivering(Ok(resp)) && resp == Replay(req, record)
      ensures records == if record.payload == req.payload then old(records)[key := record] else old(records)
    {
      resp := record.resp;
      if record.payload != req.payload {
        resp := Conflict(req);
      } else {
        Remember(key, req.payload, record.resp);
      }
    }

    /** Run the handler; what succeeded is remembered, then saved. */
    method Run(req: Request, key: string, env: Environment) returns (res: Result)
      requires Following() && job.worker == Executing && job.req == req && req.Keyed() && key == calling
      modifies this`records, this`executed, this`acts, this`job
      ensures Following() && job.worker == Delivering(res) && executed == old(executed) + 1
      ensures env.handled.Ok? ==> records == old(records)[key := Record(req.payload, env.handled.resp)]
      ensures env.handled.Fail? ==> records == old(records)
      ensures res == if env.handled.Ok? && c.store && env.saving.Some? then Fail(env.saving.value) else env.handled
    {
      res := Next(req, env);
      if res.Fail? {
        return;
      }
      Remember(key, req.payload, res.resp);
      if c.store {
        var saving := env.saving;
        Act(Store(saving), records);
        if saving.Some? {
          return Fail(saving.value);
        }
      }
    }

    /** Answer from the records, else from the store, else from the handler. */
    method Answer(req: Request, key: string, env: Environment) returns (res: Result)
      requires Following() && job.worker == Looking && job.req == req && req.Keyed() && key == calling
      modifies this`records, this`executed, this`acts, this`job
      ensures Following() && job.worker == Delivering(res) && executed <= old(executed) + 1
      ensures env.hashing.None? && key in old(records) ==> res == Ok(Replay(req, old(records)[key]))
      ensures key in old(records) ==> records == old(records) && executed == old(executed)
      ensures executed > old(executed) <==>
                env.hashing.None? && key !in old(records) && (c.store ==> env.stored.Miss?)
      ensures executed > old(executed) && env.handled.Ok? ==>
                records == old(records)[key := Record(req.payload, env.handled.resp)]
    {
      var hashing := env.hashing;
      if hashing.Some? {
        Act(HashFails(hashing.value), records);
        return Fail(hashing.value);
      }
      Act(Look, records);
      if key in records {
        var record := records[key];
        if record.payload != req.payload {
          return Ok(Conflict(req));
        }
        return Ok(record.resp);
      }
      if c.store {
        var answered := AskStore(req, key, env);
        if answered.Some? {
          return answered.value;
        }
      }
      res := Run(req, key, env);
    }

    /** Requests without a uid or a sequence go straight to the handler; the others run it only for a key neither the
    records nor the store know. */
    method Dispatch(req: Request, env: Environment, ghost from: Job) returns (res: Result)
      requires from.worker == Looking && from.req == req
      modifies this
      ensures Performs(c, req.Key(), from, old(records), acts, job, records) && job.worker == Delivering(res)
      ensures executed <= old(executed) + 1
      ensures req.Keyed() && req.Key() in old(records) && env.hashing.None? ==>
                res == Ok(Replay(req, old(records)[req.Key()]))
      ensures req.Keyed() && req.Key() in old(records) ==> records == old(records)
      ensures executed > old(executed) <==>
                !req.Keyed() || (env.hashing.None? && req.Key() !in old(records) && (c.store ==> env.stored.Miss?))
      ensures req.Keyed() && executed > old(executed) && env.handled.Ok? ==>
                records == old(records)[req.Key() := Record(req.payload, env.handled.resp)]
      ensures !req.Keyed() ==> records == old(records) && res == env.handled
    {
      var key := req.Key();
      calling, start, before, acts, job := key, from, records, [], from;
      if req.uid == 0 || req.sequence == 0 {
        Act(Look, records);
        res := Next(req, env);
      } else {
        res := Answer(req, key, env);
      }
    }
  }
}
