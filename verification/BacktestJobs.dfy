/**
 The life of one backtest job: a worker, cancellation requests, crashes of the process and
 recovery by a later one, over an object in memory and a durable record. Each step is one
 block under the job lock; a save may fail inside any block.
 */
module BacktestJobs {
  import opened Wrappers

  datatype Status = Queued | Running | Completed | Failed | Cancelled | Timeout

  datatype Metrics = Metrics(totalTrades: int, sharpeRatio: real, netPnl: real, maxDrawdown: real)

  datatype StrategyRun = StrategyRun(strategy: string, metrics: Metrics)

  /** A job in memory and, with the same fields, its durable record. Times are seconds. */
  datatype Job = Job(strategies: seq<string>, status: Status, createdAt: int, startedAt: Option<int>,
                     completedAt: Option<int>, currentStrategy: Option<string>, completed: int, total: int,
                     partial: seq<StrategyRun>, result: Option<seq<StrategyRun>>, error: Option<string>,
                     cancelRequested: bool, expectedSeconds: int, owner: Option<string>, leaseUntil: Option<int>)

  /** Where the worker thread of the job stands. */
  datatype Phase =
    | NoWorker
    | Submitted
    | Planned(todo: seq<string>)
    | Calculating(strategy: string, rest: seq<string>)
    | Expiring(reason: string)
    | Failing(reason: string)
    | Ended

  /** What `_run_calculation` comes back with; it terminates only the calculation of a cancelled job. */
  datatype Outcome = Calculated(metrics: Metrics) | Terminated | HardTimeout(reason: string) | Raised(reason: string)

  datatype World = World(job: Option<Job>, record: Option<Job>, phase: Phase, process: string, recovered: bool)

  datatype Event =
    | Work(now: int, saved: bool, outcome: Outcome)
    | Cancel(now: int, saved: bool)
    | Crash
    | Recover(process: string, now: int, listed: bool)

  const LEASE_SECONDS := 300

  predicate Unfinished(status: Status) { status in {Queued, Running, Timeout} }

  /** The job `start_backtest_job` creates. */
  function NewJob(strategies: seq<string>, createdAt: int, expectedSeconds: int): Job {
    Job(strategies, Queued, createdAt, None, None, None, 0, |strategies|, [], None, None, false, expectedSeconds, None,
        None)
  }

  function NewWorld(strategies: seq<string>, createdAt: int, expectedSeconds: int, process: string): World {
    var job := NewJob(strategies, createdAt, expectedSeconds);
    World(Some(job), Some(job), Submitted, process, true)
  }

  /** `_job_from_record`: zero counts as absent. */
  function FromRecord(record: Job): Job {
    record.(total := if record.total != 0 then record.total else |record.strategies|,
            expectedSeconds := if record.expectedSeconds != 0 then record.expectedSeconds else 45)
  }

  /** The job object a block works on: the one in memory, else the record's. */
  function Current(w: World): Option<Job> {
    if w.job.Some? then w.job else if w.record.Some? then Some(FromRecord(w.record.value)) else None
  }

  /** `_persist_job`: a recovery owner renews its lease; a missing row is not inserted. */
  function Persist(w: World, job: Job, now: int, saved: bool): World {
    var kept := if job.owner == Some(w.process) && Unfinished(job.status)
        then job.(leaseUntil := Some(now + LEASE_SECONDS)) else job;
    w.(job := Some(kept), record := if saved && w.record.Some? then Some(kept) else w.record)
  }

  function Names(runs: seq<StrategyRun>): seq<string> { seq(|runs|, i requires 0 <= i < |runs| => runs[i].strategy) }

  /** The items that are not among the names, in order. */
  function Remaining(items: seq<string>, names: seq<string>): seq<string> {
    if items == [] then []
    else (if items[0] in names then [] else [items[0]]) + Remaining(items[1..], names)
  }

  function ElapsedSeconds(job: Job, now: int): int {
    var start := if job.startedAt.Some? then job.startedAt.value else job.createdAt;
    var end := if job.completedAt.Some? then job.completedAt.value else now;
    if end > start then end - start else 0
  }

  predicate Stopped(job: Job) { job.cancelRequested || job.status == Cancelled }

  function End(w: World): World { w.(phase := Ended) }

  // ----- the locked blocks

  function Pick(w: World, now: int, saved: bool): World {
    var job := Current(w);
    if job.None? || job.value.cancelRequested then End(w)
    else
      var started := if job.value.startedAt.Some? then job.value.startedAt else Some(now);
      var w1 := Persist(w, job.value.(status := Running, startedAt := started, completedAt := None), now, saved);
      if saved then w1.(phase := Planned(Remaining(job.value.strategies, Names(job.value.partial)))) else End(w1)
  }

  function Announce(w: World, todo: seq<string>, now: int, saved: bool): World
    requires todo != []
  {
    var job := Current(w);
    if job.None? || job.value.cancelRequested then End(w)
    else
      var w1 := Persist(w, job.value.(currentStrategy := Some(todo[0])), now, saved);
      w1.(phase := if saved then Calculating(todo[0], todo[1..]) else Failing("save"))
  }

  function Publish(w: World, strategy: string, rest: seq<string>, metrics: Metrics, now: int, saved: bool): World {
    var job := Current(w);
    if job.None? then End(w)
    else if Stopped(job.value) then End(w.(job := job))
    else
      var partial := job.value.partial + [StrategyRun(strategy, metrics)];
      var job1 := job.value.(partial := partial, completed := |partial|);
      var job2 := if ElapsedSeconds(job1, now) > job1.expectedSeconds then job1.(status := Timeout) else job1;
      Persist(w, job2, now, saved).(phase := if saved then Planned(rest) else Failing("save"))
  }

  function Finish(w: World, now: int, saved: bool): World {
    var job := Current(w);
    if job.None? then End(w)
    else
      var job1 := job.value.(result := Some(job.value.partial), currentStrategy := None, completedAt := Some(now),
                             status := if job.value.cancelRequested then Cancelled else Completed);
      Persist(w, job1, now, saved).(phase := if saved then Ended else Failing("save"))
  }

  function Expire(w: World, reason: string, now: int, saved: bool): World {
    var job := Current(w);
    if job.None? || job.value.cancelRequested then End(w)
    else
      End(Persist(w, job.value.(status := Timeout, error := Some(reason), completedAt := Some(now)), now, saved))
  }

  function Fail(w: World, reason: string, now: int, saved: bool): World {
    var job := Current(w);
    if job.None? then End(w)
    else if Stopped(job.value) then End(w.(job := job))
    else
      End(Persist(w, job.value.(status := Failed, error := Some(reason), completedAt := Some(now)), now, saved))
  }

  /** `cancel_backtest_job`. */
  function CancelJob(w: World, now: int, saved: bool): World {
    var job := Current(w);
    if job.None? then w
    else
      var job1 := job.value.(cancelRequested := true);
      var job2 := if Unfinished(job1.status) then job1.(status := Cancelled, completedAt := Some(now)) else job1;
      Persist(w, job2, now, saved)
  }

  /** `_lease_available`. */
  predicate LeaseAvailable(record: Job, now: int) {
    !record.cancelRequested && (record.leaseUntil.None? || record.leaseUntil.value <= now)
  }

  predicate Claimable(record: Job, now: int) { Unfinished(record.status) && LeaseAvailable(record, now) }

  function Leased(record: Job, process: string, now: int): Job {
    record.(owner := Some(process), leaseUntil := Some(now + LEASE_SECONDS))
  }

  /** The test after a claim: a soft timeout is resumed, a hard one is not. */
  predicate Resumable(job: Job) {
    Unfinished(job.status) && job.completedAt.None? && !job.cancelRequested && job.completed < job.total
  }

  /** The job's part in `_ensure_recovered_jobs` of a new process; listed: among the rows the claim looks at. */
  function RecoverJob(w: World, now: int, listed: bool): World {
    var w1 := w.(recovered := true);
    if w.record.None? || !listed || !Claimable(w.record.value, now) then w1
    else
      var record := Leased(w.record.value, w.process, now);
      var job := FromRecord(record);
      var w2 := w1.(record := Some(record));
      if Resumable(job) then w2.(job := Some(job), phase := Submitted) else w2
  }

  /** The worker's next block. */
  function WorkBlock(w: World, now: int, saved: bool, outcome: Outcome): World {
    match w.phase
    case NoWorker => w
    case Ended => w
    case Submitted => Pick(w, now, saved)
    case Planned(todo) => if todo == [] then Finish(w, now, saved) else Announce(w, todo, now, saved)
    case Expiring(reason) => Expire(w, reason, now, saved)
    case Failing(reason) => Fail(w, reason, now, saved)
    case Calculating(strategy, rest) =>
      match outcome
      case Calculated(metrics) => Publish(w, strategy, rest, metrics, now, saved)
      case Terminated => End(w)
      case HardTimeout(reason) => w.(phase := Expiring(reason))
      case Raised(reason) => w.(phase := Failing(reason))
  }

  /** Requests reach only a process that has run its recovery; a later process starts without memory. */
  function Step(w: World, e: Event): World {
    match e
    case Work(now, saved, outcome) => WorkBlock(w, now, saved, outcome)
    case Cancel(now, saved) => if w.recovered then CancelJob(w, now, saved) else w
    case Crash => w.(job := None, phase := NoWorker, recovered := false)
    case Recover(process, now, listed) => if w.recovered then w else RecoverJob(w.(process := process), now, listed)
  }

  function Exec(w: World, events: seq<Event>): World {
    if events == [] then w
    else Step(Exec(w, events[..|events| - 1]), events[|events| - 1])
  }

  lemma {:induction false} ExecConcat(w: World, xs: seq<Event>, ys: seq<Event>)
    ensures Exec(w, xs + ys) == Exec(Exec(w, xs), ys)
    decreases |ys|
  {
    hide Step;
    if ys == [] {
      assert xs + ys == xs;
    } else {
      var n := |ys| - 1;
      ExecConcat(w, xs, ys[..n]);
      assert (xs + ys)[..|xs + ys| - 1] == xs + ys[..n];
    }
  }
}
