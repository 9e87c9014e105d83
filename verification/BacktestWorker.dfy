/** The backtest service as it is coded: job objects and durable records updated in place. */
module BacktestWorker {
  import opened Wrappers
  import opened BacktestJobs
  import opened BacktestLaws
  import opened BacktestClaims

  datatype Request = Request(now: int, saved: bool)

  /** What happens around one block of the worker: cancellation requests before it, then its own luck. */
  datatype Turn = Turn(requests: seq<Request>, now: int, saved: bool, outcome: Outcome)

  function RequestEvents(requests: seq<Request>): seq<Event> {
    seq(|requests|, i requires 0 <= i < |requests| => Cancel(requests[i].now, requests[i].saved))
  }

  function TurnEvents(t: Turn): seq<Event> { RequestEvents(t.requests) + [Work(t.now, t.saved, t.outcome)] }

  function Turns(env: nat -> Turn, n: nat): seq<Event> {
    if n == 0 then [] else Turns(env, n - 1) + TurnEvents(env(n - 1))
  }

  lemma {:induction false} TurnIsRequestsThenWork(w: World, env: nat -> Turn, n: nat)
    ensures Exec(w, Turns(env, n + 1))
            == Step(Exec(Exec(w, Turns(env, n)), RequestEvents(env(n).requests)),
                    Work(env(n).now, env(n).saved, env(n).outcome))
  {
    hide Step;
    var requests, work := RequestEvents(env(n).requests), Work(env(n).now, env(n).saved, env(n).outcome);
    ExecConcat(w, Turns(env, n), requests + [work]);
    assert (requests + [work])[..|requests|] == requests;
  }

  lemma ClaimedIsClaimable(records: Records, order: seq<string>, now: int, limit: nat)
    ensures forall id :: id in Claims(records, order, now, limit)
                         <==> id in records && id in Selected(records, order, limit) && Claimable(records[id], now)
  {
  }

  lemma {:induction false} SelectedHasNoDuplicates(records: Records, order: seq<string>, limit: nat)
    requires NoDuplicates(order)
    ensures NoDuplicates(Selected(records, order, limit))
  {
    if order != [] && limit > 0 {
      assert order[0] !in order[1..];
      var kept := order[0] in records && Unfinished(records[order[0]].status);
      SelectedHasNoDuplicates(records, order[1..], if kept then limit - 1 else limit);
    }
  }

  class BacktestService {
    var jobs: map<string, Job>
    var records: map<string, Job>
    var process: string
    var recovered: bool

    function Record(id: string): Option<Job>
      reads this
    {
      if id in records then Some(records[id]) else None
    }

    /** The state of one job, with the place its worker has reached. */
    function View(id: string, phase: Phase): World
      reads this
    {
      World(if id in jobs then Some(jobs[id]) else None, Record(id), phase, process, recovered)
    }

    /** `start_backtest_job`: the object, its record and a submitted worker. */
    method StartBacktestJob(id: string, strategies: seq<string>, now: int, expectedSeconds: int)
      requires recovered && id !in jobs && id !in records
      modifies this`jobs, this`records
      ensures View(id, Submitted) == NewWorld(strategies, now, expectedSeconds, process)
      ensures forall other, phase :: other != id ==> View(other, phase) == old(View(other, phase))
    {
      var job := NewJob(strategies, now, expectedSeconds);
      jobs := jobs[id := job];
      records := records[id := job];
    }

    /** `claim_recoverable_backtest_jobs`; order lists the table by creation time. */
    method ClaimRecoverable(order: seq<string>, now: int, limit: int) returns (claimed: seq<string>)
      requires NoDuplicates(order)
      modifies this`records
      ensures claimed == Claims(old(records), order, now, Bounded(limit))
      ensures Stamped(old(records), records, claimed, process, now)
    {
      ghost var before := records;
      var rows := Selected(records, order, Bounded(limit));
      SelectedHasNoDuplicates(records, order, Bounded(limit));
      assert Stamped(before, records, [], process, now);
      assert Available(before, [], now) == [];
      hide Selected, Available, LeaseAvailable, Leased, Stamped;
      claimed := [];
      for i := 0 to |rows|
        invariant claimed == Available(before, rows[..i], now)
        invariant Stamped(before, records, claimed, process, now)
        invariant records.Keys == before.Keys && forall k :: i <= k < |rows| ==> records[rows[k]] == before[rows[k]]
      {
        AvailableStep(before, rows, i, now);
        assert rows[i] !in rows[..i];
        if !LeaseAvailable(records[rows[i]], now) {
          continue;
        }
        StampOne(before, records, claimed, process, now, rows[i]);
        records := records[rows[i] := Leased(records[rows[i]], process, now)];
        claimed := claimed + [rows[i]];
      }
      assert rows[..|rows|] == rows;
    }

    /** The loop of `_ensure_recovered_jobs`: claimed jobs that can go on are loaded and get a worker. */
    method SubmitResumable(claimed: seq<string>) returns (submitted: seq<string>)
      requires jobs == map[] && forall id :: id in claimed ==> id in records
      modifies this`jobs
      ensures forall id :: id in submitted <==> id in claimed && Resumable(FromRecord(records[id]))
      ensures jobs.Keys == set id | id in submitted
      ensures forall id :: id in submitted ==> jobs[id] == FromRecord(records[id])
    {
      hide Resumable, FromRecord;
      submitted := [];
      for i := 0 to |claimed|
        invariant forall id :: id in submitted <==> id in claimed[..i] && Resumable(FromRecord(records[id]))
        invariant forall id :: id in jobs <==> id in submitted
        invariant forall id :: id in submitted ==> jobs[id] == FromRecord(records[id])
      {
        assert claimed[..i + 1] == claimed[..i] + [claimed[i]];
        var job := FromRecord(records[claimed[i]]);
        if Resumable(job) {
          jobs := jobs[claimed[i] := job];
          submitted := submitted + [claimed[i]];
        }
      }
      assert claimed[..|claimed|] == claimed;
    }

    /** `_ensure_recovered_jobs`, once per process. */
    method EnsureRecoveredJobs(order: seq<string>, now: int) returns (submitted: seq<string>)
      requires NoDuplicates(order) && (!recovered ==> jobs == map[])
      modifies this
      ensures recovered && process == old(process)
      ensures old(recovered) ==> submitted == [] && jobs == old(jobs) && records == old(records)
      ensures !old(recovered) ==>
        forall id :: RecoverJob(old(View(id, NoWorker)), now, id in Selected(old(records), order, 100))
                     == View(id, if id in submitted then Submitted else NoWorker)
    {
      submitted := [];
      if !recovered {
        ghost var before := records;
        var claimed := ClaimRecoverable(order, now, 100);
        ClaimedIsClaimable(before, order, now, 100);
        submitted := SubmitResumable(claimed);
        recovered := true;
        hide Claims, LeaseAvailable, Resumable, FromRecord, Leased, NoDuplicates;
      }
    }

    /** `_persist_job`, with the object put into `_JOBS` by its callers. */
    method PersistJob(id: string, job: Job, now: int, saved: bool)
      modifies this`jobs, this`records
      ensures forall phase :: View(id, phase) == Persist(old(View(id, phase)), job, now, saved)
      ensures forall other, phase :: other != id ==> View(other, phase) == old(View(other, phase))
    {
      var kept := job;
      if job.owner == Some(process) && Unfinished(job.status) {
        kept := job.(leaseUntil := Some(now + LEASE_SECONDS));
      }
      jobs := jobs[id := kept];
      if saved && id in records {
        records := records[id := kept];
      }
    }

    method PickJob(id: string, now: int, saved: bool) returns (next: Phase)
      modifies this`jobs, this`records
      ensures View(id, next) == Pick(old(View(id, Submitted)), now, saved)
      ensures forall other, phase :: other != id ==> View(other, phase) == old(View(other, phase))
      ensures next.Ended? || next.Planned?
    {
      var job := Current(View(id, Submitted));
      if job.None? || job.value.cancelRequested {
        return Ended;
      }
      var started := if job.value.startedAt.Some? then job.value.startedAt else Some(now);
      PersistJob(id, job.value.(status := Running, startedAt := started, completedAt := None), now, saved);
      next := if saved then Planned(Remaining(job.value.strategies, Names(job.value.partial))) else Ended;
    }

    method AnnounceStrategy(id: string, todo: seq<string>, now: int, saved: bool) returns (next: Phase)
      requires todo != []
      modifies this`jobs, this`records
      ensures View(id, next) == Announce(old(View(id, Planned(todo))), todo, now, saved)
      ensures forall other, phase :: other != id ==> View(other, phase) == old(View(other, phase))
      ensures next in {Ended, Failing("save"), Calculating(todo[0], todo[1..])}
    {
      var job := Current(View(id, Planned(todo)));
      if job.None? || job.value.cancelRequested {
        return Ended;
      }
      PersistJob(id, job.value.(currentStrategy := Some(todo[0])), now, saved);
      next := if saved then Calculating(todo[0], todo[1..]) else Failing("save");
    }

    method PublishRun(id: string, strategy: string, rest: seq<string>, metrics: Metrics, now: int, saved: bool)
      returns (next: Phase)
      modifies this`jobs, this`records
      ensures View(id, next) == Publish(old(View(id, Calculating(strategy, rest))), strategy, rest, metrics, now, saved)
      ensures forall other, phase :: other != id ==> View(other, phase) == old(View(other, phase))
      ensures next in {Ended, Failing("save"), Planned(rest)}
    {
      var current := Current(View(id, Calculating(strategy, rest)));
      if current.None? {
        return Ended;
      }
      var job := current.value;
      if Stopped(job) {
        jobs := jobs[id := job];
        return Ended;
      }
      job := job.(partial := job.partial + [StrategyRun(strategy, metrics)]);
      job := job.(completed := |job.partial|);
      if ElapsedSeconds(job, now) > job.expectedSeconds {
        job := job.(status := Timeout);
      }
      PersistJob(id, job, now, saved);
      next := if saved then Planned(rest) else Failing("save");
    }

    method FinishJob(id: string, now: int, saved: bool) returns (next: Phase)
      modifies this`jobs, this`records
      ensures View(id, next) == Finish(old(View(id, Planned([]))), now, saved)
      ensures forall other, phase :: other != id ==> View(other, phase) == old(View(other, phase))
      ensures next in {Ended, Failing("save")}
    {
      var job := Current(View(id, Planned([])));
      if job.None? {
        return Ended;
      }
      var finished := job.value.(result := Some(job.value.partial), currentStrategy := None, completedAt := Some(now),
                                 status := if job.value.cancelRequested then Cancelled else Completed);
      PersistJob(id, finished, now, saved);
      next := if saved then Ended else Failing("save");
    }

    method ExpireJob(id: string, reason: string, now: int, saved: bool)
      modifies this`jobs, this`records
      ensures View(id, Ended) == Expire(old(View(id, Expiring(reason))), reason, now, saved)
      ensures forall other, phase :: other != id ==> View(other, phase) == old(View(other, phase))
    {
      var job := Current(View(id, Expiring(reason)));
      if job.Some? && !job.value.cancelRequested {
        PersistJob(id, job.value.(status := Timeout, error := Some(reason), completedAt := Some(now)), now, saved);
      }
    }

    method FailJob(id: string, reason: string, now: int, saved: bool)
      modifies this`jobs, this`records
      ensures View(id, Ended) == Fail(old(View(id, Failing(reason))), reason, now, saved)
      ensures forall other, phase :: other != id ==> View(other, phase) == old(View(other, phase))
    {
      var job := Current(View(id, Failing(reason)));
      if job.Some? {
        if Stopped(job.value) {
          jobs := jobs[id := job.value];
        } else {
          PersistJob(id, job.value.(status := Failed, error := Some(reason), completedAt := Some(now)), now, saved);
        }
      }
    }

    /** `cancel_backtest_job`, which runs after recovery. */
    method CancelBacktestJob(id: string, now: int, saved: bool) returns (found: bool)
      requires recovered
      modifies this`jobs, this`records
      ensures found == old(id in jobs || id in records)
      ensures forall phase :: View(id, phase) == CancelJob(old(View(id, phase)), now, saved)
      ensures forall other, phase :: other != id ==> View(other, phase) == old(View(other, phase))
    {
      var job := Current(View(id, NoWorker));
      if job.None? {
        return false;
      }
      var cancelled := job.value.(cancelRequested := true);
      if Unfinished(cancelled.status) {
        cancelled := cancelled.(status := Cancelled, completedAt := Some(now));
      }
      PersistJob(id, cancelled, now, saved);
      found := true;
    }

    /** The cancellations that other threads get in before the worker's next block. */
    method ServeRequests(id: string, requests: seq<Request>, ghost at: Phase)
      requires recovered
      modifies this`jobs, this`records
      ensures View(id, at) == Exec(old(View(id, at)), RequestEvents(requests))
      ensures forall other, phase :: other != id ==> View(other, phase) == old(View(other, phase))
    {
      hide CancelJob;
      ghost var start := View(id, at);
      for i := 0 to |requests|
        invariant View(id, at) == Exec(start, RequestEvents(requests)[..i])
        invariant forall other, phase :: other != id ==> View(other, phase) == old(View(other, phase))
      {
        var found := CancelBacktestJob(id, requests[i].now, requests[i].saved);
        assert RequestEvents(requests)[..i + 1][..i] == RequestEvents(requests)[..i];
      }
      assert RequestEvents(requests)[..|requests|] == RequestEvents(requests);
    }

    /** One strategy: announced, calculated without the lock, and published. */
    method RunStrategy(id: string, todo: seq<string>, env: nat -> Turn, k: nat, ghost start: World)
      returns (next: Phase, turns: nat)
      requires recovered && todo != []
      modifies this`jobs, this`records
      ensures old(View(id, Planned(todo))) == Exec(start, Turns(env, k)) ==>
              View(id, next) == Exec(start, Turns(env, turns))
      ensures next == Planned(todo[1..]) || next.Ended? || next.Expiring? || next.Failing?
      ensures forall other, phase :: other != id ==> View(other, phase) == old(View(other, phase))
    {
      hide Pick, Announce, Publish, Finish, Expire, Fail, CancelJob, Turns, Exec;
      ServeRequests(id, env(k).requests, Planned(todo));
      next := AnnounceStrategy(id, todo, env(k).now, env(k).saved);
      TurnIsRequestsThenWork(start, env, k);
      turns := k + 1;
      if next.Calculating? {
        next := DeliverResult(id, next, env, turns, start);
        turns := turns + 1;
      }
    }

    method DeliverResult(id: string, calculating: Phase, env: nat -> Turn, k: nat,
                         ghost start: World) returns (next: Phase)
      requires recovered && calculating.Calculating?
      modifies this`jobs, this`records
      ensures old(View(id, calculating)) == Exec(start, Turns(env, k)) ==>
              View(id, next) == Exec(start, Turns(env, k + 1))
      ensures next == Planned(calculating.rest) || next.Ended? || next.Expiring? || next.Failing?
      ensures forall other, phase :: other != id ==> View(other, phase) == old(View(other, phase))
    {
      hide Pick, Announce, Publish, Finish, Expire, Fail, CancelJob, Turns, Exec;
      ServeRequests(id, env(k).requests, calculating);
      match env(k).outcome {
        case Calculated(metrics) =>
          next := PublishRun(id, calculating.strategy, calculating.rest, metrics, env(k).now, env(k).saved);
        case Terminated => next := Ended;
        case HardTimeout(reason) => next := Expiring(reason);
        case Raised(reason) => next := Failing(reason);
      }
      TurnIsRequestsThenWork(start, env, k);
    }

    /** The exception handlers. */
    method HandleExit(id: string, exit: Phase, env: nat -> Turn, k: nat, ghost start: World) returns (turns: nat)
      requires recovered && (exit.Ended? || exit.Expiring? || exit.Failing?)
      modifies this`jobs, this`records
      ensures old(View(id, exit)) == Exec(start, Turns(env, k)) ==> View(id, Ended) == Exec(start, Turns(env, turns))
      ensures forall other, phase :: other != id ==> View(other, phase) == old(View(other, phase))
    {
      hide Pick, Announce, Publish, Finish, Expire, Fail, CancelJob, Turns, Exec;
      turns := k;
      if !exit.Ended? {
        ServeRequests(id, env(k).requests, exit);
        if exit.Expiring? {
          ExpireJob(id, exit.reason, env(k).now, env(k).saved);
        } else {
          FailJob(id, exit.reason, env(k).now, env(k).saved);
        }
        TurnIsRequestsThenWork(start, env, k);
        turns := k + 1;
      }
    }

    /**
     `_run_backtest_job`: whatever the environment does, the worker ends, and the job went
     through a run of the life cycle.
     */
    method RunBacktestJob(id: string, env: nat -> Turn) returns (turns: nat)
      requires recovered
      modifies this`jobs, this`records
      ensures View(id, Ended) == Exec(old(View(id, Submitted)), Turns(env, turns))
      ensures forall other, phase :: other != id ==> View(other, phase) == old(View(other, phase))
    {
      hide Pick, Announce, Publish, Finish, Expire, Fail, CancelJob, Exec;
      ghost var start := View(id, Submitted);
      NothingExecuted(start, env);
      ServeRequests(id, env(0).requests, Submitted);
      var phase := PickJob(id, env(0).now, env(0).saved);
      TurnIsRequestsThenWork(start, env, 0);
      turns := 1;
      while phase.Planned? && phase.todo != []
        invariant View(id, phase) == Exec(start, Turns(env, turns))
        invariant phase.Planned? || phase.Ended? || phase.Expiring? || phase.Failing?
        invariant forall other, phase :: other != id ==> View(other, phase) == old(View(other, phase))
        decreases if phase.Planned? then |phase.todo| + 1 else 0
      {
        phase, turns := RunStrategy(id, phase.todo, env, turns, start);
      }
      if phase.Planned? {
        ServeRequests(id, env(turns).requests, phase);
        phase := FinishJob(id, env(turns).now, env(turns).saved);
        TurnIsRequestsThenWork(start, env, turns);
        turns := turns + 1;
      }
      turns := HandleExit(id, phase, env, turns, start);
    }
  }

  lemma NothingExecuted(w: World, env: nat -> Turn)
    ensures Exec(w, Turns(env, 0)) == w
  {
  }
}
