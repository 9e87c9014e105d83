/** What every interleaving of worker, cancellation, crashes and recovery keeps of a job. */
module BacktestLaws {
  import opened Wrappers
  import opened BacktestJobs

  predicate NoDuplicates(items: seq<string>) {
    forall i, j :: 0 <= i < j < |items| ==> items[i] != items[j]
  }

  /** A decided job: recovery never resumes it. */
  predicate Decided(job: Job) {
    job.status in {Completed, Failed, Cancelled} || (job.status == Timeout && job.completedAt.Some?)
  }

  /** Every requested strategy has a run or is still to do. */
  predicate Covers(names: seq<string>, todo: seq<string>, strategies: seq<string>) {
    forall item :: item in strategies ==> item in names || item in todo
  }

  predicate Sound(job: Job, strategies: seq<string>) {
    && job.strategies == strategies && job.total == |strategies|
    && job.completed == |job.partial|
    && (job.status == Completed ==> job.result == Some(job.partial) && Covers(Names(job.partial), [], strategies))
    && (job.status in {Queued, Running} ==> job.completedAt.None?)
    && (job.status == Cancelled ==> job.cancelRequested)
    && (job.cancelRequested ==> !Unfinished(job.status))
  }

  /** What a decided record and the job in memory still share. */
  predicate Agree(record: Job, job: Job) {
    && job.partial == record.partial && Decided(job)
    && (job.status == record.status || (record.status == Timeout && job.status == Cancelled))
  }

  predicate PhaseSound(w: World, strategies: seq<string>) {
    match w.phase
    case NoWorker => true
    case Ended => true
    case Planned(todo) => w.job.Some? && !LooksDone(w.job.value) && Covers(Names(w.job.value.partial), todo, strategies)
    case Calculating(strategy, rest) =>
      w.job.Some? && !LooksDone(w.job.value) && Covers(Names(w.job.value.partial), [strategy] + rest, strategies)
    case Failing(_) => w.job.Some?
    case _ => w.job.Some? && !LooksDone(w.job.value)
  }

  predicate LooksDone(job: Job) {
    job.status in {Completed, Failed} || (job.status == Timeout && job.completedAt.Some?)
  }

  ghost predicate Inv(w: World, strategies: seq<string>) {
    && (w.job.Some? ==> Sound(w.job.value, strategies))
    && w.record.Some? && Sound(w.record.value, strategies)
    && PhaseSound(w, strategies) && (!w.recovered ==> w.job.None? && w.phase == NoWorker)
    && (Decided(w.record.value) && w.job.Some? ==> Agree(w.record.value, w.job.value))
    && (LooksDone(w.record.value) ==>
          w.phase in {NoWorker, Ended} || (w.phase.Failing? && w.job.Some? && w.job.value.cancelRequested))
  }

  lemma NewWorldSound(strategies: seq<string>, createdAt: int, expectedSeconds: int, process: string)
    ensures Inv(NewWorld(strategies, createdAt, expectedSeconds, process), strategies)
  {
  }

  lemma {:induction false} RemainingCovers(items: seq<string>, names: seq<string>)
    ensures Covers(names, Remaining(items, names), items)
    ensures forall item :: item in Remaining(items, names) ==> item in items && item !in names
  {
    if items != [] {
      RemainingCovers(items[1..], names);
      assert items == [items[0]] + items[1..];
    }
  }

  lemma PersistWrites(w: World, job: Job, now: int, saved: bool, strategies: seq<string>)
    requires w.record.Some?
    ensures var r := Persist(w, job, now, saved);
            && r.job.Some? && r.job.value == job.(leaseUntil := r.job.value.leaseUntil)
            && r.record == (if saved then r.job else w.record)
            && r == w.(job := r.job, record := r.record)
    ensures Sound(job, strategies) ==> Sound(Persist(w, job, now, saved).job.value, strategies)
  {
    hide Covers;
  }

  lemma PickKeepsInv(w: World, now: int, saved: bool, strategies: seq<string>)
    requires Inv(w, strategies) && w.phase == Submitted
    ensures Inv(Pick(w, now, saved), strategies)
  {
    hide Persist, Covers;
    var job := w.job.value;
    var started := if job.startedAt.Some? then job.startedAt else Some(now);
    PersistWrites(w, job.(status := Running, startedAt := started, completedAt := None), now, saved, strategies);
    RemainingCovers(strategies, Names(job.partial));
  }

  lemma AnnounceKeepsInv(w: World, now: int, saved: bool, strategies: seq<string>)
    requires Inv(w, strategies) && w.phase.Planned? && w.phase.todo != []
    ensures Inv(Announce(w, w.phase.todo, now, saved), strategies)
  {
    hide Persist, Covers;
    var todo := w.phase.todo;
    PersistWrites(w, w.job.value.(currentStrategy := Some(todo[0])), now, saved, strategies);
    assert [todo[0]] + todo[1..] == todo;
  }

  lemma PublishKeepsInv(w: World, metrics: Metrics, now: int, saved: bool, strategies: seq<string>)
    requires Inv(w, strategies) && w.phase.Calculating?
    ensures Inv(Publish(w, w.phase.strategy, w.phase.rest, metrics, now, saved), strategies)
  {
    hide Persist, Covers, ElapsedSeconds;
    var job := w.job.value;
    var partial := job.partial + [StrategyRun(w.phase.strategy, metrics)];
    var job1 := job.(partial := partial, completed := |partial|);
    PersistWrites(w, job1, now, saved, strategies);
    PersistWrites(w, job1.(status := Timeout), now, saved, strategies);
    PublishedCovers(job.partial, w.phase.strategy, metrics, w.phase.rest, strategies);
  }

  lemma PublishedCovers(partial: seq<StrategyRun>, strategy: string, metrics: Metrics, rest: seq<string>,
                        strategies: seq<string>)
    requires Covers(Names(partial), [strategy] + rest, strategies)
    ensures Covers(Names(partial + [StrategyRun(strategy, metrics)]), rest, strategies)
  {
    assert Names(partial + [StrategyRun(strategy, metrics)]) == Names(partial) + [strategy];
  }

  lemma FinishKeepsInv(w: World, now: int, saved: bool, strategies: seq<string>)
    requires Inv(w, strategies) && w.phase == Planned([])
    ensures Inv(Finish(w, now, saved), strategies)
  {
    hide Persist, Covers;
    var job := w.job.value;
    PersistWrites(w, job.(result := Some(job.partial), currentStrategy := None, completedAt := Some(now),
                          status := if job.cancelRequested then Cancelled else Completed), now, saved, strategies);
  }

  lemma ExpireKeepsInv(w: World, now: int, saved: bool, strategies: seq<string>)
    requires Inv(w, strategies) && w.phase.Expiring?
    ensures Inv(Expire(w, w.phase.reason, now, saved), strategies)
  {
    hide Persist, Covers;
    PersistWrites(w, w.job.value.(status := Timeout, error := Some(w.phase.reason), completedAt := Some(now)), now,
                  saved, strategies);
  }

  lemma FailKeepsInv(w: World, now: int, saved: bool, strategies: seq<string>)
    requires Inv(w, strategies) && w.phase.Failing?
    ensures Inv(Fail(w, w.phase.reason, now, saved), strategies)
  {
    hide Persist, Covers;
    PersistWrites(w, w.job.value.(status := Failed, error := Some(w.phase.reason), completedAt := Some(now)), now,
                  saved, strategies);
  }

  lemma CancelKeepsInv(w: World, now: int, saved: bool, strategies: seq<string>)
    requires Inv(w, strategies) && w.recovered
    ensures Inv(CancelJob(w, now, saved), strategies)
  {
    hide Persist, Covers;
    var job1 := Current(w).value.(cancelRequested := true);
    var job2 := if Unfinished(job1.status) then job1.(status := Cancelled, completedAt := Some(now)) else job1;
    PersistWrites(w, job2, now, saved, strategies);
  }

  lemma RecoverKeepsInv(w: World, now: int, listed: bool, strategies: seq<string>)
    requires Inv(w, strategies) && !w.recovered
    ensures Inv(RecoverJob(w, now, listed), strategies)
  {
    hide Covers;
  }

  lemma StepKeepsInv(w: World, e: Event, strategies: seq<string>)
    requires Inv(w, strategies)
    ensures Inv(Step(w, e), strategies)
  {
    match e
    case Crash =>
    case Cancel(now, saved) => if w.recovered { CancelKeepsInv(w, now, saved, strategies); }
    case Recover(process, now, listed) => if !w.recovered {
      RecoverKeepsInv(w.(process := process), now, listed, strategies);
    }
    case Work(now, saved, outcome) =>
      hide Pick, Announce, Publish, Finish, Expire, Fail, Covers, Sound, Agree;
      match w.phase {
        case Submitted => PickKeepsInv(w, now, saved, strategies);
        case Planned(todo) => if todo == [] { FinishKeepsInv(w, now, saved, strategies); } else {
          AnnounceKeepsInv(w, now, saved, strategies);
        }
        case Expiring(_) => ExpireKeepsInv(w, now, saved, strategies);
        case Failing(_) => FailKeepsInv(w, now, saved, strategies);
        case Calculating(_, _) => if outcome.Calculated? {
          PublishKeepsInv(w, outcome.metrics, now, saved, strategies);
        }
        case _ =>
      }
  }

  lemma {:induction false} ExecKeepsInv(w: World, events: seq<Event>, strategies: seq<string>)
    requires Inv(w, strategies)
    ensures Inv(Exec(w, events), strategies)
  {
    hide Step, Inv;
    if events != [] {
      ExecKeepsInv(w, events[..|events| - 1], strategies);
      StepKeepsInv(Exec(w, events[..|events| - 1]), events[|events| - 1], strategies);
    }
  }

  // ----- decided jobs

  lemma StepKeepsDecided(w: World, e: Event, strategies: seq<string>)
    requires Inv(w, strategies) && Decided(w.record.value)
    ensures Step(w, e).record.Some? && Agree(w.record.value, Step(w, e).record.value)
  {
    hide Covers, Names, Remaining, ElapsedSeconds;
  }

  /**
   Once the record is completed, failed, cancelled or timed out hard, no interleaving and no
   crash or recovery changes its partial results or its status, except that a cancellation
   request still turns a hard timeout into cancelled.
   */
  lemma {:induction false} DecidedStays(w: World, events: seq<Event>, strategies: seq<string>)
    requires Inv(w, strategies) && Decided(w.record.value)
    ensures Exec(w, events).record.Some? && Agree(w.record.value, Exec(w, events).record.value)
  {
    hide Step, Sound, PhaseSound;
    if events != [] {
      var front := events[..|events| - 1];
      DecidedStays(w, front, strategies);
      ExecKeepsInv(w, front, strategies);
      StepKeepsDecided(Exec(w, front), events[|events| - 1], strategies);
    }
  }

  lemma StepKeepsCancelled(w: World, e: Event, strategies: seq<string>)
    requires Inv(w, strategies) && w.job.Some? && w.job.value.status == Cancelled && e != Crash
    ensures var r := Step(w, e).job;
            r.Some? && r.value.status == Cancelled && r.value.partial == w.job.value.partial
  {
    hide Covers, Names, Remaining, ElapsedSeconds;
  }

  /** In one process a cancelled job stays cancelled and gains no result, saved or not. */
  lemma {:induction false} CancellationIsPermanent(w: World, events: seq<Event>, strategies: seq<string>)
    requires Inv(w, strategies) && w.job.Some? && w.job.value.status == Cancelled && Crash !in events
    ensures var r := Exec(w, events).job;
            r.Some? && r.value.status == Cancelled && r.value.partial == w.job.value.partial
  {
    hide Step, Inv;
    if events != [] {
      var front := events[..|events| - 1];
      CancellationIsPermanent(w, front, strategies);
      ExecKeepsInv(w, front, strategies);
      StepKeepsCancelled(Exec(w, front), events[|events| - 1], strategies);
    }
  }
}
