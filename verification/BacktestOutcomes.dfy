/** Where the results of a job come from, and what each event leaves of it. */
module BacktestOutcomes {
  import opened Wrappers
  import opened BacktestJobs
  import opened BacktestLaws

  // ----- results

  /** Event i delivers this run as the k-th result: the worker was calculating that strategy with k results so far. */
  ghost predicate CalculatedAt(w: World, events: seq<Event>, i: nat, k: nat, run: StrategyRun) {
    && i < |events| && events[i].Work? && events[i].outcome == Calculated(run.metrics)
    && var at := Exec(w, events[..i]);
       && at.phase.Calculating? && at.phase.strategy == run.strategy
       && at.job.Some? && |at.job.value.partial| == k
  }

  ghost predicate Delivered(w: World, events: seq<Event>, k: nat, run: StrategyRun) {
    exists i: nat :: CalculatedAt(w, events, i, k, run)
  }

  ghost predicate HasOrigin(w: World, events: seq<Event>, runs: seq<StrategyRun>) {
    forall k: nat :: k < |runs| ==> Delivered(w, events, k, runs[k])
  }

  /** These are the partial results or the final ones, in memory or in the record. */
  predicate Holds(w: World, runs: seq<StrategyRun>) {
    || (w.job.Some? && (w.job.value.partial == runs || w.job.value.result == Some(runs)))
    || (w.record.Some? && (w.record.value.partial == runs || w.record.value.result == Some(runs)))
  }

  predicate Delivers(w: World, e: Event, runs: seq<StrategyRun>) {
    && e.Work? && e.outcome.Calculated? && w.phase.Calculating? && w.job.Some?
    && runs == w.job.value.partial + [StrategyRun(w.phase.strategy, e.outcome.metrics)]
  }

  /** The job has these results, or they were there before. */
  predicate HasOrHeld(w: World, job: Job, runs: seq<StrategyRun>) {
    job.partial == runs || job.result == Some(runs) || Holds(w, runs)
  }

  lemma PersistHolds(w: World, job: Job, now: int, saved: bool, runs: seq<StrategyRun>)
    requires w.record.Some?
    ensures forall phase :: Holds(Persist(w, job, now, saved).(phase := phase), runs) ==> HasOrHeld(w, job, runs)
  {
  }

  lemma WorkHolds(w: World, now: int, saved: bool, outcome: Outcome, runs: seq<StrategyRun>)
    requires w.job.Some? && w.record.Some? && Holds(WorkBlock(w, now, saved, outcome), runs)
    ensures Holds(w, runs) || Delivers(w, Work(now, saved, outcome), runs)
  {
    hide Persist, Names, Remaining, ElapsedSeconds, Holds;
    var job := w.job.value;
    HoldsOfPhase(w, runs);
    match w.phase
    case Submitted =>
      var started := if job.startedAt.Some? then job.startedAt else Some(now);
      PersistHolds(w, job.(status := Running, startedAt := started, completedAt := None), now, saved, runs);
    case Planned(todo) =>
      if todo == [] {
        PersistHolds(w, job.(result := Some(job.partial), currentStrategy := None, completedAt := Some(now),
                             status := if job.cancelRequested then Cancelled else Completed), now, saved, runs);
      } else {
        PersistHolds(w, job.(currentStrategy := Some(todo[0])), now, saved, runs);
      }
    case Calculating(strategy, rest) =>
      if outcome.Calculated? {
        var partial := job.partial + [StrategyRun(strategy, outcome.metrics)];
        var job1 := job.(partial := partial, completed := |partial|);
        PersistHolds(w, job1, now, saved, runs);
        PersistHolds(w, job1.(status := Timeout), now, saved, runs);
      }
    case Expiring(reason) =>
      PersistHolds(w, job.(status := Timeout, error := Some(reason), completedAt := Some(now)), now, saved, runs);
    case Failing(reason) =>
      PersistHolds(w, job.(status := Failed, error := Some(reason), completedAt := Some(now)), now, saved, runs);
    case _ =>
  }

  lemma HoldsOfPhase(w: World, runs: seq<StrategyRun>)
    requires w.job.Some?
    ensures forall phase :: Holds(w.(phase := phase), runs) == Holds(w, runs)
    ensures w.job.value.partial == runs || w.job.value.result == Some(runs) ==> Holds(w, runs)
  {
  }

  lemma StepHolds(w: World, e: Event, strategies: seq<string>, runs: seq<StrategyRun>)
    requires Inv(w, strategies) && Holds(Step(w, e), runs)
    ensures Holds(w, runs) || Delivers(w, e, runs)
  {
    hide Sound, Agree, Covers, LooksDone, LeaseAvailable, WorkBlock;
    if e.Work? && w.job.Some? {
      WorkHolds(w, e.now, e.saved, e.outcome, runs);
    } else if e.Work? {
      IdleStays(w, e.now, e.saved, e.outcome);
    }
  }

  lemma IdleStays(w: World, now: int, saved: bool, outcome: Outcome)
    requires w.phase == NoWorker || w.phase == Ended
    ensures WorkBlock(w, now, saved, outcome) == w
  {
  }

  lemma {:induction false} HeldHasOrigin(w: World, events: seq<Event>, strategies: seq<string>, n: nat,
                                         runs: seq<StrategyRun>)
    requires Inv(w, strategies) && n <= |events| && Holds(Exec(w, events[..n]), runs)
    requires forall given :: Holds(w, given) ==> given == []
    ensures HasOrigin(w, events, runs)
    decreases n
  {
    hide Step, Inv;
    if n == 0 {
      assert events[..0] == [];
      assert Holds(w, runs);
    } else {
      assert events[..n][..n - 1] == events[..n - 1];
      var before, e := Exec(w, events[..n - 1]), events[n - 1];
      ExecKeepsInv(w, events[..n - 1], strategies);
      StepHolds(before, e, strategies, runs);
      if Holds(before, runs) {
        HeldHasOrigin(w, events, strategies, n - 1, runs);
      } else {
        var front := before.job.value.partial;
        HeldHasOrigin(w, events, strategies, n - 1, front);
        forall k: nat | k < |runs| ensures Delivered(w, events, k, runs[k]) {
          if k == |front| {
            var i: nat := n - 1;
            assert CalculatedAt(w, events, i, k, runs[k]);
          } else {
            assert runs[k] == front[k];
          }
        }
      }
    }
  }

  /**
   Over every interleaving each durable result, partial or final, is one that a calculation delivered: its metrics,
   for the strategy that was being calculated, when exactly the results before it were there.
   */
  lemma ResultsHaveOrigin(strategies: seq<string>, createdAt: int, expectedSeconds: int, process: string,
                          events: seq<Event>)
    ensures var w := NewWorld(strategies, createdAt, expectedSeconds, process);
            var r := Exec(w, events).record;
            && r.Some? && HasOrigin(w, events, r.value.partial)
            && (r.value.result.Some? ==> HasOrigin(w, events, r.value.result.value))
  {
    hide HasOrigin, Exec, Covers, PhaseSound;
    var w := NewWorld(strategies, createdAt, expectedSeconds, process);
    NewWorldSound(strategies, createdAt, expectedSeconds, process);
    ExecKeepsInv(w, events, strategies);
    assert events[..|events|] == events;
    var r := Exec(w, events).record.value;
    HeldHasOrigin(w, events, strategies, |events|, r.partial);
    if r.result.Some? {
      HeldHasOrigin(w, events, strategies, |events|, r.result.value);
    }
  }

  // ----- events

  /** The job as it is written: with a renewed lease if this process recovered it and it is not over. */
  predicate Writes(w: World, r: World, job: Job, now: int, saved: bool) {
    && r.process == w.process && r.recovered == w.recovered && r.job.Some?
    && r.job.value == job.(leaseUntil := r.job.value.leaseUntil)
    && r.job.value.leaseUntil
       == (if job.owner == Some(w.process) && (job.status == Queued || job.status == Running || job.status == Timeout)
           then Some(now + 300) else job.leaseUntil)
    && r.record == if saved then r.job else w.record
  }

  predicate Ends(w: World, r: World) { r == w.(phase := Ended) }

  /** Longer at work than expected. */
  predicate Overdue(job: Job, now: int) {
    var begun := match job.startedAt case Some(at) => at case None => job.createdAt;
    var over := match job.completedAt case Some(at) => at case None => now;
    over - begun > job.expectedSeconds || 0 > job.expectedSeconds
  }

  /** What the worker's next block leaves of the job it works on. */
  predicate WorkLeaves(w: World, r: World, job: Job, now: int, saved: bool, outcome: Outcome) {
    match w.phase
    case NoWorker => r == w
    case Ended => r == w
    case Submitted =>
      if job.cancelRequested then Ends(w, r)
      else
        && Writes(w, r, job.(status := Running, startedAt := if job.startedAt.None? then Some(now) else job.startedAt,
                             completedAt := None), now, saved)
        && r.phase == if saved then Planned(Remaining(job.strategies, Names(job.partial))) else Ended
    case Planned(todo) =>
      if todo == [] then
        && Writes(w, r, job.(status := if job.cancelRequested then Cancelled else Completed,
                             result := Some(job.partial), currentStrategy := None, completedAt := Some(now)),
                  now, saved)
        && r.phase == if saved then Ended else Failing("save")
      else if job.cancelRequested then Ends(w, r)
      else
        && Writes(w, r, job.(currentStrategy := Some(todo[0])), now, saved)
        && r.phase == if saved then Calculating(todo[0], todo[1..]) else Failing("save")
    case Calculating(strategy, rest) =>
      (match outcome
       case Calculated(metrics) =>
         if job.cancelRequested || job.status == Cancelled then Ends(w, r)
         else
           && Writes(w, r, job.(partial := job.partial + [StrategyRun(strategy, metrics)],
                                completed := |job.partial| + 1,
                                status := if Overdue(job, now) then Timeout else job.status), now, saved)
           && r.phase == if saved then Planned(rest) else Failing("save")
       case Terminated => Ends(w, r)
       case HardTimeout(reason) => r == w.(phase := Expiring(reason))
       case Raised(reason) => r == w.(phase := Failing(reason)))
    case Expiring(reason) =>
      if job.cancelRequested then Ends(w, r)
      else
        && Writes(w, r, job.(status := Timeout, error := Some(reason), completedAt := Some(now)), now, saved)
        && r.phase == Ended
    case Failing(reason) =>
      if job.cancelRequested || job.status == Cancelled then Ends(w, r)
      else
        && Writes(w, r, job.(status := Failed, error := Some(reason), completedAt := Some(now)), now, saved)
        && r.phase == Ended
  }

  /** The record as a new process reads it. */
  predicate Reads(job: Job, record: Job) {
    && job == record.(total := job.total, expectedSeconds := job.expectedSeconds)
    && job.total == (if record.total == 0 then |record.strategies| else record.total)
    && job.expectedSeconds == if record.expectedSeconds == 0 then 45 else record.expectedSeconds
  }

  /** The job in memory, or else the record as it is read. */
  predicate IsCurrent(w: World, job: Job) {
    match w.job
    case Some(known) => job == known
    case None => w.record.Some? && Reads(job, w.record.value)
  }

  predicate CancelLeaves(w: World, r: World, job: Job, now: int, saved: bool) {
    && r.phase == w.phase
    && if job.status == Queued || job.status == Running || job.status == Timeout
       then Writes(w, r, job.(cancelRequested := true, status := Cancelled, completedAt := Some(now)), now, saved)
       else Writes(w, r, job.(cancelRequested := true), now, saved)
  }

  /** Recovery leases an unfinished job whose lease is free, and resumes it if results are missing. */
  predicate RecoverLeaves(w: World, r: World, record: Job, process: string, now: int, listed: bool) {
    var free := match record.leaseUntil case Some(until) => until <= now case None => true;
    var unfinished := record.status == Queued || record.status == Running || record.status == Timeout;
    && r.recovered && r.process == process
    && if !listed || !unfinished || record.cancelRequested || !free
       then r.record == w.record && r.job == w.job && r.phase == w.phase
       else
         var leased := record.(owner := Some(process), leaseUntil := Some(now + 300));
         && r.record == Some(leased)
         && if record.completedAt.None?
               && record.completed < (if record.total == 0 then |record.strategies| else record.total)
            then r.job.Some? && Reads(r.job.value, leased) && r.phase == Submitted
            else r.job == w.job && r.phase == w.phase
  }

  ghost predicate StepLeaves(w: World, r: World, e: Event)
    requires w.record.Some?
  {
    match e
    case Work(now, saved, outcome) =>
      if w.job.None? then r == w else WorkLeaves(w, r, w.job.value, now, saved, outcome)
    case Cancel(now, saved) =>
      if !w.recovered then r == w else forall job :: IsCurrent(w, job) ==> CancelLeaves(w, r, job, now, saved)
    case Crash => r.record == w.record && r.job == None && r.phase == NoWorker && !r.recovered
    case Recover(process, now, listed) =>
      if w.recovered then r == w else RecoverLeaves(w, r, w.record.value, process, now, listed)
  }

  lemma PersistIsWrite(w: World, job: Job, now: int, saved: bool)
    requires w.record.Some?
    ensures Writes(w, Persist(w, job, now, saved), job, now, saved)
    ensures Persist(w, job, now, saved).phase == w.phase
  {
  }

  lemma OverdueIff(job: Job, now: int)
    ensures Overdue(job, now) <==> ElapsedSeconds(job, now) > job.expectedSeconds
  {
  }

  lemma WorkOutcome(w: World, now: int, saved: bool, outcome: Outcome)
    requires w.job.Some? && w.record.Some?
    ensures WorkLeaves(w, WorkBlock(w, now, saved, outcome), w.job.value, now, saved, outcome)
  {
    hide Persist, Names, Remaining, Overdue, ElapsedSeconds, Writes;
    var job := w.job.value;
    match w.phase
    case Submitted =>
      var started := if job.startedAt.None? then Some(now) else job.startedAt;
      WrittenBy(w, job.(status := Running, startedAt := started, completedAt := None), now, saved);
    case Planned(todo) =>
      if todo == [] {
        WrittenBy(w, job.(status := if job.cancelRequested then Cancelled else Completed, result := Some(job.partial),
                          currentStrategy := None, completedAt := Some(now)), now, saved);
      } else {
        WrittenBy(w, job.(currentStrategy := Some(todo[0])), now, saved);
      }
    case Calculating(strategy, rest) =>
      if outcome.Calculated? {
        var job1 := job.(partial := job.partial + [StrategyRun(strategy, outcome.metrics)],
                         completed := |job.partial| + 1);
        OverdueIff(job1, now);
        OverdueAlike(job, job1, now);
        WrittenBy(w, job1.(status := if Overdue(job, now) then Timeout else job.status), now, saved);
      }
    case Expiring(reason) =>
      WrittenBy(w, job.(status := Timeout, error := Some(reason), completedAt := Some(now)), now, saved);
    case Failing(reason) =>
      WrittenBy(w, job.(status := Failed, error := Some(reason), completedAt := Some(now)), now, saved);
    case _ =>
  }

  lemma OverdueAlike(job: Job, job': Job, now: int)
    requires job'.startedAt == job.startedAt && job'.createdAt == job.createdAt
    requires job'.completedAt == job.completedAt && job'.expectedSeconds == job.expectedSeconds
    ensures Overdue(job', now) == Overdue(job, now)
  {
  }

  /** A write stays one whatever phase comes next. */
  lemma WrittenBy(w: World, job: Job, now: int, saved: bool)
    requires w.record.Some?
    ensures forall phase :: Writes(w, Persist(w, job, now, saved).(phase := phase), job, now, saved)
  {
  }

  lemma CancelOutcome(w: World, now: int, saved: bool)
    requires w.record.Some?
    ensures forall job :: IsCurrent(w, job) ==> CancelLeaves(w, CancelJob(w, now, saved), job, now, saved)
  {
    hide Writes, Persist;
    forall job | IsCurrent(w, job) ensures CancelLeaves(w, CancelJob(w, now, saved), job, now, saved) {
      assert Current(w) == Some(job);
      PersistIsWrite(w, job.(cancelRequested := true, status := Cancelled, completedAt := Some(now)), now, saved);
      PersistIsWrite(w, job.(cancelRequested := true), now, saved);
    }
  }

  lemma RecoverOutcome(w: World, process: string, now: int, listed: bool)
    requires w.record.Some?
    ensures RecoverLeaves(w, RecoverJob(w.(process := process), now, listed), w.record.value, process, now, listed)
  {
  }

  /** In every reachable state each event leaves exactly this. */
  lemma StepOutcome(w: World, e: Event, strategies: seq<string>)
    requires Inv(w, strategies)
    ensures StepLeaves(w, Step(w, e), e)
  {
    hide Sound, Agree, Covers, LooksDone, WorkLeaves, CancelLeaves, RecoverLeaves, CancelJob, RecoverJob, Pick,
        Announce, Publish, Finish, Expire, Fail;
    match e
    case Work(now, saved, outcome) =>
      if w.job.Some? {
        WorkOutcome(w, now, saved, outcome);
      }
    case Cancel(now, saved) => CancelOutcome(w, now, saved);
    case Crash =>
    case Recover(process, now, listed) => RecoverOutcome(w, process, now, listed);
  }
}
