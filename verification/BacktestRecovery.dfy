/** Which jobs recovery can still finish, which it never will, and what those do to the others. */
module BacktestRecovery {
  import opened Wrappers
  import opened BacktestJobs
  import opened BacktestLaws
  import opened BacktestExactlyOnce
  import opened BacktestClaims

  // ----- jobs that nobody works on and recovery does not resume

  /** No worker, and an unfinished record that a claim leases but does not resume. */
  predicate Dead(w: World) {
    && w.phase in {NoWorker, Ended} && w.record.Some?
    && Unfinished(w.record.value.status) && !Resumable(FromRecord(w.record.value))
  }

  /** The same record but for who holds its lease. */
  predicate SameButLease(r: Job, q: Job) { r == q.(owner := r.owner, leaseUntil := r.leaseUntil) }

  lemma StepKeepsDead(w: World, e: Event)
    requires Dead(w) && !e.Cancel?
    ensures Dead(Step(w, e)) && SameButLease(Step(w, e).record.value, w.record.value)
  {
  }

  /** Without a cancellation request such a job stays unfinished, and dead, for ever. */
  lemma {:induction false} DeadStays(w: World, events: seq<Event>)
    requires Dead(w) && NoCancel(events)
    ensures Dead(Exec(w, events)) && SameButLease(Exec(w, events).record.value, w.record.value)
  {
    hide Dead, Step;
    if events != [] {
      var front := events[..|events| - 1];
      DeadStays(w, front);
      StepKeepsDead(Exec(w, front), events[|events| - 1]);
    }
  }

  /** A crash leaves an undecided job either resumable or dead: dead exactly when every result was already saved. */
  lemma CrashedIsResumableOrDead(w: World, strategies: seq<string>)
    requires Inv(w, strategies) && !Decided(w.record.value)
    ensures Resumable(w.record.value) <==> w.record.value.completed < w.record.value.total
    ensures Dead(Step(w, Crash)) <==> w.record.value.completed >= w.record.value.total
  {
    hide Covers;
  }

  /**
   Recovery can finish an undecided job after a crash exactly when a result was still missing
   from its record. A crash between the last result and the final block strands the job.
   */
  lemma CrashedCanCompleteIff(w: World, strategies: seq<string>)
    requires Inv(w, strategies) && !Decided(w.record.value)
    ensures (exists events :: NoCancel(events) && CompletesBy(Step(w, Crash), events))
            <==> w.record.value.completed < w.record.value.total
  {
    hide Sound, PhaseSound, Dead, Exec, Step, Decided, Agree;
    CrashedIsResumableOrDead(w, strategies);
    var crashed := Step(w, Crash);
    if w.record.value.completed < w.record.value.total {
      StepKeepsInv(w, Crash, strategies);
      CrashKeepsRecord(w);
      var events := ResumableCanComplete(crashed, strategies);
      assert CompletesBy(crashed, events);
    } else {
      forall events | NoCancel(events) ensures !CompletesBy(crashed, events) {
        DeadStays(crashed, events);
        DeadIsUnfinished(Exec(crashed, events));
      }
    }
  }

  /** So does a hard timeout, which stays in an unfinished status. */
  lemma HardTimeoutIsDead(w: World, strategies: seq<string>)
    requires Inv(w, strategies) && w.record.value.status == Timeout && w.record.value.completedAt.Some?
    ensures Dead(Step(w, Crash))
  {
  }

  ghost predicate CompletesBy(w: World, events: seq<Event>) {
    Exec(w, events).record.Some? && Exec(w, events).record.value.status == Completed
  }

  lemma CrashKeepsRecord(w: World)
    ensures Step(w, Crash).record == w.record
  {
  }

  lemma DeadIsUnfinished(w: World)
    requires Dead(w)
    ensures w.record.Some? && Unfinished(w.record.value.status)
  {
  }

  /** Every list can be stranded: all results saved, then a crash before the final block. */
  lemma EveryListCanStrand(strategies: seq<string>, createdAt: int, expectedSeconds: int, process: string)
    returns (before: seq<Event>)
    ensures NoCancel(before)
    ensures var w := Exec(NewWorld(strategies, createdAt, expectedSeconds, process), before);
            && w.record.Some? && Names(w.record.value.partial) == strategies && Unfinished(w.record.value.status)
            && forall events :: NoCancel(events) ==> !CompletesBy(Step(w, Crash), events)
  {
    hide Steady, Sound, PhaseSound, Step, Remaining;
    var w := NewWorld(strategies, createdAt, expectedSeconds, process);
    NewWorldSound(strategies, createdAt, expectedSeconds, process);
    FirstTickIsSteady(strategies, createdAt, expectedSeconds, process);
    var w1 := Exec(w, Ticks(1));
    StrategiesTakeTicks(w1, strategies, [], strategies, |strategies|);
    before := Ticks(1) + Ticks(2 * |strategies|);
    ExecConcat(w, Ticks(1), Ticks(2 * |strategies|));
    ExecKeepsInv(w, before, strategies);
    assert [] + strategies[..|strategies|] == strategies;
    var w2 := Exec(w, before);
    hide Exec;
    SteadyIsUndecided(w2, strategies, strategies, strategies[|strategies|..]);
    CrashedCanCompleteIff(w2, strategies);
  }

  lemma SteadyIsUndecided(w: World, strategies: seq<string>, names: seq<string>, todo: seq<string>)
    requires Steady(w, strategies, names, todo)
    ensures w.record.Some? && !Decided(w.record.value) && Unfinished(w.record.value.status)
    ensures Names(w.record.value.partial) == names && w.record.value.completed == |names|
    ensures w.record.value.total == |strategies|
  {
  }

  // ----- cancellations

  /**
   A cancellation of an unfinished job is still there after every crash and all that follows
   exactly when its save succeeded. When it did not, the job can even be completed, if the
   record then missed a result.
   */
  lemma CancellationSurvivesIffSaved(w: World, now: int, saved: bool, strategies: seq<string>)
    requires Inv(w, strategies) && w.recovered && w.job.Some? && Unfinished(w.job.value.status)
    ensures (forall events :: CancelledBy(CancelJob(w, now, saved), [Crash] + events)) <==> saved
    ensures !saved && !Decided(w.record.value) && w.record.value.completed < w.record.value.total
            ==> exists events :: NoCancel(events) && CompletesBy(Step(CancelJob(w, now, saved), Crash), events)
  {
    var w1 := CancelJob(w, now, saved);
    CancelKeepsInv(w, now, saved, strategies);
    CancelWrites(w, now, saved, strategies);
    hide Exec, Sound, PhaseSound, CancelJob, Step;
    if saved {
      forall events ensures CancelledBy(w1, [Crash] + events) {
        DecidedStays(w1, [Crash] + events, strategies);
      }
    } else {
      OneCrash(w1);
      var none: seq<Event> := [];
      assert [Crash] + none == [Crash];
      assert !CancelledBy(w1, [Crash] + none);
      if !Decided(w.record.value) {
        CrashedCanCompleteIff(w1, strategies);
      }
    }
  }

  ghost predicate CancelledBy(w: World, events: seq<Event>) {
    Exec(w, events).record.Some? && Exec(w, events).record.value.status == Cancelled
  }

  lemma CancelWrites(w: World, now: int, saved: bool, strategies: seq<string>)
    requires Inv(w, strategies) && w.job.Some? && Unfinished(w.job.value.status)
    ensures var r := CancelJob(w, now, saved).record;
            r.Some? && (if saved then r.value.status == Cancelled else r == w.record && r.value.status != Cancelled)
  {
    hide Covers;
  }

  lemma OneCrash(w: World)
    ensures Exec(w, [Crash]).record == w.record
  {
    assert [Crash][..0] == [];
    assert Exec(w, []) == w;
  }

  // ----- what dead rows do to the others

  /** Row id is dead in the first table and later went on without a cancellation request. */
  ghost predicate StaysDead(records: Records, later: Records, id: string) {
    exists w: World, events :: DeadRun(records, later, id, w, events)
  }

  ghost predicate DeadRun(records: Records, later: Records, id: string, w: World, events: seq<Event>) {
    && id in records && w.record == Some(records[id]) && Dead(w) && NoCancel(events)
    && id in later && Exec(w, events).record == Some(later[id])
  }

  lemma OneLess(dead: set<string>, last: string)
    ensures |dead - {last}| >= |dead| - if last in dead then 1 else 0
  {
    if last in dead {
      assert dead == (dead - {last}) + {last};
    } else {
      assert dead == dead - {last};
    }
  }

  lemma NoneBeforeFirst(order: seq<string>, dead: set<string>)
    requires forall id :: id in dead ==> id in order[..0]
    ensures |dead| == 0
  {
    assert order[..0] == [];
    assert dead == {};
  }

  lemma {:induction false} OlderCounts(records: Records, order: seq<string>, k: nat, dead: set<string>)
    requires k <= |order|
    requires forall id :: id in dead ==> id in order[..k] && id in records && Unfinished(records[id].status)
    ensures Older(records, order, k) >= |dead|
  {
    hide Unfinished;
    if k == 0 {
      NoneBeforeFirst(order, dead);
    } else {
      var last := order[k - 1];
      var rest := dead - {last};
      assert order[..k] == order[..k - 1] + [last];
      forall id | id in rest ensures id in order[..k - 1] {
        assert id in order[..k];
      }
      OlderCounts(records, order, k - 1, rest);
      OneLess(dead, last);
    }
  }

  /**
   Rows that are dead while a younger job waits, hard timeouts and stranded jobs, keep it from
   ever being recovered once there are `limit` of them: whatever happens to any other row, no
   claim at any time reaches it while nobody cancels them.
   */
  lemma DeadRowsBlockForEver(records: Records, later: Records, order: seq<string>, limit: nat, k: nat,
                             dead: set<string>, now: int)
    requires NoDuplicates(order) && k < |order| && order[k] in later && |dead| >= limit
    requires forall id :: id in dead ==> id in order[..k] && StaysDead(records, later, id)
    ensures order[k] !in Claims(later, order, now, limit)
  {
    hide Dead, Claims, Exec;
    forall id | id in dead ensures id in later && Unfinished(later[id].status) {
      var w: World, events :| DeadRun(records, later, id, w, events);
      DeadStays(w, events);
      DeadIsUnfinished(Exec(w, events));
    }
    OlderCounts(later, order, k, dead);
    ClaimedIff(later, order, now, limit, k);
  }
}
