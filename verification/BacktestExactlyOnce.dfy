/** Exactly one result per requested strategy, across crashes and recoveries. */
module BacktestExactlyOnce {
  import opened Wrappers
  import opened BacktestJobs
  import opened BacktestLaws

  /** The results so far are those of a prefix of the list, in order; all of it once completed. */
  predicate OrderedJob(job: Job, strategies: seq<string>) {
    && |job.partial| <= |strategies| && Names(job.partial) == strategies[..|job.partial|]
    && (job.status == Completed ==> |job.partial| == |strategies|)
  }

  ghost predicate Ordered(w: World, strategies: seq<string>) {
    && (w.job.Some? ==> OrderedJob(w.job.value, strategies))
    && (w.record.Some? ==> OrderedJob(w.record.value, strategies))
    && (w.job.Some? && w.phase.Planned? ==> Names(w.job.value.partial) + w.phase.todo == strategies)
    && (w.job.Some? && w.phase.Calculating? ==>
        Names(w.job.value.partial) + [w.phase.strategy] + w.phase.rest == strategies)
  }

  lemma {:induction false} RemainingOfUnseen(items: seq<string>, names: seq<string>)
    requires forall item :: item in items ==> item !in names
    ensures Remaining(items, names) == items
  {
    if items != [] {
      RemainingOfUnseen(items[1..], names);
    }
  }

  lemma {:induction false} RemainingOfConcat(xs: seq<string>, ys: seq<string>, names: seq<string>)
    ensures Remaining(xs + ys, names) == Remaining(xs, names) + Remaining(ys, names)
  {
    if xs == [] {
      assert xs + ys == ys;
    } else {
      RemainingOfConcat(xs[1..], ys, names);
      assert (xs + ys)[1..] == xs[1..] + ys;
      var first := if xs[0] in names then [] else [xs[0]];
      assert Remaining(xs + ys, names) == first + Remaining((xs + ys)[1..], names);
      assert first + (Remaining(xs[1..], names) + Remaining(ys, names))
          == first + Remaining(xs[1..], names) + Remaining(ys, names);
    }
  }

  lemma {:induction false} RemainingOfSeen(items: seq<string>, names: seq<string>)
    requires forall item :: item in items ==> item in names
    ensures Remaining(items, names) == []
  {
    if items != [] {
      RemainingOfSeen(items[1..], names);
    }
  }

  /** A restart after n strategies of a duplicate-free list has exactly the others to do. */
  lemma RemainingAfterPrefix(strategies: seq<string>, n: nat)
    requires n <= |strategies| && NoDuplicates(strategies)
    ensures Remaining(strategies, strategies[..n]) == strategies[n..]
  {
    assert strategies == strategies[..n] + strategies[n..];
    RemainingOfConcat(strategies[..n], strategies[n..], strategies[..n]);
    RemainingOfSeen(strategies[..n], strategies[..n]);
    RemainingOfUnseen(strategies[n..], strategies[..n]);
  }

  lemma PersistOrders(w: World, job: Job, now: int, saved: bool, strategies: seq<string>)
    requires OrderedJob(job, strategies) && (w.record.Some? ==> OrderedJob(w.record.value, strategies))
    ensures var r := Persist(w, job, now, saved);
            && r.job.Some? && OrderedJob(r.job.value, strategies) && r.job.value.partial == job.partial
            && (r.record.Some? ==> OrderedJob(r.record.value, strategies))
  {
  }

  lemma PublishOrders(w: World, metrics: Metrics, now: int, saved: bool, strategies: seq<string>)
    requires Inv(w, strategies) && Ordered(w, strategies) && w.phase.Calculating?
    ensures Ordered(Publish(w, w.phase.strategy, w.phase.rest, metrics, now, saved), strategies)
  {
    hide Persist, ElapsedSeconds, Sound;
    var job, run := w.job.value, StrategyRun(w.phase.strategy, metrics);
    var partial := job.partial + [run];
    assert Names(partial) == Names(job.partial) + [w.phase.strategy];
    assert |Names(job.partial) + [w.phase.strategy] + w.phase.rest| == |job.partial| + 1 + |w.phase.rest|;
    var job1 := job.(partial := partial, completed := |partial|);
    PersistOrders(w, job1, now, saved, strategies);
    PersistOrders(w, job1.(status := Timeout), now, saved, strategies);
  }

  lemma PickOrders(w: World, now: int, saved: bool, strategies: seq<string>)
    requires NoDuplicates(strategies) && Inv(w, strategies) && Ordered(w, strategies) && w.phase == Submitted
    ensures Ordered(Pick(w, now, saved), strategies)
  {
    hide Covers, NoDuplicates, Remaining, Names;
    RemainingAfterPrefix(strategies, |w.job.value.partial|);
  }

  lemma PlannedOrders(w: World, now: int, saved: bool, strategies: seq<string>)
    requires Inv(w, strategies) && Ordered(w, strategies) && w.phase.Planned?
    ensures w.phase.todo != [] ==> Ordered(Announce(w, w.phase.todo, now, saved), strategies)
    ensures w.phase.todo == [] ==> Ordered(Finish(w, now, saved), strategies)
  {
    hide Covers, Names;
    var todo, names := w.phase.todo, Names(w.job.value.partial);
    if todo != [] {
      assert names + [todo[0]] + todo[1..] == names + todo;
    }
  }

  lemma StepKeepsOrder(w: World, e: Event, strategies: seq<string>)
    requires NoDuplicates(strategies) && Inv(w, strategies) && Ordered(w, strategies)
    ensures Ordered(Step(w, e), strategies)
  {
    hide Pick, Announce, Finish, Publish, Covers, ElapsedSeconds, NoDuplicates, Names;
    if e.Work? && w.phase == Submitted {
      PickOrders(w, e.now, e.saved, strategies);
    } else if e.Work? && w.phase.Calculating? && e.outcome.Calculated? {
      PublishOrders(w, e.outcome.metrics, e.now, e.saved, strategies);
    } else if e.Work? && w.phase.Planned? {
      PlannedOrders(w, e.now, e.saved, strategies);
    }
  }

  lemma {:induction false} ExecKeepsOrder(w: World, events: seq<Event>, strategies: seq<string>)
    requires NoDuplicates(strategies) && Inv(w, strategies) && Ordered(w, strategies)
    ensures Ordered(Exec(w, events), strategies)
  {
    hide Step, Inv, Ordered, NoDuplicates;
    if events != [] {
      var front := events[..|events| - 1];
      ExecKeepsOrder(w, front, strategies);
      ExecKeepsInv(w, front, strategies);
      StepKeepsOrder(Exec(w, front), events[|events| - 1], strategies);
    }
  }

  // ----- an undisturbed worker

  const TICK := Work(0, true, Calculated(Metrics(0, 0.0, 0.0, 0.0)))

  predicate NoCancel(events: seq<Event>) { forall i :: 0 <= i < |events| ==> !events[i].Cancel? }

  function Ticks(n: nat): seq<Event> { seq(n, _ => TICK) }

  /** The worker is between strategies, memory and record agree and nothing has been decided. */
  ghost predicate Steady(w: World, strategies: seq<string>, names: seq<string>, todo: seq<string>) {
    && w.phase == Planned(todo) && w.job.Some? && w.record == w.job && w.recovered
    && var job := w.job.value;
       && job.strategies == strategies && job.total == |strategies|
       && Names(job.partial) == names && job.completed == |names|
       && !job.cancelRequested && job.status in {Running, Timeout} && job.completedAt.None?
  }

  lemma StrategyTakesTwoTicks(w: World, strategies: seq<string>, names: seq<string>, todo: seq<string>)
    requires Steady(w, strategies, names, todo) && todo != []
    ensures Steady(Step(Step(w, TICK), TICK), strategies, names + [todo[0]], todo[1..])
  {
    hide ElapsedSeconds;
    var run := StrategyRun(todo[0], Metrics(0, 0.0, 0.0, 0.0));
    assert Names(w.job.value.partial + [run]) == names + [todo[0]];
  }

  lemma {:induction false} StrategiesTakeTicks(w: World, strategies: seq<string>, names: seq<string>, todo: seq<string>,
                                               k: nat)
    requires Steady(w, strategies, names, todo) && k <= |todo|
    ensures Steady(Exec(w, Ticks(2 * k)), strategies, names + todo[..k], todo[k..])
  {
    hide Step, Steady;
    if k == 0 {
      assert names + todo[..0] == names && todo[0..] == todo;
    } else {
      StrategiesTakeTicks(w, strategies, names, todo, k - 1);
      var w1 := Exec(w, Ticks(2 * k - 2));
      StrategyTakesTwoTicks(w1, strategies, names + todo[..k - 1], todo[k - 1..]);
      TicksStep(w, 2 * k - 2);
      TicksStep(w, 2 * k - 1);
      assert todo[k - 1..][1..] == todo[k..] && todo[k - 1..][0] == todo[k - 1];
      assert names + todo[..k - 1] + [todo[k - 1]] == names + todo[..k];
    }
  }

  lemma TicksStep(w: World, n: nat)
    ensures Exec(w, Ticks(n + 1)) == Step(Exec(w, Ticks(n)), TICK)
  {
    hide Step;
    assert Ticks(n + 1)[..n] == Ticks(n);
  }

  /** An undisturbed worker completes the job with exactly the strategies it had to do. */
  lemma SteadyWorkerCompletes(w: World, strategies: seq<string>, names: seq<string>, todo: seq<string>)
    requires Steady(w, strategies, names, todo)
    ensures var r := Exec(w, Ticks(2 * |todo| + 1)).record;
            r.Some? && r.value.status == Completed && Names(r.value.partial) == names + todo
  {
    StrategiesTakeTicks(w, strategies, names, todo, |todo|);
    TicksStep(w, 2 * |todo|);
    assert names + todo[..|todo|] == names + todo && todo[|todo|..] == [];
    hide Exec;
  }

  function FreeAt(record: Job): int { if record.leaseUntil.Some? then record.leaseUntil.value else 0 }

  /** A crash, a recovery once the lease is over, and the new worker's first block. */
  function Restart(record: Job): seq<Event> { [Crash, Recover("next", FreeAt(record), true), TICK] }

  lemma ExecThree(w: World, a: Event, b: Event, c: Event)
    ensures Exec(w, [a, b, c]) == Step(Step(Step(w, a), b), c)
  {
    hide Step;
    assert [a, b, c][..2] == [a, b] && [a, b][..1] == [a] && [a][..0] == [];
    assert Exec(w, [a]) == Step(Exec(w, []), a);
    assert Exec(w, [a, b]) == Step(Exec(w, [a]), b);
  }

  lemma RestartIsSteady(w: World, strategies: seq<string>)
    requires Inv(w, strategies) && Resumable(w.record.value)
    ensures var names := Names(w.record.value.partial);
            Steady(Exec(w, Restart(w.record.value)), strategies, names, Remaining(strategies, names))
  {
    hide Remaining, Names, Covers, Agree, PhaseSound;
    var record := w.record.value;
    ExecThree(w, Crash, Recover("next", FreeAt(record), true), TICK);
    var crashed := Step(w, Crash);
    var resumed := Step(crashed, Recover("next", FreeAt(record), true));
    ResumedIsSubmitted(crashed, "next", strategies);
    PickIsSteady(resumed, strategies);
    assert Exec(w, Restart(record)) == Step(resumed, TICK) by { hide Exec, Step; }
    hide Exec, Step, Steady;
  }

  lemma ResumedIsSubmitted(w: World, process: string, strategies: seq<string>)
    requires w.record.Some? && Sound(w.record.value, strategies) && Resumable(w.record.value) && !w.recovered
    ensures var r := Step(w, Recover(process, FreeAt(w.record.value), true));
            && r.phase == Submitted && r.recovered && r.record.Some? && r.job.Some?
            && Sound(r.job.value, strategies) && Resumable(r.job.value) && r.job.value.partial == w.record.value.partial
  {
    hide Covers;
  }

  lemma PickIsSteady(w: World, strategies: seq<string>)
    requires w.phase == Submitted && w.recovered && w.record.Some? && w.job.Some?
    requires Sound(w.job.value, strategies) && !w.job.value.cancelRequested
    ensures var names := Names(w.job.value.partial);
            Steady(Step(w, TICK), strategies, names, Remaining(strategies, names))
  {
    hide Covers, Remaining;
  }

  /**
   A resumable job can be completed after a crash, keeping its saved results and adding one for each
   remaining strategy.
   */
  lemma ResumableCanComplete(w: World, strategies: seq<string>) returns (events: seq<Event>)
    requires Inv(w, strategies) && Resumable(w.record.value)
    ensures var r := Exec(w, events).record; var names := Names(w.record.value.partial);
            r.Some? && r.value.status == Completed && Names(r.value.partial) == names + Remaining(strategies, names)
    ensures NoCancel(events)
  {
    hide Steady, Exec, Remaining, Sound, PhaseSound;
    var names := Names(w.record.value.partial);
    RestartIsSteady(w, strategies);
    var todo := Remaining(strategies, names);
    var w1 := Exec(w, Restart(w.record.value));
    SteadyWorkerCompletes(w1, strategies, names, todo);
    events := Restart(w.record.value) + Ticks(2 * |todo| + 1);
    ExecConcat(w, Restart(w.record.value), Ticks(2 * |todo| + 1));
  }

  // ----- main results

  /**
   With a duplicate-free list the durable results are, after any interleaving of the worker,
   cancellations, failing saves, crashes and recoveries, those of a prefix of the list in
   order, counted by completed_strategies; a completed job has one result per strategy.
   */
  lemma ExactlyOnce(strategies: seq<string>, createdAt: int, expectedSeconds: int, process: string, events: seq<Event>)
    requires NoDuplicates(strategies)
    ensures var r := Exec(NewWorld(strategies, createdAt, expectedSeconds, process), events).record;
            && r.Some? && r.value.completed == |r.value.partial| <= |strategies|
            && Names(r.value.partial) == strategies[..r.value.completed]
            && (r.value.status == Completed ==>
                Names(r.value.partial) == strategies && r.value.result == Some(r.value.partial))
  {
    var w := NewWorld(strategies, createdAt, expectedSeconds, process);
    NewWorldSound(strategies, createdAt, expectedSeconds, process);
    ExecKeepsInv(w, events, strategies);
    ExecKeepsOrder(w, events, strategies);
    hide Exec, Covers, PhaseSound;
  }

  /** Whatever the list, a completed job lacks no requested strategy. */
  lemma CompletedLacksNothing(strategies: seq<string>, createdAt: int, expectedSeconds: int, process: string,
                              events: seq<Event>)
    ensures var r := Exec(NewWorld(strategies, createdAt, expectedSeconds, process), events).record;
            r.Some? && (r.value.status == Completed ==> forall item :: item in strategies ==>
                        item in Names(r.value.partial))
  {
    NewWorldSound(strategies, createdAt, expectedSeconds, process);
    ExecKeepsInv(NewWorld(strategies, createdAt, expectedSeconds, process), events, strategies);
    hide Exec, PhaseSound;
  }

  lemma {:induction false} RemainingIsShorter(items: seq<string>, names: seq<string>)
    ensures |Remaining(items, names)| <= |items|
  {
    if items != [] {
      RemainingIsShorter(items[1..], names);
    }
  }

  /** A restart forgets a repeated strategy whose first run was saved. */
  lemma RestartForgetsRepeat(strategies: seq<string>, i: nat, j: nat)
    requires i < j < |strategies| && strategies[i] == strategies[j]
    ensures i + 1 + |Remaining(strategies, strategies[..i + 1])| < |strategies|
  {
    var names, between, after := strategies[..i + 1], strategies[i + 1..j], strategies[j + 1..];
    assert strategies == names + between + [strategies[j]] + after;
    RemainingOfConcat(names + between + [strategies[j]], after, names);
    RemainingOfConcat(names + between, [strategies[j]], names);
    RemainingOfConcat(names, between, names);
    RemainingOfSeen(names, names);
    assert names[i] == strategies[j];
    RemainingOfSeen([strategies[j]], names);
    RemainingIsShorter(between, names);
    RemainingIsShorter(after, names);
    hide Remaining;
  }

  /** With a repeated strategy, a crash after its first run leads to a completed job short of results. */
  lemma RepeatCanLoseResult(strategies: seq<string>, createdAt: int, expectedSeconds: int, process: string, i: nat,
                            j: nat)
    returns (events: seq<Event>)
    requires i < j < |strategies| && strategies[i] == strategies[j]
    ensures var r := Exec(NewWorld(strategies, createdAt, expectedSeconds, process), events).record;
            r.Some? && r.value.status == Completed && |r.value.partial| < |strategies|
  {
    hide Steady, Remaining, Sound, PhaseSound, Step;
    var w := NewWorld(strategies, createdAt, expectedSeconds, process);
    NewWorldSound(strategies, createdAt, expectedSeconds, process);
    RemainingOfUnseen(strategies, []);
    FirstTickIsSteady(strategies, createdAt, expectedSeconds, process);
    var w1 := Exec(w, Ticks(1));
    StrategiesTakeTicks(w1, strategies, [], strategies, i + 1);
    ExecConcat(w, Ticks(1), Ticks(2 * (i + 1)));
    var before := Ticks(1) + Ticks(2 * (i + 1));
    var w2 := Exec(w, before);
    ExecKeepsInv(w, before, strategies);
    assert [] + strategies[..i + 1] == strategies[..i + 1];
    SteadyIsResumable(w2, strategies, strategies[..i + 1], strategies[i + 1..]);
    var after := ResumableCanComplete(w2, strategies);
    ExecConcat(w, before, after);
    RestartForgetsRepeat(strategies, i, j);
    events := before + after;
    hide Exec;
  }

  lemma SteadyIsResumable(w: World, strategies: seq<string>, names: seq<string>, todo: seq<string>)
    requires Steady(w, strategies, names, todo) && |names| < |strategies|
    ensures w.record.Some? && Resumable(w.record.value) && Names(w.record.value.partial) == names
  {
  }

  lemma FirstTickIsSteady(strategies: seq<string>, createdAt: int, expectedSeconds: int, process: string)
    ensures Steady(Exec(NewWorld(strategies, createdAt, expectedSeconds, process), Ticks(1)), strategies, [],
                   strategies)
  {
    var w := NewWorld(strategies, createdAt, expectedSeconds, process);
    PickIsSteady(w, strategies);
    RemainingOfUnseen(strategies, []);
    TicksStep(w, 0);
    assert Exec(w, Ticks(0)) == w;
    assert Names([]) == [];
    hide Exec, Step, Steady, Remaining;
  }

  /** Exactly the duplicate-free lists are guaranteed one result per strategy in every completed job. */
  lemma ExactlyOnceIffNoDuplicates(strategies: seq<string>, createdAt: int, expectedSeconds: int, process: string)
    ensures (forall events :: var r := Exec(NewWorld(strategies, createdAt, expectedSeconds, process), events).record;
                              r.Some? && r.value.status == Completed ==> Names(r.value.partial) == strategies)
            <==> NoDuplicates(strategies)
  {
    hide Exec;
    if NoDuplicates(strategies) {
      forall events
        ensures var r := Exec(NewWorld(strategies, createdAt, expectedSeconds, process), events).record;
                r.Some? && r.value.status == Completed ==> Names(r.value.partial) == strategies
      {
        ExactlyOnce(strategies, createdAt, expectedSeconds, process, events);
      }
    } else {
      var i: nat, j: nat :| i < j < |strategies| && strategies[i] == strategies[j];
      var events := RepeatCanLoseResult(strategies, createdAt, expectedSeconds, process, i, j);
    }
  }
}
