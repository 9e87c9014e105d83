/** The breaker against its full history: what pruning, the stored flag and the cooldown field stand for. */
module CircuitHistory {
  import opened Wrappers
  import opened CircuitBreaker

  /** One locked section, with the time its caller read before waiting for the lock. */
  datatype Op = Record(now: int, reason: string) | Status(now: int) | Clear(now: int)

  function Effect(s: Circuit, c: Config, op: Op): Circuit {
    match op
    case Record(now, reason) => Recorded(s, c, now, reason)
    case Status(now) => Refreshed(s, c, now)
    case Clear(now) => Reset(now)
  }

  function Exec(c: Config, ops: seq<Op>): Circuit {
    if ops == [] then EMPTY else Effect(Exec(c, ops[..|ops| - 1]), c, ops[|ops| - 1])
  }

  // ----- the reference: nothing is pruned, no flag is stored

  /** All failures since the last reset. */
  function History(ops: seq<Op>): seq<Failure> {
    if ops == [] then []
    else
      var earlier := History(ops[..|ops| - 1]);
      match ops[|ops| - 1]
      case Record(now, reason) => earlier + [Failure(now, reason)]
      case Status(_) => earlier
      case Clear(_) => []
  }

  /** The failure recorded last trips the breaker. */
  predicate Trips(c: Config, ops: seq<Op>)
    decreases |ops|, 1
  {
    && ops != [] && ops[|ops| - 1].Record?
    && var now := ops[|ops| - 1].now;
       && |Recent(History(ops), now, c.window)| >= c.threshold
       && !Tripped(c, ops[..|ops| - 1], now)
  }

  /** A trip's time and the number of failures in the window then. */
  datatype Trip = Trip(at: int, count: nat)

  /** The last trip since the last reset. */
  function LastTrip(c: Config, ops: seq<Op>): Option<Trip>
    decreases |ops|, 2
  {
    if ops == [] || ops[|ops| - 1].Clear? then None
    else if Trips(c, ops) then Some(Trip(ops[|ops| - 1].now, |Recent(History(ops), ops[|ops| - 1].now, c.window)|))
    else LastTrip(c, ops[..|ops| - 1])
  }

  predicate Tripped(c: Config, ops: seq<Op>, now: int)
    decreases |ops|, 3
  {
    LastTrip(c, ops).Some? && now < LastTrip(c, ops).value.at + c.cooldown
  }

  // ----- failures

  /** No locked section carried a later time. */
  predicate NotAfter(ops: seq<Op>, now: int) { forall i :: 0 <= i < |ops| ==> ops[i].now <= now }

  lemma {:induction false} RecentConcat(xs: seq<Failure>, ys: seq<Failure>, now: int, window: int)
    ensures Recent(xs + ys, now, window) == Recent(xs, now, window) + Recent(ys, now, window)
    decreases |ys|
  {
    if ys == [] {
      assert xs + ys == xs;
    } else {
      var n := |ys| - 1;
      RecentConcat(xs, ys[..n], now, window);
      assert (xs + ys)[..|xs + ys| - 1] == xs + ys[..n];
    }
  }

  lemma {:induction false} RecentOfRecent(failures: seq<Failure>, earlier: int, now: int, window: int)
    requires earlier <= now
    ensures Recent(Recent(failures, earlier, window), now, window) == Recent(failures, now, window)
  {
    if failures != [] {
      var n := |failures| - 1;
      RecentOfRecent(failures[..n], earlier, now, window);
      var last := if failures[n].at >= earlier - window then [Named(failures[n])] else [];
      RecentConcat(Recent(failures[..n], earlier, window), last, now, window);
      if last != [] {
        assert last[..0] == [];
        assert Recent(last, now, window) == if failures[n].at >= now - window then [Named(failures[n])] else [];
      }
    }
  }

  /**
   Pruning loses nothing: seen from any time not before the sections so far, in whatever
   order their times are, the stored list holds the same recent failures as the full history.
   */
  lemma {:induction false} StoredIsHistory(c: Config, ops: seq<Op>, now: int)
    requires NotAfter(ops, now)
    ensures Recent(Exec(c, ops).failures, now, c.window) == Recent(History(ops), now, c.window)
  {
    if ops != [] {
      var front, op := ops[..|ops| - 1], ops[|ops| - 1];
      StoredIsHistory(c, front, now);
      var s := Exec(c, front);
      assert op.now <= now;
      RecentOfRecent(s.failures, op.now, now, c.window);
      match op {
        case Record(at, reason) =>
          RecentConcat(Recent(s.failures, at, c.window), [Failure(at, reason)], now, c.window);
          RecentConcat(History(front), [Failure(at, reason)], now, c.window);
        case Status(at) =>
        case Clear(at) =>
      }
    }
  }

  lemma {:induction false} RecentShrinks(failures: seq<Failure>, earlier: int, now: int, window: int)
    requires earlier <= now
    ensures |Recent(failures, now, window)| <= |Recent(failures, earlier, window)|
  {
    if failures != [] {
      RecentShrinks(failures[..|failures| - 1], earlier, now, window);
    }
  }

  lemma RecentWithLast(failures: seq<Failure>, last: Failure, now: int, window: int)
    ensures |Recent(failures + [last], now, window)|
            == |Recent(failures, now, window)| + if last.at >= now - window then 1 else 0
  {
    assert (failures + [last])[..|failures|] == failures;
  }

  /**
   A burst always trips: once a threshold of recorded failures lies inside one window that
   ends at the latest time so far, the breaker is active when the last of them is stored,
   even when the sections do not come in the order of their times.
   */
  lemma BurstTrips(c: Config, ops: seq<Op>, latest: int)
    requires ops != [] && ops[|ops| - 1].Record? && NotAfter(ops, latest)
    requires |Recent(History(ops), latest, c.window)| >= c.threshold
    ensures IsActive(Exec(c, ops), ops[|ops| - 1].now)
  {
    var front, op := ops[..|ops| - 1], ops[|ops| - 1];
    assert op.now <= latest;
    StoredIsHistory(c, front, latest);
    RecentShrinks(Exec(c, front).failures, op.now, latest, c.window);
    RecentWithLast(History(front), Failure(op.now, op.reason), latest, c.window);
  }

  // ----- a clock that does not go back

  predicate Monotone(ops: seq<Op>) { forall i, j :: 0 <= i < j < |ops| ==> ops[i].now <= ops[j].now }

  /** After a record the file holds exactly the window of the full history. */
  lemma RecordStoresWindow(c: Config, ops: seq<Op>)
    requires Monotone(ops) && ops != [] && ops[|ops| - 1].Record?
    ensures var op := ops[|ops| - 1];
            Exec(c, ops).failures == Recent(History(ops[..|ops| - 1]), op.now, c.window) + [Failure(op.now, op.reason)]
  {
    StoredIsHistory(c, ops[..|ops| - 1], ops[|ops| - 1].now);
  }

  /**
   The stored flag, cooldown and reason are those of this last trip, or it is over at the time of
   the last section.
   */
  predicate FlagIs(c: Config, trip: Option<Trip>, last: Option<int>, s: Circuit) {
    if s.active then
      && trip.Some? && s.activatedAt == Some(trip.value.at) && s.reason == Some(trip.value.count)
      && s.cooldownUntil == Some(trip.value.at + c.cooldown)
    else
      trip.None? || (last.Some? && trip.value.at + c.cooldown <= last.value)
  }

  function LastTime(ops: seq<Op>): Option<int> { if ops == [] then None else Some(ops[|ops| - 1].now) }

  /** What the stored flag and cooldown say about the trips of the history. */
  predicate FlagMatches(c: Config, ops: seq<Op>, s: Circuit) { FlagIs(c, LastTrip(c, ops), LastTime(ops), s) }

  /** One record, given the last trip before it and whether it trips itself. */
  lemma RecordedFlagIs(c: Config, trip: Option<Trip>, last: Option<int>, s: Circuit, now: int, reason: string,
                       trips: bool)
    requires FlagIs(c, trip, last, s) && (last.Some? ==> last.value <= now)
    requires var count := |Recent(s.failures, now, c.window)| + 1;
             trips <==> count >= c.threshold && (trip.Some? ==> trip.value.at + c.cooldown <= now)
    ensures var count := |Recent(s.failures, now, c.window)| + 1;
            && FlagIs(c, if trips then Some(Trip(now, count)) else trip, Some(now), Recorded(s, c, now, reason))
            && (count >= c.threshold && !IsActive(s, now) <==> trips)
  {
    hide Recent;
  }

  lemma TripsUnfold(c: Config, ops: seq<Op>)
    requires ops != [] && ops[|ops| - 1].Record?
    ensures var front, op := ops[..|ops| - 1], ops[|ops| - 1];
            && (Trips(c, ops) <==> && |Recent(History(front), op.now, c.window)| + 1 >= c.threshold
                                   && (LastTrip(c, front).Some? ==> LastTrip(c, front).value.at + c.cooldown <= op.now))
            && LastTrip(c, ops) == if Trips(c, ops)
                then Some(Trip(op.now, |Recent(History(front), op.now, c.window)| + 1))
                                 else LastTrip(c, front)
  {
    var front, op := ops[..|ops| - 1], ops[|ops| - 1];
    RecentWithLast(History(front), Failure(op.now, op.reason), op.now, c.window);
    assert Tripped(c, front, op.now) <==> LastTrip(c, front).Some? && op.now < LastTrip(c, front).value.at + c.cooldown;
    hide Recent;
  }

  lemma RecordedFlag(c: Config, ops: seq<Op>, s: Circuit)
    requires ops != [] && ops[|ops| - 1].Record? && FlagMatches(c, ops[..|ops| - 1], s)
    requires |ops| > 1 ==> ops[|ops| - 2].now <= ops[|ops| - 1].now
    requires |Recent(s.failures, ops[|ops| - 1].now, c.window)|
             == |Recent(History(ops[..|ops| - 1]), ops[|ops| - 1].now, c.window)|
    ensures FlagMatches(c, ops, Recorded(s, c, ops[|ops| - 1].now, ops[|ops| - 1].reason))
    ensures |Recent(s.failures, ops[|ops| - 1].now, c.window)| + 1 >= c.threshold && !IsActive(s, ops[|ops| - 1].now)
            <==> Trips(c, ops)
  {
    TripsUnfold(c, ops);
    hide Recent, Recorded, IsActive, FlagIs;
    var front, op := ops[..|ops| - 1], ops[|ops| - 1];
    RecordedFlagIs(c, LastTrip(c, front), LastTime(front), s, op.now, op.reason, Trips(c, ops));
    hide LastTrip, Trips, History;
  }

  lemma {:induction false} FlagFollowsHistory(c: Config, ops: seq<Op>)
    requires Monotone(ops)
    ensures FlagMatches(c, ops, Exec(c, ops))
  {
    if ops != [] {
      var front, op := ops[..|ops| - 1], ops[|ops| - 1];
      FlagFollowsHistory(c, front);
      if op.Record? {
        StoredIsHistory(c, front, op.now);
        RecordedFlag(c, ops, Exec(c, front));
        hide FlagMatches, Recorded;
      } else {
        assert LastTrip(c, ops) == if op.Clear? then None else LastTrip(c, front);
        hide Recent, LastTrip;
      }
    }
  }

  /** When a failure was last recorded or the breaker last reset. */
  function LastUpdate(ops: seq<Op>): Option<int> {
    if ops == [] then None
    else if ops[|ops| - 1].Status? then LastUpdate(ops[..|ops| - 1]) else Some(ops[|ops| - 1].now)
  }

  lemma {:induction false} UpdatedAtLastUpdate(c: Config, ops: seq<Op>)
    ensures Exec(c, ops).updatedAt == LastUpdate(ops)
  {
    hide Recent, IsActive;
    if ops != [] {
      UpdatedAtLastUpdate(c, ops[..|ops| - 1]);
    }
  }

  function HistoryReport(c: Config, ops: seq<Op>, now: int): Report {
    var failures, active := Recent(History(ops), now, c.window), Tripped(c, ops, now);
    var trip := LastTrip(c, ops);
    Report(active, if active then Some(trip.value.count) else None, |failures|, c,
           if active then Some(trip.value.at) else None, if active then Some(trip.value.at + c.cooldown) else None,
           if failures != [] then Some(failures[|failures| - 1].at) else None, LastUpdate(ops))
  }

  /**
   With a clock that does not go back, every status report is the one the full history
   gives: active exactly until the cooldown after the last trip, counting every failure of
   the window since the last reset.
   */
  lemma StatusIsHistory(c: Config, ops: seq<Op>, now: int)
    requires Monotone(ops) && NotAfter(ops, now)
    ensures ReportOf(Exec(c, ops), c, now) == HistoryReport(c, ops, now)
  {
    FlagFollowsHistory(c, ops);
    StoredIsHistory(c, ops, now);
    UpdatedAtLastUpdate(c, ops);
    hide LastTrip, Recent, Exec, History;
  }

  /** Two early failures, the second of which commits after one that is a window later. */
  function LateCommit(c: Config): seq<Op> { [Record(0, "a"), Record(c.window + 1, "b"), Record(0, "c")] }

  /**
   Out of time order the report can fall behind the history: pruning at the later time has dropped
   an early failure.
   */
  lemma LateCommitIsUndercounted(c: Config)
    ensures ReportOf(Exec(c, LateCommit(c)), c, 0).failureCount == 2
    ensures HistoryReport(c, LateCommit(c), 0).failureCount == 3
  {
    hide Recorded, Refreshed, IsActive, LastTrip;
    var a, b, d := Failure(0, "a"), Failure(c.window + 1, "b"), Failure(0, "c");
    LateCommitStored(c);
    LateCommitHistory(c);
    RecentOfOne(c, b);
    RecentWithLast([b], d, 0, c.window);
    RecentOfOne(c, a);
    RecentWithLast([a], b, 0, c.window);
    RecentWithLast([a, b], d, 0, c.window);
    assert [a] + [b] == [a, b] && [a, b] + [d] == [a, b, d] && [b] + [d] == [b, d];
    hide Recent, Exec, History;
  }

  lemma RecentOfOne(c: Config, f: Failure)
    requires f.at >= -c.window
    ensures |Recent([f], 0, c.window)| == 1 && Recent([], f.at, c.window) == []
  {
    assert [f][..0] == [];
    assert Recent([], 0, c.window) == [];
  }

  lemma RecordStores(c: Config, s: Circuit, now: int, reason: string)
    ensures Effect(s, c, Record(now, reason)).failures == Recent(s.failures, now, c.window) + [Failure(now, reason)]
  {
    hide Recent;
  }

  lemma HistorySnoc(ops: seq<Op>, now: int, reason: string)
    ensures History(ops + [Record(now, reason)]) == History(ops) + [Failure(now, reason)]
  {
    assert (ops + [Record(now, reason)])[..|ops|] == ops;
  }

  lemma LateCommitStored(c: Config)
    ensures Exec(c, LateCommit(c)).failures == [Failure(c.window + 1, "b"), Failure(0, "c")]
  {
    hide Exec, Effect, Recent;
    var r1, r2, r3 := Record(0, "a"), Record(c.window + 1, "b"), Record(0, "c");
    var a, b, d := Failure(0, "a"), Failure(c.window + 1, "b"), Failure(0, "c");
    assert [] + [r1] == [r1] && [r1] + [r2] == [r1, r2] && [r1, r2] + [r3] == LateCommit(c);
    ExecSnoc(c, [], r1);
    ExecSnoc(c, [r1], r2);
    ExecSnoc(c, [r1, r2], r3);
    NothingExecuted(c);
    FirstFailureIsStored(c, 0, "a");
    RecordStores(c, Exec(c, [r1]), c.window + 1, "b");
    RecordStores(c, Exec(c, [r1, r2]), 0, "c");
    OnlyRecent(c, a, c.window + 1);
    OnlyRecent(c, b, 0);
    assert [] + [b] == [b] && [b] + [d] == [b, d];
  }

  lemma LateCommitHistory(c: Config)
    ensures History(LateCommit(c)) == [Failure(0, "a"), Failure(c.window + 1, "b"), Failure(0, "c")]
  {
    hide History;
    var r1, r2, r3 := Record(0, "a"), Record(c.window + 1, "b"), Record(0, "c");
    var a, b, d := Failure(0, "a"), Failure(c.window + 1, "b"), Failure(0, "c");
    assert [] + [r1] == [r1] && [r1] + [r2] == [r1, r2] && [r1, r2] + [r3] == LateCommit(c);
    NoHistory();
    HistorySnoc([], 0, "a");
    HistorySnoc([r1], c.window + 1, "b");
    HistorySnoc([r1, r2], 0, "c");
    assert [] + [a] == [a] && [a] + [b] == [a, b] && [a, b] + [d] == [a, b, d];
  }

  lemma NoHistory()
    ensures History([]) == []
  {
  }

  lemma OnlyRecent(c: Config, f: Failure, now: int)
    requires f.reason != ""
    ensures Recent([f], now, c.window) == if f.at >= now - c.window then [f] else []
  {
    assert [f][..0] == [];
    assert Recent([], now, c.window) == [];
  }

  lemma ExecSnoc(c: Config, ops: seq<Op>, op: Op)
    ensures Exec(c, ops + [op]) == Effect(Exec(c, ops), c, op)
  {
    hide Effect;
    assert (ops + [op])[..|ops|] == ops;
  }

  lemma FirstFailureIsStored(c: Config, now: int, reason: string)
    ensures Effect(EMPTY, c, Record(now, reason)).failures == [Failure(now, reason)]
  {
    assert Recent([], now, c.window) == [];
    hide Recent;
  }

  lemma NothingExecuted(c: Config)
    ensures Exec(c, []) == EMPTY
  {
  }

  /** A record activates the breaker exactly when the history trips. */
  lemma ActivatesIffTrips(c: Config, ops: seq<Op>)
    requires Monotone(ops) && ops != [] && ops[|ops| - 1].Record?
    ensures var front, op := ops[..|ops| - 1], ops[|ops| - 1];
            |Recent(Exec(c, front).failures, op.now, c.window)| + 1 >= c.threshold && !IsActive(Exec(c, front), op.now)
            <==> Trips(c, ops)
  {
    var front, op := ops[..|ops| - 1], ops[|ops| - 1];
    StoredIsHistory(c, front, op.now);
    FlagFollowsHistory(c, front);
    RecordedFlag(c, ops, Exec(c, front));
    hide Recent, Exec;
  }

  lemma {:induction false} TripIsRemembered(c: Config, ops: seq<Op>, i: nat, j: nat)
    requires i < j <= |ops| && Trips(c, ops[..i + 1])
    requires forall k :: i < k < j ==> !ops[k].Clear?
    ensures LastTrip(c, ops[..j]).Some? && LastTrip(c, ops[..j]).value.at >= ops[i].now
  {
    if j > i + 1 {
      TripIsRemembered(c, ops, i, j - 1);
      assert ops[..j][..j - 1] == ops[..j - 1];
      if ops[j - 1].Record? {
        TripsUnfold(c, ops[..j]);
      }
    }
    hide Recent;
  }

  /** Two trips without a reset between them are at least one cooldown apart. */
  lemma TripsAreApart(c: Config, ops: seq<Op>, i: nat, j: nat)
    requires i < j < |ops| && Trips(c, ops[..i + 1]) && Trips(c, ops[..j + 1])
    requires forall k :: i < k < j ==> !ops[k].Clear?
    ensures ops[j].now >= ops[i].now + c.cooldown
  {
    TripIsRemembered(c, ops, i, j);
    assert ops[..j + 1][..j] == ops[..j];
    TripsUnfold(c, ops[..j + 1]);
    assert LastTrip(c, ops[..j]).value.at + c.cooldown <= ops[j].now;
    hide Recent;
  }
}
