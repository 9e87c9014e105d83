/** Processes sharing the state file: lock, load, save and unlock as separate moves. */
module CircuitLock {
  import opened Wrappers
  import opened CircuitBreaker
  import opened CircuitHistory

  /** Where a process is in its locked section; the time in its op was read before it waited. */
  datatype Worker = Idle | Waiting(op: Op) | Holding(op: Op) | Loaded(op: Op, seen: Circuit) | Saved

  /** log: the sections in the order of their saves. */
  datatype System = System(file: Circuit, holder: Option<nat>, workers: map<nat, Worker>, log: seq<Op>)

  datatype Move = Begin(p: nat, op: Op) | Acquire(p: nat) | Load(p: nat) | Save(p: nat) | Release(p: nat) | Die(p: nat)

  function WorkerOf(s: System, p: nat): Worker { if p in s.workers then s.workers[p] else Idle }

  function Put(s: System, p: nat, w: Worker): System { s.(workers := s.workers[p := w]) }

  /** One move; a move that is not possible does nothing. Without file locks nobody waits. */
  function Next(c: Config, locking: bool, s: System, m: Move): System {
    match m
    case Begin(p, op) => if WorkerOf(s, p).Idle? then Put(s, p, Waiting(op)) else s
    case Acquire(p) =>
      if !WorkerOf(s, p).Waiting? || (locking && s.holder.Some?) then s
      else Put(s, p, Holding(WorkerOf(s, p).op)).(holder := Some(p))
    case Load(p) => if WorkerOf(s, p).Holding? then Put(s, p, Loaded(WorkerOf(s, p).op, s.file)) else s
    case Save(p) =>
      if !WorkerOf(s, p).Loaded? then s
      else
        var w := WorkerOf(s, p);
        Put(s, p, Saved).(file := Effect(w.seen, c, w.op), log := s.log + [w.op])
    case Release(p) => if WorkerOf(s, p).Saved? then Free(Put(s, p, Idle), p) else s
    case Die(p) => Free(Put(s, p, Idle), p)
  }

  /** The system drops the lock of a process that releases it or ends. */
  function Free(s: System, p: nat): System { if s.holder == Some(p) then s.(holder := None) else s }

  const START := System(EMPTY, None, map[], [])

  function Reach(c: Config, locking: bool, moves: seq<Move>): System {
    if moves == [] then START else Next(c, locking, Reach(c, locking, moves[..|moves| - 1]), moves[|moves| - 1])
  }

  predicate InSection(w: Worker) { w.Holding? || w.Loaded? || w.Saved? }

  ghost predicate Inv(c: Config, s: System) {
    && s.file == Exec(c, s.log)
    && forall p: nat :: InSection(WorkerOf(s, p)) ==>
         s.holder == Some(p) && (WorkerOf(s, p).Loaded? ==> WorkerOf(s, p).seen == s.file)
  }

  lemma NextKeepsInv(c: Config, s: System, m: Move)
    requires Inv(c, s)
    ensures Inv(c, Next(c, true, s, m))
  {
    hide Effect, Exec;
    if m.Save? && WorkerOf(s, m.p).Loaded? {
      ExecSnoc(c, s.log, WorkerOf(s, m.p).op);
    }
    var r := Next(c, true, s, m);
    assert forall p: nat :: p != m.p ==> WorkerOf(r, p) == WorkerOf(s, p);
  }

  /**
   Under the lock every interleaving of any number of processes, deaths included, leaves the
   file that its sections leave one after another in the order of their saves.
   */
  lemma {:induction false} LockSerializes(c: Config, moves: seq<Move>)
    ensures Inv(c, Reach(c, true, moves))
  {
    hide Next, Inv;
    if moves == [] {
      StartIsSerial(c);
    } else {
      LockSerializes(c, moves[..|moves| - 1]);
      NextKeepsInv(c, Reach(c, true, moves[..|moves| - 1]), moves[|moves| - 1]);
    }
  }

  lemma StartIsSerial(c: Config)
    ensures Inv(c, START)
  {
  }

  function OneByOne(a: Op, b: Op): seq<Move> {
    [Begin(0, a), Begin(1, b), Acquire(0), Acquire(1), Load(0), Load(1), Save(0), Save(1)]
  }

  lemma {:induction false} ReachStep(c: Config, locking: bool, moves: seq<Move>, m: Move)
    ensures Reach(c, locking, moves + [m]) == Next(c, locking, Reach(c, locking, moves), m)
  {
    assert (moves + [m])[..|moves|] == moves;
  }

  /** Both processes wait and then hold the lock that is not there. */
  function BothInside(a: Op, b: Op): System {
    START.(workers := map[0 := Holding(a), 1 := Holding(b)], holder := Some(1))
  }

  lemma UnlockedLetsBothIn(c: Config, a: Op, b: Op)
    ensures Reach(c, false, OneByOne(a, b)[..4]) == BothInside(a, b)
  {
    var ms := OneByOne(a, b);
    assert ms[..0] == [] && ms[..1] == ms[..0] + [Begin(0, a)] && ms[..2] == ms[..1] + [Begin(1, b)];
    assert ms[..3] == ms[..2] + [Acquire(0)] && ms[..4] == ms[..3] + [Acquire(1)];
    ReachStep(c, false, ms[..0], Begin(0, a));
    ReachStep(c, false, ms[..1], Begin(1, b));
    ReachStep(c, false, ms[..2], Acquire(0));
    ReachStep(c, false, ms[..3], Acquire(1));
    hide Effect;
  }

  lemma UnlockedOverwrites(c: Config, a: Op, b: Op)
    ensures var s := Reach(c, false, OneByOne(a, b)); s.log == [a, b] && s.file == Effect(EMPTY, c, b)
  {
    hide Effect;
    var ms := OneByOne(a, b);
    UnlockedLetsBothIn(c, a, b);
    assert ms[..5] == ms[..4] + [Load(0)] && ms[..6] == ms[..5] + [Load(1)];
    assert ms[..7] == ms[..6] + [Save(0)] && ms == ms[..7] + [Save(1)];
    ReachStep(c, false, ms[..4], Load(0));
    ReachStep(c, false, ms[..5], Load(1));
    ReachStep(c, false, ms[..6], Save(0));
    ReachStep(c, false, ms[..7], Save(1));
    hide Reach;
  }

  /** Without the lock one of two failures that arrive together is lost. */
  lemma UnlockedLosesFailure(c: Config)
    ensures var s := Reach(c, false, OneByOne(Record(0, "a"), Record(0, "b")));
            s.log == [Record(0, "a"), Record(0, "b")] && |s.file.failures| == 1 && |Exec(c, s.log).failures| == 2
  {
    hide Reach, Effect, Exec;
    UnlockedOverwrites(c, Record(0, "a"), Record(0, "b"));
    FirstFailureIsStored(c, 0, "b");
    SerialKeepsBoth(c);
  }

  lemma RecordedCount(c: Config, s: Circuit, now: int, reason: string)
    ensures |Effect(s, c, Record(now, reason)).failures| == |Recent(s.failures, now, c.window)| + 1
  {
    hide Recent;
  }

  lemma SerialKeepsBoth(c: Config)
    ensures |Exec(c, [Record(0, "a"), Record(0, "b")]).failures| == 2
  {
    hide Exec, Effect, Recent;
    var a, b := Record(0, "a"), Record(0, "b");
    NothingExecuted(c);
    assert [] + [a] == [a] && [a] + [b] == [a, b];
    ExecSnoc(c, [], a);
    ExecSnoc(c, [a], b);
    FirstFailureIsStored(c, 0, "a");
    OneIsRecent(c, Failure(0, "a"));
    RecordedCount(c, Exec(c, [a]), 0, "b");
  }

  lemma OneIsRecent(c: Config, f: Failure)
    ensures |Recent([f], f.at, c.window)| == 1
  {
    assert [f][..0] == [];
    assert Recent([], f.at, c.window) == [];
  }

  /** The file is that of a serial order for every interleaving exactly when the lock is there. */
  lemma SerialIffLocked(c: Config, locking: bool)
    ensures (forall moves :: Reach(c, locking, moves).file == Exec(c, Reach(c, locking, moves).log)) <==> locking
  {
    hide Reach, Exec;
    if locking {
      forall moves ensures Reach(c, true, moves).file == Exec(c, Reach(c, true, moves).log) {
        LockSerializes(c, moves);
      }
    } else {
      UnlockedLosesFailure(c);
    }
  }

  /**
   No lost failures: whatever the interleaving and the order of the times, the file shows
   every failure saved since the last reset that lies in the window ending at the latest time.
   */
  lemma NoLostFailures(c: Config, moves: seq<Move>, latest: int)
    requires NotAfter(Reach(c, true, moves).log, latest)
    ensures var s := Reach(c, true, moves);
            Recent(s.file.failures, latest, c.window) == Recent(History(s.log), latest, c.window)
  {
    LockSerializes(c, moves);
    StoredIsHistory(c, Reach(c, true, moves).log, latest);
    hide Reach, Recent, Exec, History;
  }

  /** A threshold of failures inside one window always trips the breaker, however their sections interleave. */
  lemma ConcurrentBurstTrips(c: Config, moves: seq<Move>, latest: int)
    requires var log := Reach(c, true, moves).log;
             log != [] && log[|log| - 1].Record? && NotAfter(log, latest)
                 && |Recent(History(log), latest, c.window)| >= c.threshold
    ensures var s := Reach(c, true, moves); IsActive(s.file, s.log[|s.log| - 1].now)
  {
    LockSerializes(c, moves);
    BurstTrips(c, Reach(c, true, moves).log, latest);
    hide Reach, Recent, Exec, History;
  }
}
