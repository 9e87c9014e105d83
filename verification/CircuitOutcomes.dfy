/** What a failure and a status request leave of the breaker's state file, and what they report. */
module CircuitOutcomes {
  import opened Wrappers
  import opened CircuitBreaker

  /** How many of the first n failures lie in the window that ends now, its far end included. */
  function InWindow(failures: seq<Failure>, now: int, window: int, n: nat): (r: nat)
    requires n <= |failures|
    ensures r <= n
  {
    if n == 0 then 0
    else InWindow(failures, now, window, n - 1) + if now - failures[n - 1].at <= window then 1 else 0
  }

  /** Those failures in order, a missing reason replaced, and nothing else. */
  ghost predicate KeepsWindow(kept: seq<Failure>, failures: seq<Failure>, now: int, window: int) {
    && |kept| == InWindow(failures, now, window, |failures|)
    && forall i :: 0 <= i < |failures| && now - failures[i].at <= window ==>
         var place := InWindow(failures, now, window, i);
         && place < |kept| && kept[place].at == failures[i].at
         && kept[place].reason == if failures[i].reason == "" then "broker_failure" else failures[i].reason
  }

  lemma {:induction false} InWindowOfPrefix(failures: seq<Failure>, now: int, window: int, m: nat, n: nat)
    requires n <= m <= |failures|
    ensures InWindow(failures[..m], now, window, n) == InWindow(failures, now, window, n)
  {
    if n > 0 {
      InWindowOfPrefix(failures, now, window, m, n - 1);
    }
  }

  lemma OneMoreFailure(kept: seq<Failure>, failures: seq<Failure>, f: Failure, now: int, window: int)
    requires KeepsWindow(kept, failures, now, window)
    ensures KeepsWindow(kept + if now - f.at <= window then [Named(f)] else [], failures + [f], now, window)
  {
    var all, n := failures + [f], |failures|;
    assert all[..n] == failures;
    forall i: nat | i <= n ensures InWindow(failures, now, window, i) == InWindow(all, now, window, i) {
      InWindowOfPrefix(all, now, window, n, i);
    }
    assert InWindow(all, now, window, n + 1) == |kept| + if now - f.at <= window then 1 else 0;
    forall i | 0 <= i < n ensures all[i] == failures[i] {
    }
    forall i | 0 <= i < n && now - failures[i].at <= window ensures InWindow(failures, now, window, i) < |kept| {
    }
  }

  lemma {:induction false} RecentKeepsWindow(failures: seq<Failure>, now: int, window: int)
    ensures KeepsWindow(Recent(failures, now, window), failures, now, window)
  {
    hide Named, InWindow;
    if failures != [] {
      var n := |failures| - 1;
      RecentKeepsWindow(failures[..n], now, window);
      OneMoreFailure(Recent(failures[..n], now, window), failures[..n], failures[n], now, window);
      assert failures == failures[..n] + [failures[n]];
    }
  }

  /** The breaker is open and its cooldown, if it has one, still runs. */
  predicate Holding(s: Circuit, now: int) {
    && s.active
    && match s.cooldownUntil
       case None => true
       case Some(until) => now < until
  }

  /** The failure joins those of the window; the threshold opens a breaker that does not hold, with a new cooldown. */
  lemma RecordOutcome(s: Circuit, c: Config, now: int, reason: string)
    ensures var r, count := Recorded(s, c, now, reason), InWindow(s.failures, now, c.window, |s.failures|) + 1;
            && |r.failures| == count && r.failures[count - 1] == Failure(now, reason)
            && KeepsWindow(r.failures[..count - 1], s.failures, now, c.window)
            && r.updatedAt == Some(now) && r.deactivatedAt == s.deactivatedAt
            && if count >= c.threshold && !Holding(s, now)
               then && r.active && r.reason == Some(count) && r.activatedAt == Some(now)
                    && r.cooldownUntil == Some(now + c.cooldown)
               else && r.active == s.active && r.reason == s.reason && r.activatedAt == s.activatedAt
                    && r.cooldownUntil == s.cooldownUntil
  {
    hide Recent, KeepsWindow;
    RecentKeepsWindow(s.failures, now, c.window);
    var recent := Recent(s.failures, now, c.window);
    assert (recent + [Failure(now, reason)])[..|recent|] == recent;
    assert |recent| == InWindow(s.failures, now, c.window, |s.failures|) by {
      KeptCount(recent, s.failures, now, c.window);
    }
  }

  lemma KeptCount(kept: seq<Failure>, failures: seq<Failure>, now: int, window: int)
    requires KeepsWindow(kept, failures, now, window)
    ensures |kept| == InWindow(failures, now, window, |failures|)
  {
  }

  /** A status request takes back what no longer holds, and reports times and reason only of what holds. */
  lemma StatusOutcome(s: Circuit, c: Config, now: int)
    ensures var r := Refreshed(s, c, now);
            if !s.active || Holding(s, now) then r == s
            else
              && KeepsWindow(r.failures, s.failures, now, c.window)
              && r == s.(active := false, deactivatedAt := Some(now), failures := r.failures)
    ensures var report, count := ReportOf(s, c, now), InWindow(s.failures, now, c.window, |s.failures|);
            && report.active == Holding(s, now) && report.failureCount == count && report.settings == c
            && report.updatedAt == s.updatedAt
            && report.reason == (if Holding(s, now) then s.reason else None)
            && report.activatedAt == (if Holding(s, now) then s.activatedAt else None)
            && report.cooldownUntil == (if Holding(s, now) then s.cooldownUntil else None)
            && (count == 0 ==> report.lastFailureAt.None?)
            && forall i :: 0 <= i < |s.failures| && now - s.failures[i].at <= c.window
                           && InWindow(s.failures, now, c.window, i) == count - 1 ==>
                             report.lastFailureAt == Some(s.failures[i].at)
  {
    hide Recent;
    RecentKeepsWindow(s.failures, now, c.window);
  }
}
