/** The broker circuit breaker: a pruned window of failures and a cooldown, kept in one state file. */
module CircuitBreaker {
  import opened Wrappers

  datatype Failure = Failure(at: int, reason: string)

  /** The state file. Times are seconds; of the reason text only the number of failures it names is kept. */
  datatype Circuit = Circuit(active: bool, reason: Option<nat>, failures: seq<Failure>, activatedAt: Option<int>,
                             cooldownUntil: Option<int>, deactivatedAt: Option<int>, updatedAt: Option<int>)

  datatype Settings = Settings(window: int, threshold: int, cooldown: int)

  /** `_int_env` never returns less than 1. */
  type Config = c: Settings | c.window >= 1 && c.threshold >= 1 && c.cooldown >= 1 witness Settings(120, 5, 300)

  datatype Report = Report(active: bool, reason: Option<nat>, failureCount: nat, settings: Settings,
                           activatedAt: Option<int>,
                           cooldownUntil: Option<int>, lastFailureAt: Option<int>, updatedAt: Option<int>)

  const EMPTY := Circuit(false, None, [], None, None, None, None)

  /** A failure as it is read back: a missing reason gets a default. */
  function Named(f: Failure): Failure { if f.reason == "" then f.(reason := "broker_failure") else f }

  /** The failures inside the window that ends now. */
  function Recent(failures: seq<Failure>, now: int, window: int): seq<Failure> {
    if failures == [] then []
    else
      var n := |failures| - 1;
      Recent(failures[..n], now, window) + if failures[n].at >= now - window then [Named(failures[n])] else []
  }

  predicate IsActive(s: Circuit, now: int) { s.active && (s.cooldownUntil.None? || s.cooldownUntil.value > now) }

  /** The locked part of `record_broker_failure`. */
  function Recorded(s: Circuit, c: Config, now: int, reason: string): Circuit {
    var failures := Recent(s.failures, now, c.window) + [Failure(now, reason)];
    var s1 := s.(failures := failures, updatedAt := Some(now));
    if |failures| >= c.threshold && !IsActive(s, now)
    then s1.(active := true, reason := Some(|failures|), activatedAt := Some(now),
             cooldownUntil := Some(now + c.cooldown))
    else s1
  }

  /** The locked part of `broker_circuit_status`: an expired activation is taken back. */
  function Refreshed(s: Circuit, c: Config, now: int): Circuit {
    if s.active && !IsActive(s, now)
    then s.(active := false, deactivatedAt := Some(now), failures := Recent(s.failures, now, c.window))
    else s
  }

  function Reset(now: int): Circuit { EMPTY.(deactivatedAt := Some(now), updatedAt := Some(now)) }

  function ReportOf(s: Circuit, c: Config, now: int): Report {
    var failures, active := Recent(s.failures, now, c.window), IsActive(s, now);
    Report(active, if active then s.reason else None, |failures|, c, if active then s.activatedAt else None,
           if active then s.cooldownUntil else None,
           if failures != [] then Some(failures[|failures| - 1].at) else None, s.updatedAt)
  }

  class Breaker {
    var state: Circuit
    const config: Config

    constructor (config: Config)
      ensures state == EMPTY && this.config == config
    {
      this.config := config;
      state := EMPTY;
    }

    method RecentFailures(now: int) returns (recent: seq<Failure>)
      ensures recent == Recent(state.failures, now, config.window)
    {
      var failures, cutoff := state.failures, now - config.window;
      recent := [];
      for i := 0 to |failures|
        invariant recent == Recent(failures[..i], now, config.window)
      {
        assert failures[..i + 1][..i] == failures[..i];
        if failures[i].at >= cutoff {
          recent := recent + [Named(failures[i])];
        }
      }
      assert failures[..|failures|] == failures;
    }

    method Status(now: int) returns (report: Report)
      modifies this`state
      ensures state == Refreshed(old(state), config, now)
      ensures report == ReportOf(old(state), config, now)
    {
      var failures := RecentFailures(now);
      var active := IsActive(state, now);
      report := Report(active, if active then state.reason else None, |failures|, config,
                       if active then state.activatedAt else None, if active then state.cooldownUntil else None,
                       if failures != [] then Some(failures[|failures| - 1].at) else None, state.updatedAt);
      if state.active && !active {
        state := state.(active := false, deactivatedAt := Some(now), failures := failures);
      }
    }

    method RecordFailure(now: int, reason: string) returns (report: Report, activated: bool)
      modifies this`state
      ensures var recorded := Recorded(old(state), config, now, reason);
              && state == Refreshed(recorded, config, now) && report == ReportOf(recorded, config, now)
              && (activated <==> recorded.active && recorded.activatedAt == Some(now) && !IsActive(old(state), now)
                                 && |recorded.failures| >= config.threshold)
    {
      hide Recent;
      var failures := RecentFailures(now);
      failures := failures + [Failure(now, reason)];
      activated := |failures| >= config.threshold && !IsActive(state, now);
      state := state.(failures := failures, updatedAt := Some(now));
      if activated {
        state := state.(active := true, reason := Some(|failures|), activatedAt := Some(now));
        state := state.(cooldownUntil := Some(now + config.cooldown));
      }
      report := Status(now);
    }

    method ResetCircuit(now: int) returns (report: Report)
      modifies this`state
      ensures state == Circuit(false, None, [], None, None, Some(now), Some(now))
      ensures state == Reset(now) && report == Report(false, None, 0, config, None, None, None, Some(now))
    {
      state := Reset(now);
      report := Status(now);
    }
  }
}
