/**
 The candle-close replay and its report. Indicators and detectors are arbitrary pure
 functions of the bars they are shown.
 */
module Replay {
  import opened Wrappers
  import opened CandleFrames
  import opened Resampling
  import opened ResampleLaws
  import opened Normalization

  datatype Side = Buy | Sell
  datatype Htf = Htf(side: Option<Side>, trend: string)
  datatype Trigger = Trigger(valid: bool, kind: string)
  datatype Zone = Zone(kind: string, low: real, high: real)

  /**
   trend: the 15m analysis of the completed 15m bars; trigger and zones: the 5m
   detectors on the prepared prefix; lastClose: the last prepared close; round: to four places.
   */
  datatype Detectors = Detectors(
    trend: seq<Bar> -> Htf,
    trigger: (seq<Bar>, Side) -> Trigger,
    zones: seq<Bar> -> seq<Zone>,
    aligns: (Zone, Side) -> bool,
    lastClose: seq<Bar> -> real,
    round: real -> real)

  datatype Event = Event(asofClose: int, spotClose: real, trend: string, trigger: string, side: Side,
                         historyBars: nat, zones: seq<Zone>)

  /** The 15m bars already closed at `closeAt`. */
  function Completed(rows: seq<Bar>, closeAt: int): seq<Bar> {
    if rows == [] then []
    else
      var front, last := rows[..|rows| - 1], rows[|rows| - 1];
      if last.ts + 15 <= closeAt then Completed(front, closeAt) + [last] else Completed(front, closeAt)
  }

  function ZoneList(zones: seq<Zone>, side: Side, d: Detectors): seq<Zone> {
    if zones == [] then []
    else
      var z := zones[0];
      (if d.aligns(z, side) && (z.kind == "fair_value_gap" || z.kind == "order_block")
       then [Zone(z.kind, d.round(z.low), d.round(z.high))] else []) + ZoneList(zones[1..], side, d)
  }

  /** The event, if any, of the close of bar i. */
  function EventAt(frame: seq<Bar>, rows: seq<Bar>, i: nat, d: Detectors): Option<Event>
    requires i < |frame|
  {
    var closeAt := frame[i].ts + 5;
    var completed := Completed(rows, closeAt);
    if |completed| < 8 then None
    else
      var htf := d.trend(completed);
      if htf.side.None? then None
      else
        var prefix := frame[..i + 1];
        var trigger := d.trigger(prefix, htf.side.value);
        if !trigger.valid then None
        else Some(Event(closeAt, d.round(d.lastClose(prefix)), htf.trend, trigger.kind, htf.side.value,
                        |completed|, ZoneList(d.zones(prefix), htf.side.value, d)))
  }

  /** The events of bars 29 .. n-1. */
  function Events(frame: seq<Bar>, rows: seq<Bar>, n: nat, d: Detectors): seq<Event>
    requires n <= |frame|
  {
    if n <= 29 then []
    else
      var e := EventAt(frame, rows, n - 1, d);
      Events(frame, rows, n - 1, d) + (if e.Some? then [e.value] else [])
  }

  function ReplayOf(frame: seq<Bar>, d: Detectors): seq<Event> {
    var rows := Resample(frame, 5, 15);
    if |frame| < 30 || |rows| < 8 then [] else Events(frame, rows, |frame|, d)
  }

  method ReplayFrame(frame: seq<Bar>, d: Detectors) returns (events: seq<Event>)
    ensures events == ReplayOf(frame, d)
  {
    hide Resample, Completed, ZoneList;
    events := [];
    var resampled := ResampleComplete(frame, 5, 15);
    var rows := resampled.value;
    if |frame| < 30 || |rows| < 8 {
      return;
    }
    for i := 29 to |frame|
      invariant events == Events(frame, rows, i, d)
    {
      var closeAt := frame[i].ts + 5;
      var completed := Completed(rows, closeAt);
      if |completed| >= 8 {
        var htf := d.trend(completed);
        if htf.side.Some? {
          var prefix := frame[..i + 1];
          var trigger := d.trigger(prefix, htf.side.value);
          if trigger.valid {
            events := events + [Event(closeAt, d.round(d.lastClose(prefix)), htf.trend, trigger.kind, htf.side.value,
                                      |completed|, ZoneList(d.zones(prefix), htf.side.value, d))];
          }
        }
      }
    }
  }

  // ----- causality

  lemma {:induction false} CompletedMembers(rows: seq<Bar>, closeAt: int)
    requires Increasing(rows)
    ensures Increasing(Completed(rows, closeAt))
    ensures forall b :: b in Completed(rows, closeAt) <==> b in rows && b.ts + 15 <= closeAt
    ensures |Completed(rows, closeAt)| <= |rows|
  {
    if rows != [] {
      var front, last := rows[..|rows| - 1], rows[|rows| - 1];
      CompletedMembers(front, closeAt);
      assert rows == front + [last];
      var c := Completed(front, closeAt);
      forall i | 0 <= i < |c| ensures c[i].ts < last.ts {
        assert c[i] in front;
      }
    }
  }

  /** Bars from index m on do not matter to an interval that ends before them. */
  lemma {:induction false} PickPrefix(frame: seq<Bar>, m: nat, lo: int, hi: int)
    requires m <= |frame|
    requires forall i :: m <= i < |frame| ==> hi <= frame[i].ts
    ensures Pick(frame, lo, hi) == Pick(frame[..m], lo, hi)
    decreases |frame| - m
  {
    if m < |frame| {
      var front := frame[..|frame| - 1];
      PickPrefix(front, m, lo, hi);
      assert front[..m] == frame[..m];
    } else {
      assert frame[..m] == frame;
    }
  }

  lemma AlignedPrefix(frame: seq<Bar>, m: nat, step: nat)
    requires step >= 1 && m <= |frame| && Aligned(frame, step)
    ensures Aligned(frame[..m], step)
  {
  }

  /** The group of a 15m bar closed at bar i's close lies within the first m > i bars. */
  lemma ClosedGroup(frame: seq<Bar>, m: nat, i: nat, key: Key)
    requires Aligned(frame, 5) && i < m <= |frame|
    requires SlotStart(key, 15) + 15 <= frame[i].ts + 5
    ensures RowAt(frame, key, 5, 15) == RowAt(frame[..m], key, 5, 15)
  {
    var lo, hi := Clip(key.day, SlotStart(key, 15)), Clip(key.day, SlotStart(key, 15) + 15);
    GroupIsPick(frame, key, 15);
    GroupIsPick(frame[..m], key, 15);
    if hi <= frame[i].ts + 5 {
      forall k | m <= k < |frame| ensures hi <= frame[k].ts {
        FiveApart(frame[i].ts, frame[k].ts);
      }
      PickPrefix(frame, m, lo, hi);
    } else {
      // The slot was clipped to a later day start: its interval is empty.
      assert lo == hi == DayStart(key.day);
      PickNone(frame, lo);
      PickNone(frame[..m], lo);
    }
  }

  lemma FiveApart(x: int, y: int)
    requires x < y && SessionOffset(x) % 5 == 0 && SessionOffset(y) % 5 == 0
    ensures x + 5 <= y
  {
    OnGrid(x);
    OnGrid(y);
  }

  /** Day length, IST offset and session open are all multiples of five minutes. */
  lemma OnGrid(ts: int)
    requires SessionOffset(ts) % 5 == 0
    ensures ts % 5 == 0
  {
    var d, o := Day(ts), SessionOffset(ts);
    assert ts == DAY_MINUTES * d - IST_OFFSET + SESSION_OPEN_MINUTE + o;
    assert ts == 5 * (288 * d - 66 + 111 + o / 5);
  }

  /** What is known of the 15m bars at bar i's close is the same with or without the future. */
  lemma CompletedIsCausal(frame: seq<Bar>, m: nat, i: nat)
    requires Aligned(frame, 5) && i < m <= |frame|
    ensures Completed(Resample(frame, 5, 15), frame[i].ts + 5)
            == Completed(Resample(frame[..m], 5, 15), frame[i].ts + 5)
  {
    var past, closeAt := frame[..m], frame[i].ts + 5;
    var rows, rows' := Resample(frame, 5, 15), Resample(past, 5, 15);
    AlignedPrefix(frame, m, 5);
    ResampleMembers(frame, 5, 15);
    ResampleMembers(past, 5, 15);
    CompletedMembers(rows, closeAt);
    CompletedMembers(rows', closeAt);
    forall b: Bar | b.ts + 15 <= closeAt
      ensures RowAt(frame, KeyOf(b.ts, 15), 5, 15) == Some(b) <==> RowAt(past, KeyOf(b.ts, 15), 5, 15) == Some(b)
    {
      var key := KeyOf(b.ts, 15);
      RowOfAligned(frame, key, 5, 3);
      RowOfAligned(past, key, 5, 3);
      if b.ts == SlotStart(key, 15) {
        ClosedGroup(frame, m, i, key);
      }
    }
    SameMembersSameFrame(Completed(rows, closeAt), Completed(rows', closeAt));
  }

  lemma EventIsCausal(frame: seq<Bar>, m: nat, i: nat, d: Detectors)
    requires Aligned(frame, 5) && i < m <= |frame|
    ensures EventAt(frame, Resample(frame, 5, 15), i, d) == EventAt(frame[..m], Resample(frame[..m], 5, 15), i, d)
  {
    hide Resample, Completed, ZoneList, Aligned;
    CompletedIsCausal(frame, m, i);
    assert frame[..m][..i + 1] == frame[..i + 1];
  }

  lemma {:induction false} EventsAreCausal(frame: seq<Bar>, m: nat, n: nat, d: Detectors)
    requires Aligned(frame, 5) && n <= m <= |frame|
    ensures Events(frame, Resample(frame, 5, 15), n, d) == Events(frame[..m], Resample(frame[..m], 5, 15), n, d)
  {
    hide Resample, EventAt, Aligned;
    if n > 29 {
      EventsAreCausal(frame, m, n - 1, d);
      EventIsCausal(frame, m, n - 1, d);
    }
  }

  /** The early return of `replay` is redundant: too little history has no events anyway. */
  lemma {:induction false} NoHistoryNoEvents(frame: seq<Bar>, rows: seq<Bar>, n: nat, d: Detectors)
    requires n <= |frame| && Increasing(rows) && |rows| < 8
    ensures Events(frame, rows, n, d) == []
  {
    if n > 29 {
      NoHistoryNoEvents(frame, rows, n - 1, d);
      CompletedMembers(rows, frame[n - 1].ts + 5);
    }
  }

  lemma ReplayIsEvents(frame: seq<Bar>, d: Detectors)
    ensures ReplayOf(frame, d) == Events(frame, Resample(frame, 5, 15), |frame|, d)
  {
    ResampleMembers(frame, 5, 15);
    if |frame| >= 30 && |Resample(frame, 5, 15)| < 8 {
      NoHistoryNoEvents(frame, Resample(frame, 5, 15), |frame|, d);
    }
  }

  /** The events closed at or before the cutoff. */
  function Until(events: seq<Event>, cutoff: int): seq<Event> {
    if events == [] then []
    else
      var front, last := events[..|events| - 1], events[|events| - 1];
      if last.asofClose <= cutoff then Until(front, cutoff) + [last] else Until(front, cutoff)
  }

  lemma EventStamp(frame: seq<Bar>, rows: seq<Bar>, i: nat, d: Detectors)
    requires i < |frame|
    ensures EventAt(frame, rows, i, d).Some? ==> EventAt(frame, rows, i, d).value.asofClose == frame[i].ts + 5
  {
  }

  lemma {:induction false} UntilEvents(frame: seq<Bar>, rows: seq<Bar>, m: nat, n: nat, d: Detectors)
    requires Increasing(frame) && 1 <= m <= |frame| && n <= |frame|
    ensures Until(Events(frame, rows, n, d), frame[m - 1].ts + 5) == Events(frame, rows, if n <= m then n else m, d)
  {
    if n > 29 {
      UntilEvents(frame, rows, m, n - 1, d);
      EventStamp(frame, rows, n - 1, d);
      hide EventAt;
      var e := EventAt(frame, rows, n - 1, d);
      assert n <= m ==> frame[n - 1].ts <= frame[m - 1].ts;
      assert n > m ==> frame[m - 1].ts < frame[n - 1].ts;
      var front := Events(frame, rows, n - 1, d);
      if e.None? {
        assert Events(frame, rows, n, d) == front;
      } else {
        assert (front + [e.value])[..|front|] == front;
        assert Events(frame, rows, n, d) == front + [e.value];
      }
    }
  }

  /**
   No look-ahead: replaying the first m bars gives exactly the events of the full
   replay that were closed by the close of bar m-1, whatever the detectors compute.
   */
  lemma ReplayIsCausal(frame: seq<Bar>, m: nat, d: Detectors)
    requires Aligned(frame, 5) && 1 <= m <= |frame|
    ensures ReplayOf(frame[..m], d) == Until(ReplayOf(frame, d), frame[m - 1].ts + 5)
  {
    ReplayIsEvents(frame, d);
    ReplayIsEvents(frame[..m], d);
    EventsAreCausal(frame, m, m, d);
    UntilEvents(frame, Resample(frame, 5, 15), m, |frame|, d);
  }

  // ----- the report

  datatype Report = Report(firstCandle: int, lastCandle: int, complete5m: nat, complete15m: nat, events: seq<Event>)

  function ReportOf(frame: seq<Bar>, d: Detectors): Result<Report, ReplayError> {
    var fifteen := Resample(frame, 5, 15);
    if |frame| < 30 || |fifteen| < 8 then Err(InsufficientHistory)
    else
      var events := ReplayOf(frame, d);
      var prefix := frame[..|frame| / 2];
      if |prefix| >= 30 && Until(events, prefix[|prefix| - 1].ts + 5) != ReplayOf(prefix, d) then Err(SignalsChanged)
      else Ok(Report(frame[0].ts, frame[|frame| - 1].ts, |frame|, |fifteen|, events))
  }

  method MakeReport(frame: seq<Bar>, d: Detectors) returns (r: Result<Report, ReplayError>)
    ensures r == ReportOf(frame, d)
  {
    hide Resample, ReplayOf, Until;
    var resampled := ResampleComplete(frame, 5, 15);
    var fifteen := resampled.value;
    if |frame| < 30 || |fifteen| < 8 {
      return Err(InsufficientHistory);
    }
    var events := ReplayFrame(frame, d);
    var cutoffIndex := |frame| / 2;
    var historicalPrefix := frame[..cutoffIndex];
    if |historicalPrefix| >= 30 {
      var earlier := ReplayFrame(historicalPrefix, d);
      var cutoff := historicalPrefix[|historicalPrefix| - 1].ts + 5;
      var comparable := Until(events, cutoff);
      if comparable != earlier {
        return Err(SignalsChanged);
      }
    }
    return Ok(Report(frame[0].ts, frame[|frame| - 1].ts, |frame|, |fifteen|, events));
  }

  /** On aligned frames the run-time prefix check cannot fail: missing history is the only error. */
  lemma PrefixCheckNeverFires(frame: seq<Bar>, d: Detectors)
    requires Aligned(frame, 5)
    ensures ReportOf(frame, d) != Err(SignalsChanged)
    ensures ReportOf(frame, d).Ok? <==> |frame| >= 30 && |Resample(frame, 5, 15)| >= 8
    ensures ReportOf(frame, d).Err? ==> ReportOf(frame, d).error == InsufficientHistory
    ensures ReportOf(frame, d).Ok? ==>
              var report, last := ReportOf(frame, d).value, frame[|frame| - 1];
              && report.firstCandle == frame[0].ts && report.lastCandle == last.ts && report.complete5m == |frame|
              && report.complete15m == |Resample(frame, 5, 15)| && report.events == ReplayOf(frame, d)
  {
    hide Resample, ReplayOf, Until;
    if |frame| >= 60 {
      ReplayIsCausal(frame, |frame| / 2, d);
    }
  }

  /** The command: normalize, lift 1m bars to 5m, report. No accepted file fails the prefix check. */
  method RunAudit(source: seq<RawBar>, minutes: int, role: string, d: Detectors)
    returns (r: Result<Report, ReplayError>)
    ensures r != Err(SignalsChanged)
    ensures var normalized := Normalize(source, minutes, role);
            r == if normalized.Err? then Err(normalized.error)
                 else ReportOf(if minutes == 1 then Resample(normalized.value, 1, 5) else normalized.value, d)
  {
    hide Resample, ReportOf, SortByTime;
    var normalized := Normalize(source, minutes, role);
    if normalized.Err? {
      return Err(normalized.error);
    }
    AcceptedIsNormalized(source, minutes, role);
    var frame := normalized.value;
    if minutes == 1 {
      var five := ResampleComplete(frame, 1, 5);
      ResampleAligned(frame, 1, 5);
      frame := five.value;
    }
    r := MakeReport(frame, d);
    PrefixCheckNeverFires(frame, d);
  }
}
