/** Which candle files `normalize_candles` accepts, read off the rows of the file, and what it returns for them. */
module NormalizationOutcomes {
  import opened Wrappers
  import opened Ohlcv
  import opened CandleFrames
  import opened Resampling
  import opened Normalization

  /** Minutes by which a stamp of this role is late. */
  function Late(minutes: int, role: string): int { if role == "close" then minutes else 0 }

  /** No other row lies between these two in time. */
  predicate Neighbours(source: seq<RawBar>, i: nat, j: nat)
    requires i < |source| && j < |source|
  {
    && source[i].ts < source[j].ts
    && forall k :: 0 <= k < |source| ==> source[k].ts <= source[i].ts || source[j].ts <= source[k].ts
  }

  /** Two opening stamps of one Indian day. */
  predicate SameDay(x: int, y: int) { (x + 330) / 1440 == (y + 330) / 1440 }

  ghost predicate RegularGaps(source: seq<RawBar>, minutes: int, late: int) {
    forall i: nat, j: nat :: i < |source| && j < |source| && Neighbours(source, i, j)
                             && SameDay(source[i].ts - late, source[j].ts - late) ==>
                               source[j].ts - source[i].ts == minutes
  }

  /** From Monday to Friday, on the grid that begins at 9:15, and over by 15:30. */
  predicate InHours(ts: int, minutes: int)
    requires minutes >= 1
  {
    var day, minute := (ts + 330) / 1440, (ts + 330) % 1440;
    (day + 3) % 7 < 5 && 555 <= minute && (minute - 555) % minutes == 0 && minute + minutes <= 930
  }

  predicate Possible(row: RawBar)
    requires Priced(row)
  {
    var open, high, low, close := row.open.value, row.high.value, row.low.value, row.close.value;
    && 0.0 < low && low <= open && low <= close && open <= high && close <= high
    && (row.volume.Some? ==> row.volume.value >= 0.0)
  }

  /** What is wrong with the file: the first of these faults that it has. */
  ghost function Fault(source: seq<RawBar>, minutes: int, role: string): Option<ReplayError> {
    if minutes != 1 && minutes != 5 then Some(UnsupportedSource)
    else if role != "open" && role != "close" then Some(UnknownTimestampRole)
    else if |source| == 0 then Some(NoCandles)
    else if exists i, j :: 0 <= i < j < |source| && source[i].ts == source[j].ts then Some(DuplicateTimestamps)
    else if exists i :: 0 <= i < |source| && !Priced(source[i]) then Some(MissingPrice)
    else if exists i :: 0 <= i < |source| && !Possible(source[i]) then Some(ImpossiblePrice)
    else if !RegularGaps(source, minutes, Late(minutes, role)) then Some(IrregularInterval)
    else if exists i :: 0 <= i < |source| && !InHours(source[i].ts - Late(minutes, role), minutes)
      then Some(OutsideSession)
    else None
  }

  /** The row as a bar that opens at its stamp; a missing volume is none. */
  function Opened(row: RawBar, late: int): Bar
    requires Priced(row)
  {
    Bar(row.ts - late, Quote(row.open.value, row.high.value, row.low.value, row.close.value,
                             match row.volume case Some(v) => v case None => 0.0))
  }

  lemma {:induction false} SortedHasAll(bars: seq<Bar>)
    ensures |SortByTime(bars)| == |bars|
    ensures forall b :: b in SortByTime(bars) <==> b in bars
  {
    SortSorts(bars);
    assert |multiset(SortByTime(bars))| == |multiset(bars)|;
    forall b ensures b in SortByTime(bars) <==> b in bars {
      assert b in multiset(SortByTime(bars)) <==> b in multiset(bars);
    }
  }

  /** The frame holds exactly the bars of the file, in order of time. */
  ghost predicate Orders(frame: seq<Bar>, source: seq<RawBar>, late: int)
    requires AllPriced(source)
  {
    Increasing(frame) && forall b :: b in frame <==> b in ToBars(source, late)
  }

  /** Neighbours in the frame are rows of the file with none between them. */
  lemma RowsOfPlaces(source: seq<RawBar>, late: int, frame: seq<Bar>, n: nat) returns (i: nat, j: nat)
    requires AllPriced(source) && Orders(frame, source, late) && 1 <= n < |frame|
    ensures i < |source| && j < |source| && Neighbours(source, i, j)
    ensures source[i].ts - late == frame[n - 1].ts && source[j].ts - late == frame[n].ts
  {
    var bars := ToBars(source, late);
    assert frame[n - 1] in bars && frame[n] in bars;
    i :| 0 <= i < |bars| && bars[i] == frame[n - 1];
    j :| 0 <= j < |bars| && bars[j] == frame[n];
    forall k | 0 <= k < |source| ensures source[k].ts <= source[i].ts || source[j].ts <= source[k].ts {
      assert bars[k] in frame;
      var m :| 0 <= m < |frame| && frame[m] == bars[k];
      assert m <= n - 1 || n <= m;
    }
  }

  lemma PlacesOfRows(source: seq<RawBar>, late: int, frame: seq<Bar>, i: nat, j: nat) returns (n: nat)
    requires AllPriced(source) && Orders(frame, source, late)
    requires i < |source| && j < |source| && Neighbours(source, i, j)
    ensures 1 <= n < |frame| && source[i].ts - late == frame[n - 1].ts && source[j].ts - late == frame[n].ts
  {
    var bars := ToBars(source, late);
    assert bars[i] in frame && bars[j] in frame;
    var m: nat :| m < |frame| && frame[m] == bars[i];
    n :| 0 <= n < |frame| && frame[n] == bars[j];
    assert m < n;
    assert frame[m + 1] in bars;
    var k :| 0 <= k < |bars| && bars[k] == frame[m + 1];
    assert bars[k].ts == source[k].ts - late;
    assert n == m + 1;
  }

  lemma SameDayIff(x: int, y: int)
    ensures SameDay(x, y) <==> Day(x) == Day(y)
  {
  }

  lemma RegularIsGapFree(source: seq<RawBar>, minutes: int, late: int, frame: seq<Bar>)
    requires AllPriced(source) && Orders(frame, source, late) && minutes >= 1
    requires RegularGaps(source, minutes, late)
    ensures GapFree(frame, minutes)
  {
    hide Orders, Neighbours, SameDay, Day, AllPriced;
    forall n: nat | 1 <= n < |frame| && Day(frame[n].ts) == Day(frame[n - 1].ts)
      ensures frame[n].ts - frame[n - 1].ts == minutes
    {
      var i, j := RowsOfPlaces(source, late, frame, n);
      SameDayIff(source[i].ts - late, source[j].ts - late);
    }
  }

  lemma GapFreeIsRegular(source: seq<RawBar>, minutes: int, late: int, frame: seq<Bar>)
    requires AllPriced(source) && Orders(frame, source, late) && minutes >= 1
    requires GapFree(frame, minutes)
    ensures RegularGaps(source, minutes, late)
  {
    hide Orders, Neighbours, SameDay, Day, AllPriced;
    forall i: nat, j: nat | i < |source| && j < |source| && Neighbours(source, i, j)
                            && SameDay(source[i].ts - late, source[j].ts - late)
      ensures source[j].ts - source[i].ts == minutes
    {
      var n := PlacesOfRows(source, late, frame, i, j);
      SameDayIff(source[i].ts - late, source[j].ts - late);
    }
  }

  /** The gaps of the sorted frame are those between neighbouring rows of the file. */
  lemma GapsIff(source: seq<RawBar>, minutes: int, late: int)
    requires AllPriced(source) && Distinct(source) && minutes >= 1
    ensures GapFree(SortByTime(ToBars(source, late)), minutes) <==> RegularGaps(source, minutes, late)
  {
    var frame := SortByTime(ToBars(source, late));
    SortIncreasing(ToBars(source, late));
    SortedHasAll(ToBars(source, late));
    hide SortByTime, GapFree, RegularGaps;
    if RegularGaps(source, minutes, late) {
      RegularIsGapFree(source, minutes, late, frame);
    }
    if GapFree(frame, minutes) {
      GapFreeIsRegular(source, minutes, late, frame);
    }
  }

  lemma SessionIff(source: seq<RawBar>, minutes: int, late: int)
    requires AllPriced(source) && minutes >= 1
    ensures AllInSession(SortByTime(ToBars(source, late)), minutes)
            <==> forall i :: 0 <= i < |source| ==> InHours(source[i].ts - late, minutes)
  {
    var bars := ToBars(source, late);
    var frame := SortByTime(bars);
    SortedHasAll(bars);
    hide SortByTime;
    forall i | 0 <= i < |source| ensures InHours(source[i].ts - late, minutes) <==> InSession(bars[i].ts, minutes) {
    }
    hide InHours, InSession;
    if AllInSession(frame, minutes) {
      forall i | 0 <= i < |source| ensures InSession(bars[i].ts, minutes) {
        assert bars[i] in frame;
      }
    } else {
      var n :| 0 <= n < |frame| && !InSession(frame[n].ts, minutes);
      assert frame[n] in bars;
    }
  }

  /**
   A file is accepted exactly when it has none of these faults, in any order of its rows; otherwise the error is
   its first fault. What is accepted comes back strictly ordered in time, the same bars with opening stamps.
   */
  lemma NormalizeIff(source: seq<RawBar>, minutes: int, role: string)
    ensures var r := Normalize(source, minutes, role);
            match Fault(source, minutes, role)
            case Some(fault) => r == Err(fault)
            case None =>
              && r.Ok? && Increasing(r.value) && AllPriced(source)
              && var bars := seq(|source|, i requires 0 <= i < |source| => Opened(source[i], Late(minutes, role)));
                 multiset(r.value) == multiset(bars)
  {
    hide SortByTime, GapFree, AllInSession, InHours, RegularGaps, Sane;
    var late := Late(minutes, role);
    if (minutes == 1 || minutes == 5) && (role == "open" || role == "close") && Distinct(source) && AllPriced(source) {
      var bars := ToBars(source, late);
      assert forall i :: 0 <= i < |source| ==> (Sane(bars[i].quote) <==> Possible(source[i])) by {
        SaneIff(source, late);
      }
      GapsIff(source, minutes, late);
      SessionIff(source, minutes, late);
      SortIncreasing(bars);
      SortSorts(bars);
      assert bars == seq(|source|, i requires 0 <= i < |source| => Opened(source[i], late));
    }
    hide Increasing, Possible;
  }

  lemma SaneIff(source: seq<RawBar>, late: int)
    requires AllPriced(source)
    ensures forall i :: 0 <= i < |source| ==> (Sane(ToBars(source, late)[i].quote) <==> Possible(source[i]))
  {
  }
}
