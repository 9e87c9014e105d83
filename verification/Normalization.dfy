/**
 `normalize_candles`: a raw candle file is accepted only as a gap-free frame of sane
 bars inside the NSE session; everything else is an error.
 */
module Normalization {
  import opened Wrappers
  import opened Ohlcv
  import opened CandleFrames
  import opened Resampling

  /** A source row; a missing or non-numeric cell is None. Stamps are whole UTC minutes. */
  datatype RawBar = RawBar(ts: int, open: Option<real>, high: Option<real>, low: Option<real>,
                           close: Option<real>, volume: Option<real>)

  predicate Priced(row: RawBar) {
    row.open.Some? && row.high.Some? && row.low.Some? && row.close.Some?
  }

  /** A priced row as a bar; `shift` moves a closing stamp to the opening one. */
  function ToBar(row: RawBar, shift: int): Bar
    requires Priced(row)
  {
    Bar(row.ts - shift, Quote(row.open.value, row.high.value, row.low.value, row.close.value,
                              if row.volume.Some? then row.volume.value else 0.0))
  }

  function ToBars(source: seq<RawBar>, shift: int): (r: seq<Bar>)
    requires AllPriced(source)
    ensures |r| == |source|
    ensures forall i :: 0 <= i < |source| ==> r[i] == ToBar(source[i], shift)
  {
    seq(|source|, i requires 0 <= i < |source| => ToBar(source[i], shift))
  }

  predicate AllPriced(source: seq<RawBar>) {
    forall i :: 0 <= i < |source| ==> Priced(source[i])
  }

  predicate Distinct(source: seq<RawBar>) {
    forall i, j :: 0 <= i < j < |source| ==> source[i].ts != source[j].ts
  }

  predicate AllPossible(bars: seq<Bar>) {
    forall i :: 0 <= i < |bars| ==> Sane(bars[i].quote)
  }

  predicate InSession(ts: int, minutes: nat)
    requires minutes >= 1
  {
    && DayOfWeek(ts) < 5
    && SessionOffset(ts) >= 0
    && MinuteOfDay(ts) + minutes <= SESSION_CLOSE_MINUTE
    && SessionOffset(ts) % minutes == 0
  }

  predicate AllInSession(frame: seq<Bar>, minutes: nat)
    requires minutes >= 1
  {
    forall i :: 0 <= i < |frame| ==> InSession(frame[i].ts, minutes)
  }

  /** Within one IST day, consecutive bars are exactly one interval apart. */
  predicate GapFree(frame: seq<Bar>, minutes: nat) {
    forall i :: 1 <= i < |frame| && Day(frame[i].ts) == Day(frame[i - 1].ts) ==>
        frame[i].ts - frame[i - 1].ts == minutes
  }

  function Normalize(source: seq<RawBar>, minutes: int, role: string): Result<seq<Bar>, ReplayError> {
    if minutes != 1 && minutes != 5 then Err(UnsupportedSource)
    else if role != "open" && role != "close" then Err(UnknownTimestampRole)
    else if source == [] then Err(NoCandles)
    else if !Distinct(source) then Err(DuplicateTimestamps)
    else if !AllPriced(source) then Err(MissingPrice)
    else
      var bars := ToBars(source, if role == "close" then minutes else 0);
      if !AllPossible(bars) then Err(ImpossiblePrice)
      else
        var frame := SortByTime(bars);
        if !GapFree(frame, minutes) then Err(IrregularInterval)
        else if !AllInSession(frame, minutes) then Err(OutsideSession)
        else Ok(frame)
  }

  /** What the replay may rely on. */
  ghost predicate Normalized(frame: seq<Bar>, minutes: nat)
    requires minutes >= 1
  {
    && frame != []
    && Aligned(frame, minutes)
    && GapFree(frame, minutes)
    && AllPossible(frame)
    && AllInSession(frame, minutes)
  }

  lemma {:induction false} InsertIncreasing(sorted: seq<Bar>, bar: Bar)
    requires Increasing(sorted)
    requires forall b :: b in sorted ==> b.ts != bar.ts
    ensures Increasing(Insert(sorted, bar))
  {
    if sorted != [] && sorted[|sorted| - 1].ts > bar.ts {
      var front, last := sorted[..|sorted| - 1], sorted[|sorted| - 1];
      assert sorted == front + [last];
      InsertIncreasing(front, bar);
      InsertSorts(front, bar);
      var r := Insert(front, bar);
      assert Insert(sorted, bar) == r + [last];
      hide Insert;
      forall i | 0 <= i < |r| ensures r[i].ts < last.ts {
        assert r[i] in multiset(r);
      }
    } else if sorted != [] {
      assert sorted[|sorted| - 1] in sorted;
    }
  }

  lemma {:induction false} SortIncreasing(bars: seq<Bar>)
    requires forall i, j :: 0 <= i < j < |bars| ==> bars[i].ts != bars[j].ts
    ensures Increasing(SortByTime(bars))
  {
    if bars != [] {
      var front, last := bars[..|bars| - 1], bars[|bars| - 1];
      SortIncreasing(front);
      SortSorts(front);
      forall b | b in SortByTime(front) ensures b.ts != last.ts {
        assert b in multiset(front);
        assert b in front;
      }
      InsertIncreasing(SortByTime(front), last);
    }
  }

  /** An accepted file yields a normalized frame of exactly its own bars. */
  lemma AcceptedIsNormalized(source: seq<RawBar>, minutes: int, role: string)
    requires Normalize(source, minutes, role).Ok?
    ensures minutes >= 1 && Normalized(Normalize(source, minutes, role).value, minutes)
    ensures AllPriced(source)
    ensures multiset(Normalize(source, minutes, role).value)
            == multiset(ToBars(source, if role == "close" then minutes else 0))
  {
    var bars := ToBars(source, if role == "close" then minutes else 0);
    var frame := SortByTime(bars);
    SortSorts(bars);
    SortIncreasing(bars);
    assert |multiset(frame)| == |multiset(bars)|;
    forall i | 0 <= i < |frame| ensures Sane(frame[i].quote) {
      assert frame[i] in multiset(frame);
      assert frame[i] in bars;
    }
  }

  function ToRaw(bar: Bar): RawBar {
    RawBar(bar.ts, Some(bar.quote.open), Some(bar.quote.high), Some(bar.quote.low), Some(bar.quote.close),
           Some(bar.quote.volume))
  }

  function ToRaws(frame: seq<Bar>): (r: seq<RawBar>)
    ensures |r| == |frame|
    ensures forall i :: 0 <= i < |frame| ==> r[i] == ToRaw(frame[i])
  {
    seq(|frame|, i requires 0 <= i < |frame| => ToRaw(frame[i]))
  }

  /** Normalized frames are exactly the frames that normalization leaves alone. */
  lemma NormalizedIsFixed(frame: seq<Bar>, minutes: int)
    requires minutes == 1 || minutes == 5
    ensures Normalized(frame, minutes) <==> Normalize(ToRaws(frame), minutes, "open") == Ok(frame)
  {
    if Normalize(ToRaws(frame), minutes, "open") == Ok(frame) {
      AcceptedIsNormalized(ToRaws(frame), minutes, "open");
    }
    if Normalized(frame, minutes) {
      NormalizedIsAccepted(frame, minutes);
    }
  }

  lemma NormalizedIsAccepted(frame: seq<Bar>, minutes: int)
    requires minutes == 1 || minutes == 5
    requires Normalized(frame, minutes)
    ensures Normalize(ToRaws(frame), minutes, "open") == Ok(frame)
  {
    hide GapFree, AllInSession, AllPossible, SortByTime;
    var source := ToRaws(frame);
    assert Distinct(source);
    assert ToBars(source, 0) == frame;
    hide Distinct, AllPriced;
    SortOfSorted(frame);
  }

  function Shift(source: seq<RawBar>, minutes: int): (r: seq<RawBar>)
    ensures |r| == |source|
    ensures forall i :: 0 <= i < |source| ==> r[i] == source[i].(ts := source[i].ts + minutes)
  {
    seq(|source|, i requires 0 <= i < |source| => source[i].(ts := source[i].ts + minutes))
  }

  /** Stamping the same bars with their close instead of their open changes nothing, errors included. */
  lemma CloseStampsEquivalent(source: seq<RawBar>, minutes: int)
    ensures Normalize(Shift(source, minutes), minutes, "close") == Normalize(source, minutes, "open")
  {
    var shifted := Shift(source, minutes);
    assert forall i :: 0 <= i < |source| ==> Priced(shifted[i]) == Priced(source[i]);
    assert Distinct(shifted) <==> Distinct(source) by {
      assert forall i :: 0 <= i < |source| ==> shifted[i].ts == source[i].ts + minutes;
    }
    assert AllPriced(shifted) <==> AllPriced(source);
    if AllPriced(source) {
      assert ToBars(shifted, minutes) == ToBars(source, 0);
    }
  }
}
