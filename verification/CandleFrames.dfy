/**
 Candle frames of the replay audit: bars stamped with their opening minute (UTC),
 and the NSE session clock they are validated and grouped against.
 */
module CandleFrames {
  import opened Ohlcv

  datatype Bar = Bar(ts: int, quote: Quote)

  const IST_OFFSET := 330
  const DAY_MINUTES := 1440
  const SESSION_OPEN_MINUTE := 9 * 60 + 15
  const SESSION_CLOSE_MINUTE := 15 * 60 + 30

  /** The IST calendar day, counted from 1970-01-01. */
  function Day(ts: int): int { (ts + IST_OFFSET) / DAY_MINUTES }

  function MinuteOfDay(ts: int): int { (ts + IST_OFFSET) % DAY_MINUTES }

  function SessionOffset(ts: int): int { MinuteOfDay(ts) - SESSION_OPEN_MINUTE }

  /** Monday is 0; 1970-01-01 was a Thursday. */
  function DayOfWeek(ts: int): int { (Day(ts) + 3) % 7 }

  ghost predicate Increasing(frame: seq<Bar>) {
    forall i, j :: 0 <= i < j < |frame| ==> frame[i].ts < frame[j].ts
  }

  /** Strictly increasing bars, each opening a whole number of steps after the session open. */
  ghost predicate Aligned(frame: seq<Bar>, step: nat)
    requires step >= 1
  {
    Increasing(frame) && forall i :: 0 <= i < |frame| ==> SessionOffset(frame[i].ts) % step == 0
  }

  function QuotesOf(frame: seq<Bar>): seq<Quote> {
    seq(|frame|, i requires 0 <= i < |frame| => frame[i].quote)
  }

  // ----- sorting by time

  function Insert(sorted: seq<Bar>, bar: Bar): seq<Bar> {
    if sorted == [] || sorted[|sorted| - 1].ts <= bar.ts then sorted + [bar]
    else Insert(sorted[..|sorted| - 1], bar) + [sorted[|sorted| - 1]]
  }

  function SortByTime(frame: seq<Bar>): seq<Bar> {
    if frame == [] then [] else Insert(SortByTime(frame[..|frame| - 1]), frame[|frame| - 1])
  }

  ghost predicate NonDecreasing(frame: seq<Bar>) {
    forall i, j :: 0 <= i < j < |frame| ==> frame[i].ts <= frame[j].ts
  }

  lemma {:induction false} InsertSorts(sorted: seq<Bar>, bar: Bar)
    requires NonDecreasing(sorted)
    ensures NonDecreasing(Insert(sorted, bar))
    ensures multiset(Insert(sorted, bar)) == multiset(sorted) + multiset{bar}
  {
    if sorted != [] && sorted[|sorted| - 1].ts > bar.ts {
      var front, last := sorted[..|sorted| - 1], sorted[|sorted| - 1];
      InsertSorts(front, bar);
      assert sorted == front + [last];
      var r := Insert(front, bar);
      assert Insert(sorted, bar) == r + [last];
      hide Insert;
      forall i | 0 <= i < |r| ensures r[i].ts <= last.ts {
        assert r[i] in multiset(r);
      }
    }
  }

  lemma {:induction false} SortSorts(frame: seq<Bar>)
    ensures NonDecreasing(SortByTime(frame))
    ensures multiset(SortByTime(frame)) == multiset(frame)
  {
    if frame != [] {
      var front, last := frame[..|frame| - 1], frame[|frame| - 1];
      SortSorts(front);
      InsertSorts(SortByTime(front), last);
      assert frame == front + [last];
    }
  }

  /** Sorting leaves a sorted frame alone. */
  lemma {:induction false} SortOfSorted(frame: seq<Bar>)
    requires NonDecreasing(frame)
    ensures SortByTime(frame) == frame
  {
    if frame != [] {
      var front := frame[..|frame| - 1];
      SortOfSorted(front);
      assert frame == front + [frame[|frame| - 1]];
    }
  }

  /** A strictly increasing frame is determined by the bars in it. */
  lemma {:induction false} SameMembersSameFrame(xs: seq<Bar>, ys: seq<Bar>)
    requires Increasing(xs) && Increasing(ys)
    requires forall b :: b in xs <==> b in ys
    ensures xs == ys
  {
    if xs != [] {
      assert xs[0] in ys;
    }
    if ys != [] {
      assert ys[0] in xs;
    }
    if xs != [] {
      var j :| 0 <= j < |ys| && ys[j] == xs[0];
      var i :| 0 <= i < |xs| && xs[i] == ys[0];
      assert xs[0] == ys[0];
      forall b ensures b in xs[1..] <==> b in ys[1..] {
        TailMembers(xs, b);
        TailMembers(ys, b);
      }
      SameMembersSameFrame(xs[1..], ys[1..]);
      assert xs == [xs[0]] + xs[1..] && ys == [ys[0]] + ys[1..];
    }
  }

  lemma TailMembers(xs: seq<Bar>, b: Bar)
    requires xs != [] && Increasing(xs)
    ensures b in xs[1..] <==> b in xs && b != xs[0]
  {
    if b in xs && b != xs[0] {
      var i :| 0 <= i < |xs| && xs[i] == b;
      assert xs[1..][i - 1] == b;
    }
    if b in xs[1..] {
      var i :| 0 <= i < |xs[1..]| && xs[1..][i] == b;
      assert xs[i + 1] == b;
    }
  }
}
