/** Laws of `resample_complete` on aligned frames; every frame the replay handles is aligned. */
module ResampleLaws {
  import opened Wrappers
  import opened Ohlcv
  import opened CandleFrames
  import opened Resampling

  // ----- groups are time intervals

  function DayStart(day: int): int { day * DAY_MINUTES - IST_OFFSET }

  function SlotStart(key: Key, target: nat): int {
    DayStart(key.day) + SESSION_OPEN_MINUTE + key.slot * target
  }

  /** x moved into the given day. */
  function Clip(day: int, x: int): int {
    if x < DayStart(day) then DayStart(day) else if x > DayStart(day + 1) then DayStart(day + 1) else x
  }

  /** The bars with lo <= ts < hi. */
  function Pick(frame: seq<Bar>, lo: int, hi: int): seq<Bar> {
    if frame == [] then []
    else
      var front, last := frame[..|frame| - 1], frame[|frame| - 1];
      if lo <= last.ts < hi then Pick(front, lo, hi) + [last] else Pick(front, lo, hi)
  }

  lemma {:induction false} PickNone(frame: seq<Bar>, x: int)
    ensures Pick(frame, x, x) == []
  {
    if frame != [] {
      PickNone(frame[..|frame| - 1], x);
    }
  }

  lemma KeyIsInterval(ts: int, key: Key, target: nat)
    requires target >= 1
    ensures KeyOf(ts, target) == key
            <==> Clip(key.day, SlotStart(key, target)) <= ts < Clip(key.day, SlotStart(key, target) + target)
  {
    var offset := SessionOffset(ts);
    QuotientIs(offset, target, key.slot);
    assert Day(ts) == key.day <==> DayStart(key.day) <= ts < DayStart(key.day + 1);
    assert Day(ts) == key.day ==> ts == DayStart(key.day) + SESSION_OPEN_MINUTE + offset;
  }

  lemma QuotientIs(x: int, d: nat, q: int)
    requires d >= 1
    ensures x / d == q <==> q * d <= x < q * d + d
  {
    var r := x / d;
    assert x == d * r + x % d;
    if r < q {
      MulMonotone(d, r + 1, q);
    } else if r > q {
      MulMonotone(d, q + 1, r);
    }
  }

  lemma {:induction false} GroupIsPick(frame: seq<Bar>, key: Key, target: nat)
    requires target >= 1
    ensures Group(frame, key, target)
            == Pick(frame, Clip(key.day, SlotStart(key, target)), Clip(key.day, SlotStart(key, target) + target))
  {
    if frame != [] {
      GroupIsPick(frame[..|frame| - 1], key, target);
      KeyIsInterval(frame[|frame| - 1].ts, key, target);
    }
  }

  lemma {:induction false} PickMembers(frame: seq<Bar>, lo: int, hi: int)
    ensures forall b :: b in Pick(frame, lo, hi) <==> b in frame && lo <= b.ts < hi
  {
    if frame != [] {
      var front, last := frame[..|frame| - 1], frame[|frame| - 1];
      PickMembers(front, lo, hi);
      assert frame == front + [last];
    }
  }

  lemma {:induction false} PickIncreasing(frame: seq<Bar>, lo: int, hi: int)
    requires Increasing(frame)
    ensures Increasing(Pick(frame, lo, hi))
  {
    if frame != [] {
      var front, last := frame[..|frame| - 1], frame[|frame| - 1];
      PickIncreasing(front, lo, hi);
      PickMembers(front, lo, hi);
      var p := Pick(front, lo, hi);
      forall i | 0 <= i < |p| ensures p[i].ts < last.ts {
        assert p[i] in front;
      }
    }
  }

  /** Adjacent intervals of an increasing frame concatenate. */
  lemma {:induction false} PickSplit(frame: seq<Bar>, lo: int, mid: int, hi: int)
    requires Increasing(frame) && lo <= mid <= hi
    ensures Pick(frame, lo, hi) == Pick(frame, lo, mid) + Pick(frame, mid, hi)
  {
    if frame != [] {
      var front, last := frame[..|frame| - 1], frame[|frame| - 1];
      PickSplit(front, lo, mid, hi);
      if lo <= last.ts < mid {
        PickNothing(front, mid, hi);
      }
    }
  }

  lemma {:induction false} PickNothing(frame: seq<Bar>, lo: int, hi: int)
    requires forall i :: 0 <= i < |frame| ==> frame[i].ts < lo
    ensures Pick(frame, lo, hi) == []
  {
    if frame != [] {
      PickNothing(frame[..|frame| - 1], lo, hi);
    }
  }

  // ----- groups of an aligned frame

  /** Strictly increasing integers in a window of n are at most n, and n of them are all of it. */
  lemma {:induction false} Dense(us: seq<int>, lo: int, n: nat)
    requires forall i, j :: 0 <= i < j < |us| ==> us[i] < us[j]
    requires forall i :: 0 <= i < |us| ==> lo <= us[i] < lo + n
    ensures |us| <= n
    ensures |us| == n ==> forall k :: 0 <= k < n ==> us[k] == lo + k
  {
    if us != [] {
      var front, last := us[..|us| - 1], us[|us| - 1];
      forall i | 0 <= i < |front| ensures front[i] < last {
        assert us[i] == front[i];
      }
      Dense(front, lo, last - lo);
      assert forall k :: 0 <= k < |front| ==> us[k] == front[k];
    }
  }

  lemma MulCompare(d: nat, x: int, y: int)
    requires d >= 1
    ensures x * d < y * d <==> x < y
  {
    if x < y {
      MulMonotone(d, x + 1, y);
    } else {
      MulMonotone(d, y, x);
    }
  }

  /** An aligned bar's coordinates: which step of the day it opens, and in which slot that step lies. */
  lemma Coordinates(ts: int, source: nat, n: nat, key: Key)
    requires source >= 1 && n >= 1 && SessionOffset(ts) % source == 0
    requires source * n >= 1 && KeyOf(ts, source * n) == key
    ensures var u := SessionOffset(ts) / source;
            && ts == DayStart(key.day) + SESSION_OPEN_MINUTE + u * source
            && key.slot * n <= u < key.slot * n + n
  {
    var u := SessionOffset(ts) / source;
    assert SessionOffset(ts) == u * source;
    QuotientIs(u * source, source * n, key.slot);
    SlotSteps(key.slot, source, n);
    MulCompare(source, u, key.slot * n);
    MulCompare(source, u, key.slot * n + n);
    assert (key.slot * n + n) * source == key.slot * n * source + n * source;
  }

  lemma StepTime(base: int, k: int, step: nat)
    ensures (base + k) * step == base * step + k * step
  {
  }

  lemma SlotSteps(slot: int, source: nat, n: nat)
    ensures slot * (source * n) == slot * n * source
  {
  }

  lemma GroupOfAligned(frame: seq<Bar>, key: Key, source: nat, n: nat)
    requires source >= 1 && n >= 1 && Aligned(frame, source)
    ensures source * n >= 1
    ensures var g := Group(frame, key, source * n);
            && |g| <= n
            && (|g| == n ==> forall k :: 0 <= k < n ==> g[k].ts == SlotStart(key, source * n) + k * source)
  {
    var target := source * n;
    MulMonotone(source, 1, n);
    var g := Group(frame, key, target);
    GroupIsPick(frame, key, target);
    PickIncreasing(frame, Clip(key.day, SlotStart(key, target)), Clip(key.day, SlotStart(key, target) + target));
    GroupMembers(frame, key, target);
    var us := seq(|g|, i requires 0 <= i < |g| => SessionOffset(g[i].ts) / source);
    forall i | 0 <= i < |g|
      ensures g[i].ts == DayStart(key.day) + SESSION_OPEN_MINUTE + us[i] * source
      ensures key.slot * n <= us[i] < key.slot * n + n
    {
      assert g[i] in g;
      Coordinates(g[i].ts, source, n, key);
    }
    forall i, j | 0 <= i < j < |g| ensures us[i] < us[j] {
      MulCompare(source, us[i], us[j]);
    }
    Dense(us, key.slot * n, n);
    if |g| == n {
      forall k | 0 <= k < n ensures g[k].ts == SlotStart(key, target) + k * source {
        StepTime(key.slot * n, k, source);
        SlotSteps(key.slot, source, n);
      }
    }
  }

  /** In an aligned frame, a group gives a row exactly when it has its full number of bars. */
  lemma RowOfAligned(frame: seq<Bar>, key: Key, source: nat, n: nat)
    requires source >= 1 && n >= 1 && Aligned(frame, source)
    ensures source * n >= 1
    ensures var g := Group(frame, key, source * n);
            && |g| <= n
            && RowAt(frame, key, source, source * n)
               == if |g| == n then Some(Bar(SlotStart(key, source * n), Merge(QuotesOf(g)))) else None
  {
    var target := source * n;
    MulMonotone(source, 1, n);
    var g := Group(frame, key, target);
    GroupOfAligned(frame, key, source, n);
    QuotientIs(target, source, n);
    hide Group, Merge, QuotesOf;
    if |g| == n {
      forall i, j | 0 <= i < j < |g| ensures g[i].ts <= g[j].ts {
        MulMonotone(source, i, j);
      }
      SortOfSorted(g);
      hide SortByTime;
      assert g[0] in g;
      GroupMembers(frame, key, target);
      SlotStartAligned(g[0].ts, key, target);
      assert Contiguous(g, source);
    }
  }

  lemma SlotStartAligned(ts: int, key: Key, target: nat)
    requires target >= 1 && KeyOf(ts, target) == key && ts == SlotStart(key, target)
    ensures SessionOffset(ts) % target == 0
  {
    var offset := SessionOffset(ts);
    assert Day(ts) == key.day ==> ts == DayStart(key.day) + SESSION_OPEN_MINUTE + offset;
    assert offset == key.slot * target;
    assert offset == target * (offset / target) + offset % target;
  }

  /** The rows of any frame are aligned to the target. */
  lemma ResampleAligned(frame: seq<Bar>, source: nat, target: nat)
    requires source >= 1 && target >= 1
    ensures Aligned(Resample(frame, source, target), target)
  {
    var rows := Resample(frame, source, target);
    ResampleMembers(frame, source, target);
    forall i | 0 <= i < |rows| ensures SessionOffset(rows[i].ts) % target == 0 {
      assert rows[i] in rows;
      assert RowAt(frame, KeyOf(rows[i].ts, target), source, target) == Some(rows[i]);
    }
  }
}
