/** Resampling in two stages is resampling in one. */
module ResampleComposition {
  import opened Wrappers
  import opened Ohlcv
  import opened CandleFrames
  import opened Resampling
  import opened ResampleLaws

  /** An increasing frame whose bars all share one opening minute has at most one bar. */
  lemma AtMostOne(xs: seq<Bar>, bar: Option<Bar>)
    requires Increasing(xs)
    requires forall b :: b in xs <==> bar == Some(b)
    ensures xs == if bar.Some? then [bar.value] else []
  {
    if xs != [] {
      assert xs[0] in xs && xs[|xs| - 1] in xs;
    }
    if bar.Some? {
      assert bar.value in xs;
    }
  }

  /** In the resampled frame, a group of the same timeframe holds its row and nothing else. */
  lemma GroupOfRows(frame: seq<Bar>, key: Key, source: nat, target: nat)
    requires source >= 1 && target >= 1
    ensures var row := RowAt(frame, key, source, target);
            Group(Resample(frame, source, target), key, target) == if row.Some? then [row.value] else []
  {
    var rows := Resample(frame, source, target);
    var g := Group(rows, key, target);
    ResampleMembers(frame, source, target);
    GroupMembers(rows, key, target);
    GroupIsPick(rows, key, target);
    PickIncreasing(rows, Clip(key.day, SlotStart(key, target)), Clip(key.day, SlotStart(key, target) + target));
    RowKey(frame, key, source, target);
    AtMostOne(g, RowAt(frame, key, source, target));
  }

  lemma QuotesConcat(xs: seq<Bar>, ys: seq<Bar>)
    ensures QuotesOf(xs + ys) == QuotesOf(xs) + QuotesOf(ys)
  {
  }

  /** The first i sub-slots of a slot: how far the fine and the coarse frame agree there. */
  ghost predicate Agree(fine: seq<Bar>, rows: seq<Bar>, i: nat, m: nat) {
    && |rows| <= i
    && |fine| <= i * m
    && (|fine| == i * m <==> |rows| == i)
    && (rows != [] && |rows| == i ==> fine != [] && Merge(QuotesOf(rows)) == Merge(QuotesOf(fine)))
  }

  lemma AgreeStep(fine: seq<Bar>, rows: seq<Bar>, g: seq<Bar>, row: Option<Bar>, i: nat, m: nat)
    requires m >= 1 && |g| <= m
    requires row.Some? <==> |g| == m
    requires row.Some? ==> row.value.quote == Merge(QuotesOf(g))
    requires Agree(fine, rows, i, m)
    ensures Agree(fine + g, rows + (if row.Some? then [row.value] else []), i + 1, m)
  {
    assert (i + 1) * m == i * m + m;
    if row.Some? {
      var one := [row.value];
      assert QuotesOf(one) == [Merge(QuotesOf(g))];
      MergeOne(Merge(QuotesOf(g)));
      if rows == [] {
        assert rows + one == one;
        if i == 0 {
          assert fine + g == g;
        }
      } else if |rows| == i {
        QuotesConcat(rows, one);
        QuotesConcat(fine, g);
        MergePair(QuotesOf(rows), QuotesOf(one));
        MergePair(QuotesOf(fine), QuotesOf(g));
      }
    }
  }

  /** The part of a frame in the first i sub-slots (of m steps each) of a slot. */
  function SubSlots(frame: seq<Bar>, key: Key, target: nat, part: nat, i: nat): seq<Bar> {
    Pick(frame, Clip(key.day, SlotStart(key, target)), Clip(key.day, SlotStart(key, target) + i * part))
  }

  lemma SubSlotStep(frame: seq<Bar>, key: Key, part: nat, n: nat, target: nat, i: nat)
    requires part >= 1 && n >= 1 && target == part * n && Increasing(frame)
    ensures SubSlots(frame, key, target, part, i + 1)
            == SubSlots(frame, key, target, part, i) + Group(frame, Key(key.day, key.slot * n + i), part)
  {
    var sub := Key(key.day, key.slot * n + i);
    var start := SlotStart(key, target);
    SlotSteps(key.slot, part, n);
    StepTime(key.slot * n, i, part);
    assert SlotStart(sub, part) == start + i * part;
    assert (i + 1) * part == i * part + part;
    GroupIsPick(frame, sub, part);
    PickSplit(frame, Clip(key.day, start), Clip(key.day, start + i * part), Clip(key.day, start + (i + 1) * part));
  }

  lemma {:induction false} SubSlotsAgree(frame: seq<Bar>, rows: seq<Bar>, key: Key, source: nat, m: nat, part: nat,
                                         n: nat, target: nat, i: nat)
    requires source >= 1 && m >= 1 && n >= 1 && Aligned(frame, source)
    requires part == source * m && part >= 1 && target == part * n
    requires rows == Resample(frame, source, part)
    ensures Agree(SubSlots(frame, key, target, part, i), SubSlots(rows, key, target, part, i), i, m)
    decreases i
  {
    hide Merge, QuotesOf, Resample, Group, RowAt, Agree, SubSlots;
    if i == 0 {
      NoSubSlots(frame, rows, key, target, part, m);
    } else {
      SubSlotsAgree(frame, rows, key, source, m, part, n, target, i - 1);
      ResampleMembers(frame, source, part);
      SubSlotStep(frame, key, part, n, target, i - 1);
      SubSlotStep(rows, key, part, n, target, i - 1);
      var sub := Key(key.day, key.slot * n + (i - 1));
      GroupOfRows(frame, sub, source, part);
      RowOfAligned(frame, sub, source, m);
      AgreeStep(SubSlots(frame, key, target, part, i - 1), SubSlots(rows, key, target, part, i - 1),
                Group(frame, sub, part), RowAt(frame, sub, source, part), i - 1, m);
    }
  }

  lemma NoSubSlots(frame: seq<Bar>, rows: seq<Bar>, key: Key, target: nat, part: nat, m: nat)
    ensures Agree(SubSlots(frame, key, target, part, 0), SubSlots(rows, key, target, part, 0), 0, m)
  {
    var start := Clip(key.day, SlotStart(key, target));
    PickNone(frame, start);
    PickNone(rows, start);
  }

  lemma Commutes(s: nat, m: nat, n: nat)
    ensures n * (s * m) == s * m * n == s * (m * n) && n * m == m * n
  {
  }

  /** A slot of the large timeframe gives the same row from the fine and from the resampled bars. */
  lemma SameRow(frame: seq<Bar>, key: Key, source: nat, m: nat, n: nat)
    requires source >= 1 && m >= 1 && n >= 1 && Aligned(frame, source)
    ensures source * m >= 1 && source * m * n >= 1
    ensures RowAt(Resample(frame, source, source * m), key, source * m, source * m * n)
            == RowAt(frame, key, source, source * m * n)
  {
    MulMonotone(source, 1, m);
    var part := source * m;
    MulMonotone(part, 1, n);
    MulMonotone(m, 1, n);
    var rows := Resample(frame, source, part);
    var target := part * n;
    SubSlotsAgree(frame, rows, key, source, m, part, n, target, n);
    Commutes(source, m, n);
    GroupIsPick(frame, key, target);
    GroupIsPick(rows, key, target);
    hide Pick, Group, RowAt, Resample, Merge, QuotesOf, SlotStart, Clip;
    ResampleAligned(frame, source, part);
    RowOfAligned(rows, key, part, n);
    RowOfAligned(frame, key, source, m * n);
  }

  /**
   Resampling by m steps and then by n of those equals resampling by m*n steps at
   once, on every aligned frame; with source 1, m 5 and n 3 it is 1m to 5m to 15m.
   */
  lemma TwoStageIsOneStage(frame: seq<Bar>, source: nat, m: nat, n: nat)
    requires source >= 1 && m >= 1 && n >= 1 && Aligned(frame, source)
    ensures source * m >= 1 && source * m * n >= 1
    ensures Resample(Resample(frame, source, source * m), source * m, source * m * n)
            == Resample(frame, source, source * m * n)
  {
    MulMonotone(source, 1, m);
    var part := source * m;
    MulMonotone(part, 1, n);
    var target := part * n;
    var rows := Resample(frame, source, part);
    ResampleMembers(rows, part, target);
    ResampleMembers(frame, source, target);
    forall key ensures RowAt(rows, key, part, target) == RowAt(frame, key, source, target) {
      SameRow(frame, key, source, m, n);
    }
    SameMembersSameFrame(Resample(rows, part, target), Resample(frame, source, target));
  }
}
