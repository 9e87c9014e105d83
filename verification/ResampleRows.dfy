/** Which groups of bars become a row, on any frame, and what the row says. */
module ResampleRows {
  import opened Wrappers
  import opened Ohlcv
  import opened CandleFrames
  import opened Resampling
  import opened ResampleLaws
  import opened Normalization

  /** The stamps are those of consecutive steps from start, each once, in whatever order. */
  ghost predicate Fills(group: seq<Bar>, start: int, step: nat) {
    && (forall i, j :: 0 <= i < j < |group| ==> group[i].ts != group[j].ts)
    && forall i :: 0 <= i < |group| ==> exists k: nat :: k < |group| && group[i].ts == start + k * step
  }

  /** Bounds that are reached, the ends, and the sum of the volumes. */
  ghost predicate Spans(q: Quote, group: seq<Bar>)
    requires group != []
  {
    && q.open == group[0].quote.open && q.close == group[|group| - 1].quote.close
    && (forall b :: b in group ==> q.low <= b.quote.low && b.quote.high <= q.high)
    && (exists b :: b in group && b.quote.low == q.low) && (exists b :: b in group && b.quote.high == q.high)
    && q.volume == Volume(group)
  }

  function Volume(group: seq<Bar>): real {
    if group == [] then 0.0 else Volume(group[..|group| - 1]) + group[|group| - 1].quote.volume
  }

  lemma {:induction false} VolumeIsTotal(group: seq<Bar>)
    ensures TotalVolume(QuotesOf(group)) == Volume(group)
  {
    if group != [] {
      var front, last := group[..|group| - 1], group[|group| - 1];
      VolumeIsTotal(front);
      assert QuotesOf(group) == QuotesOf(front) + [last.quote];
      TotalVolumeConcat(QuotesOf(front), [last.quote]);
      MergeOne(last.quote);
    }
  }

  lemma MergeSpansGroup(group: seq<Bar>)
    requires group != []
    ensures Spans(Merge(QuotesOf(group)), group)
  {
    var qs := QuotesOf(group);
    VolumeIsTotal(group);
    MergeSpans(qs);
    forall b | b in group ensures b.quote in qs {
      var i :| 0 <= i < |group| && group[i] == b;
      assert qs[i] == b.quote;
    }
    hide MaxHigh, MinLow, TotalVolume;
  }

  lemma {:induction false} SpansIsMerge(q: Quote, group: seq<Bar>)
    requires group != [] && Spans(q, group)
    ensures q == Merge(QuotesOf(group))
  {
    MergeSpansGroup(group);
  }

  /** The sorted stamps of a group that fills its steps are the steps. */
  lemma FilledIsContiguous(group: seq<Bar>, actual: seq<Bar>, start: int, step: nat)
    requires step >= 1 && Fills(group, start, step)
    requires Increasing(actual) && |actual| == |group| && forall b :: b in actual <==> b in group
    ensures forall k :: 0 <= k < |actual| ==> actual[k].ts == start + k * step
  {
    var n := |actual|;
    forall i | 0 <= i < n ensures exists k: nat :: k < n && actual[i].ts == start + k * step {
      assert actual[i] in group;
    }
    var us := seq(n, i requires 0 <= i < n => (actual[i].ts - start) / step);
    forall i | 0 <= i < n ensures actual[i].ts == start + us[i] * step && 0 <= us[i] < n {
      var k: nat :| k < n && actual[i].ts == start + k * step;
      QuotientIs(k * step, step, k);
    }
    forall i, j | 0 <= i < j < n ensures us[i] < us[j] {
      MulCompare(step, us[i], us[j]);
    }
    Dense(us, 0, n);
  }

  lemma ContiguousIsFilled(group: seq<Bar>, actual: seq<Bar>, step: nat)
    requires step >= 1 && actual != [] && Contiguous(actual, step)
    requires multiset(actual) == multiset(group)
    ensures Increasing(actual) && Fills(group, actual[0].ts, step)
  {
    assert |multiset(actual)| == |multiset(group)|;
    forall i, j | 0 <= i < j < |actual| ensures actual[i].ts < actual[j].ts {
      MulCompare(step, i, j);
    }
    DistinctStamps(group, actual);
    forall i | 0 <= i < |group| ensures exists k: nat :: k < |group| && group[i].ts == actual[0].ts + k * step {
      assert group[i] in multiset(actual);
      var k: nat :| k < |actual| && actual[k] == group[i];
    }
  }

  /** A permutation of a strictly increasing frame repeats no stamp. */
  lemma DistinctStamps(group: seq<Bar>, actual: seq<Bar>)
    requires Increasing(actual) && multiset(actual) == multiset(group)
    ensures forall i, j :: 0 <= i < j < |group| ==> group[i].ts != group[j].ts
  {
    forall i, j | 0 <= i < j < |group| ensures group[i].ts != group[j].ts {
      assert group[i] in multiset(actual) && group[j] in multiset(actual);
      if group[i] == group[j] {
        Twice(group, i, j);
        Once(actual, group[i]);
      } else {
        var k :| 0 <= k < |actual| && actual[k] == group[i];
        var m :| 0 <= m < |actual| && actual[m] == group[j];
        assert k < m || m < k;
      }
    }
  }

  lemma Twice(group: seq<Bar>, i: nat, j: nat)
    requires i < j < |group| && group[i] == group[j]
    ensures multiset(group)[group[i]] >= 2
  {
    assert group == group[..j] + group[j..];
    assert group[..j][i] == group[i] && group[j..][0] == group[i];
    assert group[i] in group[..j] && group[i] in group[j..];
  }

  lemma {:induction false} Once(actual: seq<Bar>, b: Bar)
    requires Increasing(actual)
    ensures multiset(actual)[b] <= 1
  {
    if actual != [] {
      var front, last := actual[..|actual| - 1], actual[|actual| - 1];
      assert actual == front + [last];
      Once(front, b);
      if b == last {
        assert b !in front;
      }
    }
  }

  /**
   A group becomes a row exactly when it has its full number of bars, one for each step from a
   start on the target grid, whatever their order in the frame; the row opens at that start.
   */
  lemma RowIff(group: seq<Bar>, source: nat, target: nat, row: Bar)
    requires source >= 1 && target >= 1
    ensures RowOf(group, source, target) == Some(row)
            <==> && group != [] && |group| == target / source
                 && SessionOffset(row.ts) % target == 0 && Fills(group, row.ts, source)
                 && Spans(row.quote, group)
  {
    hide Merge, SessionOffset, Spans;
    if group == [] || |group| != target / source {
      return;
    }
    var actual := SortByTime(group);
    SortSorts(group);
    assert |multiset(actual)| == |multiset(group)|;
    forall b ensures b in actual <==> b in group {
      assert b in multiset(actual) <==> b in multiset(group);
    }
    MergeSpansGroup(group);
    if Fills(group, row.ts, source) {
      SortIncreasing(group);
    }
    hide SortByTime;
    if Contiguous(actual, source) {
      ContiguousIsFilled(group, actual, source);
    }
    if Fills(group, row.ts, source) {
      FilledIsContiguous(group, actual, row.ts, source);
      assert Contiguous(actual, source);
    }
    if Spans(row.quote, group) {
      SpansIsMerge(row.quote, group);
    }
  }

  /** The rows of any frame, in terms of the bars of their day and slot. */
  lemma RowsExactly(frame: seq<Bar>, source: nat, target: nat, row: Bar)
    requires source >= 1 && target >= 1
    ensures var group := Group(frame, KeyOf(row.ts, target), target);
            row in Resample(frame, source, target)
            <==> && group != [] && |group| == target / source
                 && SessionOffset(row.ts) % target == 0 && Fills(group, row.ts, source)
                 && Spans(row.quote, group)
  {
    hide Resample, Group, RowOf, Fills, Spans, SessionOffset;
    ResampleMembers(frame, source, target);
    RowIff(Group(frame, KeyOf(row.ts, target), target), source, target, row);
  }
}
