/** What the candles of the chart aggregators are made of. */
module AggregationOutcomes {
  import opened Wrappers
  import opened Ohlcv
  import opened SessionAggregation

  function SumOfVolumes(cs: seq<Candle>): real {
    if cs == [] then 0.0
    else
      SumOfVolumes(cs[..|cs| - 1])
      + match cs[|cs| - 1].volume
        case Some(v) => v
        case None => 0.0
  }

  /** The candle of a stretch: stamped and opened like its first, closed like its last, spanning all of them. */
  ghost predicate Sums(c: Candle, part: seq<Candle>)
    requires part != []
  {
    && c.stamp == part[0].stamp && c.open == part[0].open && c.close == part[|part| - 1].close
    && (forall i :: 0 <= i < |part| ==> c.low <= part[i].low && part[i].high <= c.high)
    && (exists i :: 0 <= i < |part| && part[i].low == c.low) && (exists i :: 0 <= i < |part| && part[i].high == c.high)
    && c.volume == Some(SumOfVolumes(part))
  }

  lemma {:induction false} VolumesAreSummed(cs: seq<Candle>)
    ensures TotalVolume(Quotes(cs)) == SumOfVolumes(cs)
  {
    if cs != [] {
      var front, last := cs[..|cs| - 1], cs[|cs| - 1];
      VolumesAreSummed(front);
      assert Quotes(cs) == Quotes(front) + [QuoteOf(last)];
      TotalVolumeConcat(Quotes(front), [QuoteOf(last)]);
      MergeOne(QuoteOf(last));
    }
  }

  lemma MergeSums(part: seq<Candle>)
    requires part != []
    ensures Sums(MergeGroup(part), part)
  {
    var qs := Quotes(part);
    VolumesAreSummed(part);
    MergeSpans(qs);
    forall i | 0 <= i < |part| ensures MergeGroup(part).low <= part[i].low && part[i].high <= MergeGroup(part).high {
      assert qs[i] in qs;
    }
    var top :| top in qs && top.high == Merge(qs).high;
    var bottom :| bottom in qs && bottom.low == Merge(qs).low;
    var i :| 0 <= i < |qs| && qs[i] == top;
    var j :| 0 <= j < |qs| && qs[j] == bottom;
    assert part[i].high == Merge(qs).high && part[j].low == Merge(qs).low;
    hide MaxHigh, MinLow, TotalVolume;
  }

  /** Where group j of a session begins. */
  function Begin(j: nat, size: nat): nat { j * size }

  function EndOf(j: nat, size: nat, length: nat): nat {
    if Begin(j + 1, size) < length then Begin(j + 1, size) else length
  }

  /**
   A session of n candles gives as many groups as it takes; group j is made of the candles from j * size
   on, size of them or what is left.
   */
  lemma {:induction false} GroupAt(session: seq<Candle>, size: nat)
    requires size >= 1
    ensures forall j: nat :: j < |Groups(session, size)| <==> Begin(j, size) < |session|
    ensures forall j: nat :: j < |Groups(session, size)| ==>
              && Begin(j, size) < EndOf(j, size, |session|) <= |session|
              && Sums(Groups(session, size)[j], session[Begin(j, size)..EndOf(j, size, |session|)])
    decreases |session|
  {
    var groups := Groups(session, size);
    forall j: nat
      ensures j < |groups| <==> Begin(j, size) < |session|
      ensures j < |groups| ==>
                && Begin(j, size) < EndOf(j, size, |session|) <= |session|
                && Sums(groups[j], session[Begin(j, size)..EndOf(j, size, |session|)])
    {
      GroupIs(session, size, j);
    }
  }

  lemma {:induction false} GroupIs(session: seq<Candle>, size: nat, j: nat)
    requires size >= 1
    ensures j < |Groups(session, size)| <==> Begin(j, size) < |session|
    ensures j < |Groups(session, size)| ==>
              && Begin(j, size) < EndOf(j, size, |session|) <= |session|
              && Sums(Groups(session, size)[j], session[Begin(j, size)..EndOf(j, size, |session|)])
    decreases j
  {
    hide MergeGroup, Sums;
    BeginNext(j, size);
    if session == [] {
      return;
    }
    var n := if size <= |session| then size else |session|;
    GroupsUnfold(session, size);
    if j == 0 {
      assert session[0..n] == session[..n];
      MergeSums(session[..n]);
    } else {
      var rest := session[n..];
      BeginNext(j - 1, size);
      GroupIs(rest, size, j - 1);
      if j < |Groups(session, size)| {
        assert n == size;
        assert rest[Begin(j - 1, size)..EndOf(j - 1, size, |rest|)]
            == session[Begin(j, size)..EndOf(j, size, |session|)];
      }
    }
  }

  lemma BeginNext(j: nat, size: nat)
    ensures Begin(j + 1, size) == Begin(j, size) + size && Begin(0, size) == 0
  {
  }

  // ----- sessions

  /** The candles from a to b are one session, and the candles next to it are of other ones. */
  ghost predicate IsSession(key: SessionKey, cs: seq<Candle>, a: nat, b: nat) {
    && a < b <= |cs|
    && (forall i :: a <= i < b ==> key(cs[i].stamp) == key(cs[a].stamp))
    && (a > 0 ==> key(cs[a - 1].stamp) != key(cs[a].stamp))
    && (b < |cs| ==> key(cs[b].stamp) != key(cs[a].stamp))
  }

  lemma Associative4<T>(xs: seq<T>, ys: seq<T>, zs: seq<T>, us: seq<T>)
    ensures xs + (ys + zs + us) == (xs + ys) + zs + us
  {
  }

  /** Each session contributes its own groups, between those of the candles before and after it. */
  lemma {:induction false} SessionsAreSeparate(key: SessionKey, cs: seq<Candle>, a: nat, b: nat, size: nat)
    requires size >= 1 && IsSession(key, cs, a, b)
    ensures Aggregate(key, cs, size)
            == Aggregate(key, cs[..a], size) + Groups(cs[a..b], size) + Aggregate(key, cs[b..], size)
    ensures AggregateDaily(key, cs)
            == AggregateDaily(key, cs[..a]) + [MergeGroup(cs[a..b])] + AggregateDaily(key, cs[b..])
    decreases |cs|
  {
    hide MergeGroup, Groups, Aggregate, AggregateDaily, SessionLength, OneSession;
    if a == 0 {
      assert cs == cs[0..b] + cs[b..] && cs[..0] == [];
      AggregateSession(key, cs[0..b], cs[b..], size);
      NothingAggregated(key, size);
    } else {
      SessionSpan(key, cs);
      var n := SessionLength(key, cs);
      assert n <= a;
      var first, rest, before := cs[..n], cs[n..], cs[n..a];
      SessionsAreSeparate(key, rest, a - n, b - n, size);
      assert rest[..a - n] == before && rest[a - n..b - n] == cs[a..b] && rest[b - n..] == cs[b..];
      assert cs == first + rest && cs[..a] == first + before;
      AggregateSession(key, first, rest, size);
      AggregateSession(key, first, before, size);
      Associative4(Groups(first, size), Aggregate(key, before, size), Groups(cs[a..b], size),
                   Aggregate(key, cs[b..], size));
      Associative4([MergeGroup(first)], AggregateDaily(key, before), [MergeGroup(cs[a..b])],
                   AggregateDaily(key, cs[b..]));
    }
  }
}
