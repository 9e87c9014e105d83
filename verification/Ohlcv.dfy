/**
 Open/high/low/close/volume quotes and their aggregation, shared by the replay
 resampler (Python) and the chart aggregators (TypeScript).
 */
module Ohlcv {

  datatype Quote = Quote(open: real, high: real, low: real, close: real, volume: real)

  /** Positive prices, low <= open, close <= high, and no negative volume. */
  predicate Sane(q: Quote) {
    0.0 < q.low <= q.open <= q.high && q.low <= q.close <= q.high && q.volume >= 0.0
  }

  function Higher(a: real, b: real): real { if a >= b then a else b }

  function Lower(a: real, b: real): real { if a <= b then a else b }

  function MaxHigh(qs: seq<Quote>): real
    requires qs != []
  {
    if |qs| == 1 then qs[0].high else Higher(qs[0].high, MaxHigh(qs[1..]))
  }

  function MinLow(qs: seq<Quote>): real
    requires qs != []
  {
    if |qs| == 1 then qs[0].low else Lower(qs[0].low, MinLow(qs[1..]))
  }

  function TotalVolume(qs: seq<Quote>): real {
    if qs == [] then 0.0 else qs[0].volume + TotalVolume(qs[1..])
  }

  /** One bar for a whole group: first open, highest high, lowest low, last close, summed volume. */
  function Merge(qs: seq<Quote>): Quote
    requires qs != []
  {
    Quote(qs[0].open, MaxHigh(qs), MinLow(qs), qs[|qs| - 1].close, TotalVolume(qs))
  }

  /** The merged bar spans exactly its group: both extremes are bounds and are reached. */
  lemma MergeSpans(qs: seq<Quote>)
    requires qs != []
    ensures forall q :: q in qs ==> Merge(qs).low <= q.low && q.high <= Merge(qs).high
    ensures exists q :: q in qs && q.high == Merge(qs).high
    ensures exists q :: q in qs && q.low == Merge(qs).low
  {
    MaxHighSpans(qs);
    MinLowSpans(qs);
  }

  lemma {:induction false} MaxHighSpans(qs: seq<Quote>)
    requires qs != []
    ensures forall q :: q in qs ==> q.high <= MaxHigh(qs)
    ensures exists q :: q in qs && q.high == MaxHigh(qs)
  {
    assert qs[0] in qs;
    if |qs| > 1 {
      MaxHighSpans(qs[1..]);
      var top :| top in qs[1..] && top.high == MaxHigh(qs[1..]);
      assert top in qs;
      assert forall q :: q in qs ==> q == qs[0] || q in qs[1..];
    }
  }

  lemma {:induction false} MinLowSpans(qs: seq<Quote>)
    requires qs != []
    ensures forall q :: q in qs ==> MinLow(qs) <= q.low
    ensures exists q :: q in qs && q.low == MinLow(qs)
  {
    assert qs[0] in qs;
    if |qs| > 1 {
      MinLowSpans(qs[1..]);
      var bottom :| bottom in qs[1..] && bottom.low == MinLow(qs[1..]);
      assert bottom in qs;
      assert forall q :: q in qs ==> q == qs[0] || q in qs[1..];
    }
  }

  lemma {:induction false} MergeConcat(xs: seq<Quote>, ys: seq<Quote>)
    requires xs != [] && ys != []
    ensures MaxHigh(xs + ys) == Higher(MaxHigh(xs), MaxHigh(ys))
    ensures MinLow(xs + ys) == Lower(MinLow(xs), MinLow(ys))
  {
    if |xs| == 1 {
      assert (xs + ys)[1..] == ys;
    } else {
      assert (xs + ys)[1..] == xs[1..] + ys;
      MergeConcat(xs[1..], ys);
    }
  }

  lemma {:induction false} TotalVolumeConcat(xs: seq<Quote>, ys: seq<Quote>)
    ensures TotalVolume(xs + ys) == TotalVolume(xs) + TotalVolume(ys)
  {
    if xs == [] {
      assert xs + ys == ys;
    } else {
      assert (xs + ys)[1..] == xs[1..] + ys;
      TotalVolumeConcat(xs[1..], ys);
    }
  }

  /** Merging sane quotes gives a sane quote. */
  lemma {:induction false} MergeSane(qs: seq<Quote>)
    requires qs != []
    requires forall q :: q in qs ==> Sane(q)
    ensures Sane(Merge(qs))
  {
    MergeSpans(qs);
    TotalVolumeNonNegative(qs);
    assert qs[0] in qs && qs[|qs| - 1] in qs;
  }

  lemma {:induction false} TotalVolumeNonNegative(qs: seq<Quote>)
    requires forall q :: q in qs ==> q.volume >= 0.0
    ensures TotalVolume(qs) >= 0.0
  {
    if qs != [] {
      TotalVolumeNonNegative(qs[1..]);
    }
  }

  function Flatten<T>(parts: seq<seq<T>>): seq<T> {
    if parts == [] then [] else parts[0] + Flatten(parts[1..])
  }

  function MergeEach(parts: seq<seq<Quote>>): (r: seq<Quote>)
    requires forall i :: 0 <= i < |parts| ==> parts[i] != []
    ensures |r| == |parts|
    ensures forall i :: 0 <= i < |parts| ==> r[i] == Merge(parts[i])
  {
    if parts == [] then [] else [Merge(parts[0])] + MergeEach(parts[1..])
  }

  /** Merging twice is merging once: groups of groups aggregate like the flat group. */
  lemma {:induction false} MergeOfMerges(parts: seq<seq<Quote>>)
    requires parts != []
    requires forall i :: 0 <= i < |parts| ==> parts[i] != []
    ensures Flatten(parts) != []
    ensures Merge(MergeEach(parts)) == Merge(Flatten(parts))
  {
    var first, rest := parts[0], parts[1..];
    MergeOne(Merge(first));
    if rest == [] {
      assert Flatten(parts) == first;
      assert MergeEach(parts) == [Merge(first)];
    } else {
      MergeOfMerges(rest);
      MergePair(first, Flatten(rest));
      MergePair([Merge(first)], MergeEach(rest));
      assert MergeEach(parts) == [Merge(first)] + MergeEach(rest);
    }
  }

  lemma MergeOne(q: Quote)
    ensures Merge([q]) == q
  {
    assert TotalVolume([q]) == q.volume + TotalVolume([]);
  }

  /** What the merges of two halves say about the merge of the whole. */
  function Join(x: Quote, y: Quote): Quote {
    Quote(x.open, Higher(x.high, y.high), Lower(x.low, y.low), y.close, x.volume + y.volume)
  }

  lemma {:induction false} MergePair(xs: seq<Quote>, ys: seq<Quote>)
    requires xs != [] && ys != []
    ensures Merge(xs + ys) == Join(Merge(xs), Merge(ys))
  {
    TotalVolumeConcat(xs, ys);
    MergeConcat(xs, ys);
  }
}
