/** Exactly which bars the replay reports, and what each report says. */
module ReplayEvents {
  import opened Wrappers
  import opened CandleFrames
  import opened Resampling
  import opened Replay

  // ----- completed 15m bars

  /** The first k rows have closed by then, the others have not. */
  ghost predicate ClosedBy(rows: seq<Bar>, closeAt: int, k: nat) {
    && k <= |rows|
    && (forall j :: 0 <= j < k ==> rows[j].ts + 15 <= closeAt)
    && (forall j :: k <= j < |rows| ==> rows[j].ts + 15 > closeAt)
  }

  lemma {:induction false} CompletedArePrefix(rows: seq<Bar>, closeAt: int) returns (k: nat)
    requires Increasing(rows)
    ensures ClosedBy(rows, closeAt, k) && Completed(rows, closeAt) == rows[..k]
  {
    if rows == [] {
      return 0;
    }
    var n := |rows| - 1;
    k := CompletedArePrefix(rows[..n], closeAt);
    if rows[n].ts + 15 <= closeAt {
      assert k == n;
      assert rows == rows[..n] + [rows[n]];
      k := n + 1;
    } else {
      assert rows[..n][..k] == rows[..k];
    }
  }

  lemma ClosedByIsUnique(rows: seq<Bar>, closeAt: int, j: nat, k: nat)
    requires ClosedBy(rows, closeAt, j) && ClosedBy(rows, closeAt, k)
    ensures j == k
  {
    if j < |rows| {
      var at := rows[j].ts;
    }
    if k < |rows| {
      var at := rows[k].ts;
    }
  }

  // ----- zones

  /** A gap or an order block on the side of the trend. */
  predicate Aligns(z: Zone, side: Side, d: Detectors) {
    (z.kind == "fair_value_gap" || z.kind == "order_block") && d.aligns(z, side)
  }

  /** How many of the first n zones align. */
  function AlignedBefore(zones: seq<Zone>, side: Side, d: Detectors, n: nat): (r: nat)
    requires n <= |zones|
    ensures r <= n
  {
    if n == 0 then 0
    else AlignedBefore(zones, side, d, n - 1) + if Aligns(zones[n - 1], side, d) then 1 else 0
  }

  /** All aligned zones of the first n, in order, with rounded bounds, and nothing else. */
  ghost predicate Listed(listed: seq<Zone>, zones: seq<Zone>, side: Side, d: Detectors, n: nat)
    requires n <= |zones|
  {
    && |listed| == AlignedBefore(zones, side, d, n)
    && forall z :: 0 <= z < n && Aligns(zones[z], side, d) ==>
         var place := AlignedBefore(zones, side, d, z);
         && place < |listed| && listed[place].kind == zones[z].kind
         && listed[place].low == d.round(zones[z].low) && listed[place].high == d.round(zones[z].high)
  }

  lemma {:induction false} ZoneListOfConcat(xs: seq<Zone>, ys: seq<Zone>, side: Side, d: Detectors)
    ensures ZoneList(xs + ys, side, d) == ZoneList(xs, side, d) + ZoneList(ys, side, d)
  {
    if xs == [] {
      assert xs + ys == ys;
    } else {
      assert (xs + ys)[1..] == xs[1..] + ys;
      ZoneListOfConcat(xs[1..], ys, side, d);
    }
  }

  lemma ZoneListOfOne(z: Zone, side: Side, d: Detectors)
    ensures ZoneList([z], side, d)
            == if Aligns(z, side, d) then [Zone(z.kind, d.round(z.low), d.round(z.high))] else []
  {
    assert ZoneList([], side, d) == [];
  }

  lemma {:induction false} ZonesAreListed(zones: seq<Zone>, side: Side, d: Detectors, n: nat)
    requires n <= |zones|
    ensures Listed(ZoneList(zones[..n], side, d), zones, side, d, n)
  {
    hide ZoneList, Aligns;
    if n > 0 {
      var z := zones[n - 1];
      ZonesAreListed(zones, side, d, n - 1);
      var listed := ZoneList(zones[..n - 1], side, d);
      assert zones[..n] == zones[..n - 1] + [z];
      ZoneListOfConcat(zones[..n - 1], [z], side, d);
      ZoneListOfOne(z, side, d);
      ListedLast(listed, zones, side, d, n - 1);
    } else {
      NoZones(zones, side, d);
    }
  }

  lemma NoZones(zones: seq<Zone>, side: Side, d: Detectors)
    ensures zones[..0] == [] && ZoneList([], side, d) == []
  {
  }

  lemma ListedLast(listed: seq<Zone>, zones: seq<Zone>, side: Side, d: Detectors, n: nat)
    requires n < |zones| && Listed(listed, zones, side, d, n)
    ensures var z := zones[n];
            Listed(listed + if Aligns(z, side, d) then [Zone(z.kind, d.round(z.low), d.round(z.high))] else [], zones,
                   side, d, n + 1)
  {
    hide Aligns;
  }

  // ----- events

  /** Bar i closes with k completed 15m bars, a trend that has a side, and a valid trigger on the bars so far. */
  ghost predicate Fires(frame: seq<Bar>, d: Detectors, i: nat, k: nat) {
    var rows := Resample(frame, 5, 15);
    && 29 <= i < |frame| && 8 <= k && ClosedBy(rows, frame[i].ts + 5, k)
    && d.trend(rows[..k]).side.Some? && d.trigger(frame[..i + 1], d.trend(rows[..k]).side.value).valid
  }

  /** What the event of bar i says. */
  ghost predicate Describes(frame: seq<Bar>, d: Detectors, i: nat, k: nat, e: Event)
    requires Fires(frame, d, i, k)
  {
    var rows, prefix := Resample(frame, 5, 15), frame[..i + 1];
    var side := d.trend(rows[..k]).side.value;
    && e.asofClose == frame[i].ts + 5
    && e.spotClose == d.round(d.lastClose(prefix))
    && e.trend == d.trend(rows[..k]).trend
    && e.side == side
    && e.trigger == d.trigger(prefix, side).kind
    && e.historyBars == k
    && Listed(e.zones, d.zones(prefix), side, d, |d.zones(prefix)|)
  }

  ghost predicate Ascending(xs: seq<nat>) { forall i, j :: 0 <= i < j < |xs| ==> xs[i] < xs[j] }

  ghost predicate FiresAt(frame: seq<Bar>, d: Detectors, i: nat) { exists k: nat :: Fires(frame, d, i, k) }

  ghost predicate ReportedAs(frame: seq<Bar>, d: Detectors, i: nat, e: Event) {
    exists k: nat :: Fires(frame, d, i, k) && Describes(frame, d, i, k, e)
  }

  lemma EventDescribes(frame: seq<Bar>, i: nat, k: nat, d: Detectors)
    requires 29 <= i < |frame|
    requires var rows := Resample(frame, 5, 15);
             ClosedBy(rows, frame[i].ts + 5, k) && Completed(rows, frame[i].ts + 5) == rows[..k]
    ensures var e := EventAt(frame, Resample(frame, 5, 15), i, d);
            && (e.Some? <==> Fires(frame, d, i, k))
            && (e.Some? ==> Describes(frame, d, i, k, e.value))
  {
    hide Resample, Completed, ZoneList;
    var e := EventAt(frame, Resample(frame, 5, 15), i, d);
    if e.Some? {
      var zones := d.zones(frame[..i + 1]);
      ZonesAreListed(zones, e.value.side, d, |zones|);
      assert zones[..|zones|] == zones;
    }
  }

  lemma EventIff(frame: seq<Bar>, i: nat, d: Detectors)
    requires 29 <= i < |frame|
    ensures var e := EventAt(frame, Resample(frame, 5, 15), i, d);
            (e.Some? <==> FiresAt(frame, d, i)) && (e.Some? ==> ReportedAs(frame, d, i, e.value))
  {
    hide Resample, Completed, EventAt, Describes, ClosedBy, Fires;
    var rows := Resample(frame, 5, 15);
    ResampleMembers(frame, 5, 15);
    var k := CompletedArePrefix(rows, frame[i].ts + 5);
    EventDescribes(frame, i, k, d);
    forall j: nat | Fires(frame, d, i, j) ensures j == k {
      FiresOnce(frame, d, i, j, k);
    }
  }

  lemma FiresOnce(frame: seq<Bar>, d: Detectors, i: nat, j: nat, k: nat)
    requires Fires(frame, d, i, j) && ClosedBy(Resample(frame, 5, 15), frame[i].ts + 5, k)
    ensures j == k
  {
    ClosedByIsUnique(Resample(frame, 5, 15), frame[i].ts + 5, j, k);
    hide Resample, ClosedBy;
  }

  /** The bars below n that fire, in order, with their events. */
  lemma {:induction false} EventsOfBars(frame: seq<Bar>, n: nat, d: Detectors) returns (bars: seq<nat>)
    requires n <= |frame|
    ensures Ascending(bars)
    ensures forall i: nat :: i in bars <==> i < n && FiresAt(frame, d, i)
    ensures var events := Events(frame, Resample(frame, 5, 15), n, d);
            |events| == |bars| && forall j :: 0 <= j < |bars| ==> ReportedAs(frame, d, bars[j], events[j])
  {
    hide Resample, EventAt, FiresAt, ReportedAs;
    if n <= 29 {
      forall i: nat | i < n ensures !FiresAt(frame, d, i) {
        NotBefore(frame, d, i);
      }
      return [];
    }
    bars := EventsOfBars(frame, n - 1, d);
    EventIff(frame, n - 1, d);
    if FiresAt(frame, d, n - 1) {
      forall j | 0 <= j < |bars| ensures bars[j] < n - 1 {
        assert bars[j] in bars;
      }
      bars := bars + [n - 1];
    }
  }

  lemma NotBefore(frame: seq<Bar>, d: Detectors, i: nat)
    requires i < 29
    ensures !FiresAt(frame, d, i)
  {
    hide ClosedBy, Resample;
  }

  /**
   The replay reports exactly the bars that fire: from the 30th on, those at whose close at least eight 15m bars
   are completed, the trend of these has a side, and the trigger on the 5m bars so far is valid. The events come in
   the order of their bars and say what the detectors said there.
   */
  lemma ReplayReportsExactly(frame: seq<Bar>, d: Detectors) returns (bars: seq<nat>)
    ensures Ascending(bars)
    ensures forall i: nat :: i in bars <==> FiresAt(frame, d, i)
    ensures |ReplayOf(frame, d)| == |bars|
    ensures forall j :: 0 <= j < |bars| ==> ReportedAs(frame, d, bars[j], ReplayOf(frame, d)[j])
  {
    hide Resample, FiresAt, ReportedAs, Events;
    ReplayIsEvents(frame, d);
    bars := EventsOfBars(frame, |frame|, d);
    forall i: nat | FiresAt(frame, d, i) ensures i < |frame| {
      FiresInFrame(frame, d, i);
    }
  }

  lemma FiresInFrame(frame: seq<Bar>, d: Detectors, i: nat)
    requires FiresAt(frame, d, i)
    ensures i < |frame|
  {
    hide ClosedBy, Resample;
  }
}
