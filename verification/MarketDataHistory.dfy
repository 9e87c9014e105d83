/** What a backfill stores, and what a broken one never does. */
module MarketDataHistory {
  import opened Wrappers
  import opened MarketData
  import opened MarketDataLaws

  // ----- a backfill that succeeds

  lemma {:induction false} NewRowsTimes(table: map<Key, Candle>, frame: seq<Candle>, symbol: string, interval: string)
    ensures forall at :: at in Times(NewRows(table, frame, symbol, interval))
                         <==> at in Times(frame) && (symbol, interval, at) !in table
  {
    if frame != [] {
      var n := |frame| - 1;
      assert frame == frame[..n] + [frame[n]];
      NewRowsTimes(table, frame[..n], symbol, interval);
      assert Times(frame) == Times(frame[..n]) + {frame[n].at};
      var front, last := NewRows(table, frame[..n], symbol, interval), frame[n];
      assert Times(front + [last]) == Times(front) + {last.at};
    }
  }

  lemma {:induction false} DistinctCounts(rows: seq<Candle>)
    requires Distinct(rows)
    ensures |Times(rows)| == |rows|
  {
    if rows == [] {
      assert Times(rows) == {};
    } else {
      var n := |rows| - 1;
      assert rows == rows[..n] + [rows[n]];
      DistinctCounts(rows[..n]);
      assert Times(rows) == Times(rows[..n]) + {rows[n].at};
      assert rows[n].at !in Times(rows[..n]);
    }
  }

  /** A save that succeeds leaves exactly the old times and those of the frame, and counts the difference. */
  lemma SaveStores(s: Store, frame: seq<Candle>, symbol: string, interval: string, cached: bool)
    requires SaveDataframe(s, frame, symbol, interval, cached).1.Some?
    ensures var (r, saved) := SaveDataframe(s, frame, symbol, interval, cached);
            && Stamps(r.table, symbol, interval) == Stamps(s.table, symbol, interval) + Times(frame)
            && saved.value == |Stamps(r.table, symbol, interval)| - |Stamps(s.table, symbol, interval)|
  {
    var rows := NewRows(s.table, frame, symbol, interval);
    NewRowsTimes(s.table, frame, symbol, interval);
    StampsOfTable(s.table, symbol, interval);
    hide NewRows, Inserted, Stamps, LastOf, Distinct;
    if frame == [] {
      assert Times(frame) == {};
      assert Stamps(s.table, symbol, interval) + Times(frame) == Stamps(s.table, symbol, interval);
    } else {
      InsertedStamps(s.table, rows, symbol, interval);
      DistinctCounts(rows);
      var stamps := Stamps(s.table, symbol, interval);
      assert stamps + Times(rows) == stamps + Times(frame);
      assert stamps !! Times(rows);
    }
  }

  lemma StampsOfTable(table: map<Key, Candle>, symbol: string, interval: string)
    ensures forall at :: at in Stamps(table, symbol, interval) <==> (symbol, interval, at) in table
  {
  }

  /** All times the provider answers for the spans. */
  function Answered(spans: seq<(int, int)>, provider: Provider): set<int> {
    if spans == [] then {}
    else
      var answer := provider.history(spans[0].0, spans[0].1);
      (if answer.Some? then Times(answer.value) else {}) + Answered(spans[1..], provider)
  }

  /** A backfill that succeeds leaves exactly the old times and all those answered, and its total is what was added. */
  lemma {:induction false} BackfillStoresAll(s: Store, spans: seq<(int, int)>, provider: Provider, symbol: string,
                                             interval: string)
    requires Filled(s, spans, provider, symbol, interval).1.Some?
    ensures var (r, total) := Filled(s, spans, provider, symbol, interval);
            && Stamps(r.table, symbol, interval) == Stamps(s.table, symbol, interval) + Answered(spans, provider)
            && total.value == |Stamps(r.table, symbol, interval)| - |Stamps(s.table, symbol, interval)|
    decreases |spans|
  {
    hide SaveDataframe, Stamps, Times;
    if spans != [] {
      var frame := provider.history(spans[0].0, spans[0].1).value;
      SaveStores(s, frame, symbol, interval, provider.cached(frame));
      var s1 := SaveDataframe(s, frame, symbol, interval, provider.cached(frame)).0;
      BackfillStoresAll(s1, spans[1..], provider, symbol, interval);
    }
  }

  // ----- a backfill that raises after it has stored something

  /** The incremental fetch asks for the last five days. */
  ghost predicate RecentInside(provider: Provider, today: int) {
    forall latest :: provider.recent(latest).Some? ==>
      forall c :: c in provider.recent(latest).value ==> today - RECENT_DAYS <= DateOf(c.at) <= today
  }

  /** From one table to the next the series keeps its times and gains only dates from `date` on. */
  ghost predicate GrowsFrom(s: Store, r: Store, symbol: string, interval: string, date: int) {
    && Stamps(s.table, symbol, interval) <= Stamps(r.table, symbol, interval)
    && forall at :: at in Stamps(r.table, symbol, interval) && at !in Stamps(s.table, symbol, interval) ==>
        date <= DateOf(at)
  }

  lemma DownloadGrowsFrom(s: Store, provider: Provider, name: string, interval: string, today: int, symbol: string)
    requires Stamps(s.table, symbol, interval) != {} && RecentInside(provider, today)
    ensures GrowsFrom(s, Download(s, provider, name, interval, today).0, symbol, interval, today - RECENT_DAYS)
  {
    hide Stamps, Filled, Fetched, DateOf, IsLatest;
    if name != symbol {
      DownloadKeepsOtherStamps(s, provider, name, interval, today, symbol);
    } else {
      LatestOfSome(s.table, symbol, interval);
      var latest := LatestStamp(s.table, symbol, interval);
      if provider.recent(latest).Some? {
        FetchStoresAndCaches(s, provider, symbol, interval, latest);
      } else {
        NothingFetched(s, provider, symbol, interval, latest);
      }
    }
  }

  lemma LatestOfSome(table: map<Key, Candle>, symbol: string, interval: string)
    ensures LatestStamp(table, symbol, interval).None? <==> Stamps(table, symbol, interval) == {}
  {
  }

  lemma {:induction false} FilledKeepsOtherStamps(s: Store, spans: seq<(int, int)>, provider: Provider, name: string,
                                                  interval: string, symbol: string)
    requires name != symbol
    ensures Stamps(Filled(s, spans, provider, name, interval).0.table, symbol, interval)
            == Stamps(s.table, symbol, interval)
    decreases |spans|
  {
    hide SaveDataframe, Stamps;
    if spans != [] && provider.history(spans[0].0, spans[0].1).Some? {
      var frame := provider.history(spans[0].0, spans[0].1).value;
      SaveKeepsOthers(s, frame, name, interval, symbol, interval, provider.cached(frame));
      var s1 := SaveDataframe(s, frame, name, interval, provider.cached(frame)).0;
      FilledKeepsOtherStamps(s1, spans[1..], provider, name, interval, symbol);
    }
  }

  lemma DownloadKeepsOtherStamps(s: Store, provider: Provider, name: string, interval: string, today: int,
                                 symbol: string)
    requires name != symbol
    ensures Stamps(Download(s, provider, name, interval, today).0.table, symbol, interval)
            == Stamps(s.table, symbol, interval)
  {
    hide SaveDataframe, Stamps, Filled, LatestStamp, Fresh;
    FilledKeepsOtherStamps(s, Windows(today - INITIAL_DAYS, today), provider, name, interval, symbol);
    var filled := if LatestStamp(s.table, name, interval).Some? then (s, Some(0))
                  else Filled(s, Windows(today - INITIAL_DAYS, today), provider, name, interval);
    var latest := LatestStamp(filled.0.table, name, interval);
    if provider.recent(latest).Some? {
      var unseen := Fresh(provider.recent(latest).value, latest);
      SaveKeepsOthers(filled.0, unseen, name, interval, symbol, interval, provider.cached(unseen));
    }
  }

  lemma GrowsTwice(s: Store, s1: Store, r: Store, symbol: string, interval: string, date: int)
    requires GrowsFrom(s, s1, symbol, interval, date) && GrowsFrom(s1, r, symbol, interval, date)
    ensures GrowsFrom(s, r, symbol, interval, date)
  {
    hide Stamps, DateOf;
  }

  lemma GrowthIsLater(s: Store, r: Store, symbol: string, interval: string, date: int, later: int)
    requires GrowsFrom(s, r, symbol, interval, later) && date <= later
    ensures GrowsFrom(s, r, symbol, interval, date)
  {
    hide Stamps, DateOf;
  }

  lemma GrowsFromItself(s: Store, symbol: string, interval: string, date: int)
    ensures GrowsFrom(s, s, symbol, interval, date)
  {
  }

  lemma {:induction false} DownloadAllGrowsFrom(s: Store, provider: string -> Provider, symbols: seq<string>,
                                                interval: string, today: int, symbol: string)
    requires Stamps(s.table, symbol, interval) != {} && forall name :: RecentInside(provider(name), today)
    ensures GrowsFrom(s, DownloadAll(s, provider, symbols, interval, today), symbol, interval, today - RECENT_DAYS)
    decreases |symbols|
  {
    hide Stamps, Download, RecentInside, DateOf;
    if symbols == [] {
      GrowsFromItself(s, symbol, interval, today - RECENT_DAYS);
    } else {
      DownloadGrowsFrom(s, provider(symbols[0]), symbols[0], interval, today, symbol);
      var (s1, saved) := Download(s, provider(symbols[0]), symbols[0], interval, today);
      StaysNonEmpty(s, s1, symbol, interval, today - RECENT_DAYS);
      if saved.Some? {
        DownloadAllGrowsFrom(s1, provider, symbols[1..], interval, today, symbol);
        GrowsTwice(s, s1, DownloadAll(s1, provider, symbols[1..], interval, today), symbol, interval,
                   today - RECENT_DAYS);
      }
    }
  }

  lemma StaysNonEmpty(s: Store, r: Store, symbol: string, interval: string, date: int)
    requires Stamps(s.table, symbol, interval) != {} && GrowsFrom(s, r, symbol, interval, date)
    ensures Stamps(r.table, symbol, interval) != {}
  {
    hide Stamps, DateOf;
  }

  /**
   A series that holds one candle is never backfilled again, so a backfill that raised after its
   first candles leaves a gap for good: over every later sequence of cycles, from date `first`
   on, no date before the five days the first of them asks for is ever added.
   */
  lemma {:induction false} MissedDatesStayMissing(s: Store, days: seq<Day>, symbol: string, interval: string,
                                                  first: int)
    requires Stamps(s.table, symbol, interval) != {}
    requires forall i :: 0 <= i < |days| ==> first <= days[i].today
    requires forall i, name :: 0 <= i < |days| ==> RecentInside(days[i].provider(name), days[i].today)
    ensures GrowsFrom(s, Cycles(s, days, interval), symbol, interval, first - RECENT_DAYS)
  {
    hide Stamps, DateOf, DownloadAll, RecentInside, GrowsFrom;
    if days == [] {
      GrowsFromItself(s, symbol, interval, first - RECENT_DAYS);
    } else {
      var n := |days| - 1;
      var day := days[n];
      MissedDatesStayMissing(s, days[..n], symbol, interval, first);
      var s1 := Cycles(s, days[..n], interval);
      if MarketOpen(day.second) {
        StaysNonEmpty(s, s1, symbol, interval, first - RECENT_DAYS);
        DownloadAllGrowsFrom(s1, day.provider, day.symbols, interval, day.today, symbol);
        var r := DownloadAll(s1, day.provider, day.symbols, interval, day.today);
        GrowthIsLater(s1, r, symbol, interval, first - RECENT_DAYS, day.today - RECENT_DAYS);
        GrowsTwice(s, s1, r, symbol, interval, first - RECENT_DAYS);
      }
    }
  }
}
