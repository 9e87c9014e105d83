/** The repository, the backfill and the downloader as they are coded, over the table and the cache. */
module MarketDownloader {
  import opened Wrappers
  import opened MarketData
  import opened MarketDataLaws

  lemma SomeMember(s: set<int>)
    ensures s == {} || exists at :: at in s
  {
    if forall at: int :: at !in s {
      assert s == {};
    }
  }

  method Newest(stamps: set<int>) returns (latest: Option<int>)
    ensures latest.None? <==> stamps == {}
    ensures latest.Some? ==> latest.value in stamps && forall at :: at in stamps ==> at <= latest.value
  {
    latest := None;
    var todo := stamps;
    while todo != {}
      invariant todo <= stamps && (latest.None? ==> todo == stamps)
      invariant latest.Some? ==> latest.value in stamps && forall at :: at in stamps && at !in todo ==>
          at <= latest.value
      decreases todo
    {
      SomeMember(todo);
      var at :| at in todo;
      if latest.None? || at > latest.value {
        latest := Some(at);
      }
      todo := todo - {at};
    }
  }

  class Downloader {
    var table: map<Key, Candle>
    var cache: map<string, Cached>

    constructor ()
      ensures Now() == Store(map[], map[])
    {
      table, cache := map[], map[];
    }

    function Now(): Store
      reads this
    {
      Store(table, cache)
    }

    /** `get_latest_timestamp`: the query's ORDER BY and first row. */
    method GetLatestTimestamp(symbol: string, interval: string) returns (latest: Option<int>)
      ensures IsLatest(table, symbol, interval, latest)
    {
      latest := Newest(Stamps(table, symbol, interval));
    }

    /** `save_dataframe`; None when the insert violates the primary key or the cache write raises. */
    method SaveFrame(frame: seq<Candle>, symbol: string, interval: string, cached: bool) returns (saved: Option<nat>)
      modifies this
      ensures (Now(), saved) == SaveDataframe(old(Now()), frame, symbol, interval, cached)
    {
      if frame == [] {
        return Some(0);
      }
      var rows := [];
      for i := 0 to |frame|
        invariant rows == NewRows(table, frame[..i], symbol, interval)
      {
        assert frame[..i + 1][..i] == frame[..i];
        if (symbol, interval, frame[i].at) in table {
          continue;
        }
        rows := rows + [frame[i]];
      }
      assert frame[..|frame|] == frame;
      if !Distinct(rows) {
        return None;
      }
      table := Inserted(table, rows, symbol, interval);
      if !cached {
        return None;
      }
      cache := cache[symbol := Cached(interval, LastOf(frame))];
      saved := Some(|rows|);
    }

    /** `backfill`: one call for each window; None when a call or a save raises. */
    method Backfill(provider: Provider, symbol: string, interval: string, start: int,
                    end: int) returns (total: Option<nat>)
      modifies this
      ensures (Now(), total) == Filled(old(Now()), Windows(start, end), provider, symbol, interval)
    {
      hide SaveDataframe;
      ghost var first := Now();
      var current, totalSaved: nat := start, 0;
      while current <= end
        invariant Filled(first, Windows(start, end), provider, symbol, interval)
                  == (var rest := Filled(Now(), Windows(current, end), provider, symbol, interval);
                      (rest.0, if rest.1.None? then None else Some(totalSaved + rest.1.value)))
        decreases end - current
      {
        var batchEnd := BatchEnd(current, end);
        assert Windows(current, end)[1..] == Windows(batchEnd + 1, end);
        var candles := provider.history(current, batchEnd);
        if candles.None? {
          return None;
        }
        var saved := SaveFrame(candles.value, symbol, interval, provider.cached(candles.value));
        if saved.None? {
          return None;
        }
        totalSaved := totalSaved + saved.value;
        current := batchEnd + 1;
      }
      total := Some(totalSaved);
    }

    /** `download_symbol`; None when something raises. */
    method DownloadSymbol(provider: Provider, symbol: string, interval: string, today: int) returns (saved: Option<nat>)
      modifies this
      ensures (Now(), saved) == Download(old(Now()), provider, symbol, interval, today)
    {
      hide Filled, Fetched, IsLatest, LatestStamp;
      var latest := GetLatestTimestamp(symbol, interval);
      LatestIsUnique(table, symbol, interval, latest);
      if latest.None? {
        var total := Backfill(provider, symbol, interval, today - INITIAL_DAYS, today);
        if total.None? {
          return None;
        }
        latest := GetLatestTimestamp(symbol, interval);
        LatestIsUnique(table, symbol, interval, latest);
      }
      saved := FetchLatest(provider, symbol, interval, latest);
    }

    method FetchLatest(provider: Provider, symbol: string, interval: string,
                       latest: Option<int>) returns (saved: Option<nat>)
      modifies this
      ensures (Now(), saved) == Fetched(old(Now()), provider, symbol, interval, latest)
    {
      hide After, Distinct;
      var candles := provider.recent(latest);
      if candles.None? {
        return None;
      }
      var newer := After(candles.value, latest);
      if newer == [] {
        return Some(0);
      }
      SomethingIsFresh(newer);
      var unseen := Deduplicated(newer);
      hide SaveDataframe, LastOf, Deduplicated;
      ghost var before := Now();
      saved := SaveFrame(unseen, symbol, interval, provider.cached(unseen));
      if saved.Some? {
        CachedBySave(before, unseen, symbol, interval, provider.cached(unseen));
        if !provider.cachedAgain(unseen) {
          return None;
        }
        cache := cache[symbol := Cached(interval, LastOf(unseen))];
      }
    }

    /** `download_market_data`: inside market hours, symbol after symbol until one raises. */
    method DownloadMarketData(day: Day, interval: string)
      modifies this
      ensures Now() == Cycle(old(Now()), day, interval)
    {
      hide Download;
      if !MarketOpen(day.second) {
        return;
      }
      ghost var start := Now();
      for i := 0 to |day.symbols|
        invariant DownloadAll(start, day.provider, day.symbols, interval, day.today)
                  == DownloadAll(Now(), day.provider, day.symbols[i..], interval, day.today)
      {
        var symbol := day.symbols[i];
        assert day.symbols[i..][1..] == day.symbols[i + 1..];
        var saved := DownloadSymbol(day.provider(symbol), symbol, interval, day.today);
        if saved.None? {
          return;
        }
      }
    }
  }

  lemma LatestIsUnique(table: map<Key, Candle>, symbol: string, interval: string, latest: Option<int>)
    requires IsLatest(table, symbol, interval, latest)
    ensures latest == LatestStamp(table, symbol, interval)
  {
  }

  lemma SomethingIsFresh(newer: seq<Candle>)
    requires newer != []
    ensures Deduplicated(newer) != []
  {
    DeduplicatedIsDistinct(newer);
    assert newer[0].at in Times(newer);
  }

  lemma CachedBySave(s: Store, frame: seq<Candle>, symbol: string, interval: string, cached: bool)
    requires frame != [] && SaveDataframe(s, frame, symbol, interval, cached).1.Some?
    ensures var cache := SaveDataframe(s, frame, symbol, interval, cached).0.cache;
            cache[symbol := Cached(interval, LastOf(frame))] == cache
  {
  }
}
