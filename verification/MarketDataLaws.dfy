/** Windows that partition the backfill, unique keys, and a cache that agrees with the table. */
module MarketDataLaws {
  import opened Wrappers
  import opened MarketData

  // ----- the backfill windows

  /** Disjoint, adjacent spans of at most 31 dates from the first to the last. */
  predicate Partitions(spans: seq<(int, int)>, first: int, last: int) {
    && (spans == [] <==> first > last)
    && (spans != [] ==> spans[0].0 == first && spans[|spans| - 1].1 == last)
    && (forall k :: 0 <= k < |spans| ==> spans[k].0 <= spans[k].1 <= spans[k].0 + BATCH_DAYS)
    && (forall k :: 0 <= k < |spans| - 1 ==> spans[k + 1].0 == spans[k].1 + 1)
  }

  lemma {:induction false} WindowsPartition(current: int, end: int)
    ensures Partitions(Windows(current, end), current, end)
    decreases end - current
  {
    if current <= end {
      WindowsPartition(BatchEnd(current, end) + 1, end);
    }
  }

  predicate Spans(span: (int, int), date: int) { span.0 <= date <= span.1 }

  /** Every date of the range lies in exactly one span, and no other date in any. */
  lemma {:induction false} DateInOneWindow(current: int, end: int, spans: seq<(int, int)>, date: int)
    requires spans == Windows(current, end)
    ensures current <= date <= end <==> exists k :: 0 <= k < |spans| && Spans(spans[k], date)
    ensures forall j, k :: 0 <= j < k < |spans| && Spans(spans[j], date) ==> !Spans(spans[k], date)
    decreases end - current
  {
    if current <= end {
      var next, rest := BatchEnd(current, end) + 1, spans[1..];
      DateInOneWindow(next, end, rest, date);
      assert spans[0] == (current, next - 1);
      if next <= date <= end {
        var k :| 0 <= k < |rest| && Spans(rest[k], date);
        assert Spans(spans[k + 1], date);
      } else if current <= date <= end {
        assert Spans(spans[0], date);
      }
      forall k | 0 <= k < |spans| && Spans(spans[k], date) ensures current <= date <= end {
        if k > 0 {
          assert Spans(rest[k - 1], date);
        }
      }
      forall j, k | 0 <= j < k < |spans| && Spans(spans[j], date) ensures !Spans(spans[k], date) {
        assert spans[k] == rest[k - 1];
        if j > 0 {
          assert spans[j] == rest[j - 1];
        }
      }
    }
  }

  /** As few calls as spans of 31 dates allow. */
  lemma {:induction false} WindowCount(current: int, end: int)
    requires current <= end + 1
    ensures |Windows(current, end)| == (end - current + 31) / 31
    decreases end - current
  {
    if current <= end {
      WindowCount(BatchEnd(current, end) + 1, end);
    }
  }

  // ----- saving ahead of the table

  ghost predicate Ahead(table: map<Key, Candle>, frame: seq<Candle>, symbol: string, interval: string) {
    forall c, at :: c in frame && at in Stamps(table, symbol, interval) ==> at < c.at
  }

  /** The cache holds the newest candle of the table; it says nothing of an interval with no candle. */
  ghost predicate Coherent(s: Store, symbol: string, interval: string) {
    if Stamps(s.table, symbol, interval) == {} then symbol in s.cache ==> s.cache[symbol].interval != interval
    else
      && symbol in s.cache && s.cache[symbol].interval == interval
      && var c := s.cache[symbol].candle;
         && IsLatest(s.table, symbol, interval, Some(c.at))
         && (symbol, interval, c.at) in s.table && s.table[(symbol, interval, c.at)] == c
  }

  lemma {:induction false} AheadIsNew(table: map<Key, Candle>, frame: seq<Candle>, symbol: string, interval: string)
    requires Ahead(table, frame, symbol, interval)
    ensures NewRows(table, frame, symbol, interval) == frame
  {
    if frame != [] {
      var n := |frame| - 1;
      assert frame == frame[..n] + [frame[n]];
      AheadIsNew(table, frame[..n], symbol, interval);
      var last := frame[n];
      assert last in frame;
      assert (symbol, interval, last.at) in table ==> last.at in Stamps(table, symbol, interval);
    }
  }

  lemma {:induction false} InsertedRows(table: map<Key, Candle>, rows: seq<Candle>, symbol: string, interval: string)
    requires Distinct(rows)
    ensures var t := Inserted(table, rows, symbol, interval);
            && (forall c :: c in rows ==> (symbol, interval, c.at) in t && t[(symbol, interval, c.at)] == c)
            && (forall k :: k in table ==> k in t)
            && (forall k :: k in t ==> k in table || (k.0 == symbol && k.1 == interval && k.2 in Times(rows)))
            && (forall k :: k in table && !(k.0 == symbol && k.1 == interval && k.2 in Times(rows)) ==>
                t[k] == table[k])
  {
    if rows != [] {
      var n := |rows| - 1;
      assert rows == rows[..n] + [rows[n]];
      InsertedRows(table, rows[..n], symbol, interval);
    }
  }

  lemma InsertedStamps(table: map<Key, Candle>, rows: seq<Candle>, symbol: string, interval: string)
    requires Distinct(rows)
    ensures Stamps(Inserted(table, rows, symbol, interval), symbol, interval)
            == Stamps(table, symbol, interval) + Times(rows)
  {
    InsertedRows(table, rows, symbol, interval);
    var t := Inserted(table, rows, symbol, interval);
    forall at | at in Times(rows) ensures at in Stamps(t, symbol, interval) {
      var c :| c in rows && c.at == at;
      assert (symbol, interval, c.at) in t;
    }
    forall at | at in Stamps(table, symbol, interval) ensures at in Stamps(t, symbol, interval) {
      assert (symbol, interval, at) in t;
    }
    hide Inserted;
  }

  lemma NewestIsLatest(s: Store, c: Candle, symbol: string, interval: string)
    requires symbol in s.cache && s.cache[symbol] == Cached(interval, c)
    requires (symbol, interval, c.at) in s.table && s.table[(symbol, interval, c.at)] == c
    requires forall at :: at in Stamps(s.table, symbol, interval) ==> at <= c.at
    ensures Coherent(s, symbol, interval)
  {
    assert c.at in Stamps(s.table, symbol, interval);
  }

  /** A save of newer candles commits distinct ones, whatever becomes of the cache write, and nothing otherwise. */
  lemma SaveAheadStores(s: Store, frame: seq<Candle>, symbol: string, interval: string, cached: bool)
    requires Ahead(s.table, frame, symbol, interval)
    ensures var (r, saved) := SaveDataframe(s, frame, symbol, interval, cached);
            && (saved.Some? <==> Distinct(frame) && (cached || frame == []))
            && (saved.Some? ==> saved == Some(|frame|))
            && (if Distinct(frame)
                then Stamps(r.table, symbol, interval) == Stamps(s.table, symbol, interval) + Times(frame)
                else r == s)
  {
    hide Stamps, Inserted, NewRows, LastOf, Distinct;
    AheadIsNew(s.table, frame, symbol, interval);
    if frame == [] {
      EmptyIsDistinct();
    } else if Distinct(frame) {
      InsertedStamps(s.table, frame, symbol, interval);
    }
  }

  lemma EmptyIsDistinct()
    ensures Distinct([]) && Times([]) == {}
  {
  }

  /** Whatever the cache held before, a save of newer candles whose cache write succeeds leaves the newest in it. */
  lemma CachedSaveIsCoherent(s: Store, frame: seq<Candle>, symbol: string, interval: string)
    requires Ahead(s.table, frame, symbol, interval) && Distinct(frame) && frame != []
    ensures Coherent(SaveDataframe(s, frame, symbol, interval, true).0, symbol, interval)
  {
    hide Coherent, Stamps, Inserted, NewRows, LastOf, Distinct;
    AheadIsNew(s.table, frame, symbol, interval);
    InsertedRows(s.table, frame, symbol, interval);
    InsertedStamps(s.table, frame, symbol, interval);
    var r, c := SaveDataframe(s, frame, symbol, interval, true).0, LastOf(frame);
    assert forall at :: at in Times(frame) ==> at <= c.at;
    assert forall at :: at in Stamps(s.table, symbol, interval) ==> at <= c.at;
    NewestIsLatest(r, c, symbol, interval);
  }

  /** A cache write that raises after newer candles were committed leaves the cache behind the table. */
  lemma UncachedSaveIsBehind(s: Store, frame: seq<Candle>, symbol: string, interval: string)
    requires Ahead(s.table, frame, symbol, interval) && Distinct(frame) && frame != [] && Coherent(s, symbol, interval)
    ensures !Coherent(SaveDataframe(s, frame, symbol, interval, false).0, symbol, interval)
  {
    hide Stamps, Inserted, NewRows, LastOf, Distinct;
    SaveAheadStores(s, frame, symbol, interval, false);
    var r := SaveDataframe(s, frame, symbol, interval, false).0;
    assert frame[0] in frame && frame[0].at in Times(frame);
    assert r.cache == s.cache;
  }

  /**
   The cache agrees with the table after a save of newer candles iff none was committed or the cache
   write succeeded.
   */
  lemma SaveAheadCoherentIff(s: Store, frame: seq<Candle>, symbol: string, interval: string, cached: bool)
    requires Ahead(s.table, frame, symbol, interval) && Coherent(s, symbol, interval)
    ensures Coherent(SaveDataframe(s, frame, symbol, interval, cached).0, symbol, interval)
            <==> frame == [] || !Distinct(frame) || cached
  {
    hide Coherent, SaveDataframe, Distinct;
    SaveAheadStores(s, frame, symbol, interval, cached);
    if frame == [] {
      SaveOfNothing(s, symbol, interval, cached);
    } else if Distinct(frame) {
      if cached {
        CachedSaveIsCoherent(s, frame, symbol, interval);
      } else {
        UncachedSaveIsBehind(s, frame, symbol, interval);
      }
    }
  }

  lemma SaveOfNothing(s: Store, symbol: string, interval: string, cached: bool)
    ensures SaveDataframe(s, [], symbol, interval, cached) == (s, Some(0))
  {
  }

  // ----- downloads

  /** Each answer about a span of dates lies inside it. */
  ghost predicate AnswersInside(provider: Provider) {
    forall from, to :: provider.history(from, to).Some? ==>
      forall c :: c in provider.history(from, to).value ==> from <= DateOf(c.at) <= to
  }

  /** No cache write raises. */
  ghost predicate CacheUp(provider: Provider) { forall frame :: provider.cached(frame) }

  ghost predicate StoredBefore(table: map<Key, Candle>, symbol: string, interval: string, date: int) {
    forall at :: at in Stamps(table, symbol, interval) ==> DateOf(at) < date
  }

  lemma EarlierDateIsEarlier(at: int, at': int)
    requires DateOf(at) < DateOf(at')
    ensures at < at'
  {
  }

  /** A backfill that starts after everything stored keeps the cache at the newest candle, even when a call raises. */
  lemma {:induction false} BackfillKeepsCoherent(s: Store, current: int, end: int, provider: Provider, symbol: string,
                                                 interval: string)
    requires AnswersInside(provider) && CacheUp(provider) && Coherent(s, symbol, interval)
            && StoredBefore(s.table, symbol, interval, current)
    ensures Coherent(Filled(s, Windows(current, end), provider, symbol, interval).0, symbol, interval)
    decreases end - current
  {
    hide Coherent, Stamps, SaveDataframe, DateOf;
    if current <= end {
      var last := BatchEnd(current, end);
      assert Windows(current, end)[1..] == Windows(last + 1, end);
      var answer := provider.history(current, last);
      if answer.Some? {
        forall c, at | c in answer.value && at in Stamps(s.table, symbol, interval) ensures at < c.at {
          EarlierDateIsEarlier(at, c.at);
        }
        SaveAheadCoherentIff(s, answer.value, symbol, interval, provider.cached(answer.value));
        SaveAheadStores(s, answer.value, symbol, interval, provider.cached(answer.value));
        BackfillKeepsCoherent(SaveDataframe(s, answer.value, symbol, interval, provider.cached(answer.value)).0,
                              last + 1, end, provider, symbol, interval);
      }
    }
  }

  lemma {:induction false} DeduplicatedIsDistinct(frame: seq<Candle>)
    ensures Distinct(Deduplicated(frame)) && Times(Deduplicated(frame)) == Times(frame)
    ensures forall c :: c in Deduplicated(frame) ==> c in frame
  {
    if frame != [] {
      var n := |frame| - 1;
      assert frame == frame[..n] + [frame[n]];
      DeduplicatedIsDistinct(frame[..n]);
      assert Times(frame) == Times(frame[..n]) + {frame[n].at};
    }
  }

  lemma FreshIsAhead(s: Store, frame: seq<Candle>, symbol: string, interval: string, latest: Option<int>)
    requires IsLatest(s.table, symbol, interval, latest)
    ensures Ahead(s.table, Fresh(frame, latest), symbol, interval) && Distinct(Fresh(frame, latest))
    ensures Times(Fresh(frame, latest)) == Times(After(frame, latest))
  {
    hide Deduplicated, Stamps, Distinct;
    DeduplicatedIsDistinct(After(frame, latest));
  }

  /**
   The incremental fetch stores exactly the newer times it is given, whatever the provider
   answers. It keeps the cache at the newest candle iff there was none or its write succeeded,
   and a successful write repairs a cache that had fallen behind.
   */
  lemma FetchStoresAndCaches(s: Store, provider: Provider, symbol: string, interval: string, latest: Option<int>)
    requires IsLatest(s.table, symbol, interval, latest) && provider.recent(latest).Some?
    ensures var unseen := Fresh(provider.recent(latest).value, latest);
            var r := Fetched(s, provider, symbol, interval, latest).0;
            && Stamps(r.table, symbol, interval)
               == Stamps(s.table, symbol, interval) + Times(After(provider.recent(latest).value, latest))
            && (Coherent(s, symbol, interval) ==>
                (Coherent(r, symbol, interval) <==> unseen == [] || provider.cached(unseen)))
            && (unseen != [] && provider.cached(unseen) ==> Coherent(r, symbol, interval))
  {
    hide Fresh, Coherent, Stamps, SaveDataframe, After, Ahead, Distinct;
    var unseen := Fresh(provider.recent(latest).value, latest);
    FreshIsAhead(s, provider.recent(latest).value, symbol, interval, latest);
    SaveAheadStores(s, unseen, symbol, interval, provider.cached(unseen));
    if Coherent(s, symbol, interval) {
      SaveAheadCoherentIff(s, unseen, symbol, interval, provider.cached(unseen));
    }
    if unseen != [] {
      CachedSaveIsCoherent(s, unseen, symbol, interval);
    }
  }

  // ----- other series

  /** Saving touches no other symbol, and of its own symbol the other intervals' rows stay. */
  lemma SaveKeepsOthers(s: Store, frame: seq<Candle>, symbol: string, interval: string, symbol': string,
                        interval': string, cached: bool)
    requires (symbol', interval') != (symbol, interval)
    ensures var r := SaveDataframe(s, frame, symbol, interval, cached).0;
            && Stamps(r.table, symbol', interval') == Stamps(s.table, symbol', interval')
            && (symbol' != symbol && Coherent(s, symbol', interval') ==> Coherent(r, symbol', interval'))
  {
    var rows := NewRows(s.table, frame, symbol, interval);
    if frame != [] && Distinct(rows) {
      InsertedRows(s.table, rows, symbol, interval);
      hide Inserted, NewRows, Distinct;
      var t := Inserted(s.table, rows, symbol, interval);
      assert forall at :: (symbol', interval', at) in t <==> (symbol', interval', at) in s.table;
    }
  }

  /**
   The cache key lacks the interval: after candles of one interval are saved, the cache
   still agrees with another interval of the symbol exactly when that one has no candle.
   */
  lemma SharedKeyAgreesIff(s: Store, frame: seq<Candle>, symbol: string, interval: string, interval': string)
    requires interval' != interval && frame != [] && SaveDataframe(s, frame, symbol, interval, true).1.Some?
    ensures Coherent(SaveDataframe(s, frame, symbol, interval, true).0, symbol, interval')
            <==> Stamps(s.table, symbol, interval') == {}
  {
    SaveKeepsOthers(s, frame, symbol, interval, symbol, interval', true);
    hide Stamps, Inserted, NewRows, Distinct, LastOf;
  }

  lemma EmptyIsStoredBefore(s: Store, symbol: string, interval: string, date: int)
    requires IsLatest(s.table, symbol, interval, None)
    ensures StoredBefore(s.table, symbol, interval, date)
  {
  }

  lemma {:induction false} FilledKeepsOthers(s: Store, spans: seq<(int, int)>, provider: Provider, symbol: string,
                                             interval: string)
    ensures forall symbol' :: symbol' != symbol && Coherent(s, symbol', interval)
              ==> Coherent(Filled(s, spans, provider, symbol, interval).0, symbol', interval)
    decreases |spans|
  {
    hide SaveDataframe, Coherent;
    if spans != [] && provider.history(spans[0].0, spans[0].1).Some? {
      var frame := provider.history(spans[0].0, spans[0].1).value;
      var s1 := SaveDataframe(s, frame, symbol, interval, provider.cached(frame)).0;
      forall symbol' | symbol' != symbol && Coherent(s, symbol', interval) ensures Coherent(s1, symbol', interval) {
        SaveKeepsOthers(s, frame, symbol, interval, symbol', interval, provider.cached(frame));
      }
      FilledKeepsOthers(s1, spans[1..], provider, symbol, interval);
    }
  }

  lemma FetchedKeepsOthers(s: Store, provider: Provider, symbol: string, interval: string, latest: Option<int>)
    ensures forall symbol' :: symbol' != symbol && Coherent(s, symbol', interval)
              ==> Coherent(Fetched(s, provider, symbol, interval, latest).0, symbol', interval)
  {
    hide SaveDataframe, Coherent, Fresh;
    if provider.recent(latest).Some? {
      var frame := Fresh(provider.recent(latest).value, latest);
      forall symbol' | symbol' != symbol && Coherent(s, symbol', interval)
        ensures Coherent(SaveDataframe(s, frame, symbol, interval, provider.cached(frame)).0, symbol', interval)
      {
        SaveKeepsOthers(s, frame, symbol, interval, symbol', interval, provider.cached(frame));
      }
    }
  }

  lemma NothingFetched(s: Store, provider: Provider, symbol: string, interval: string, latest: Option<int>)
    requires provider.recent(latest).None?
    ensures Fetched(s, provider, symbol, interval, latest) == (s, None)
  {
  }

  /** A download keeps the cache at the newest candle of its symbol, and of every other one, raised or not. */
  lemma DownloadKeepsCoherent(s: Store, provider: Provider, symbol: string, interval: string, today: int)
    requires AnswersInside(provider) && CacheUp(provider)
    ensures forall other :: Coherent(s, other, interval)
              ==> Coherent(Download(s, provider, symbol, interval, today).0, other, interval)
  {
    hide Coherent, Filled, Fetched, IsLatest, LatestStamp, AnswersInside;
    var spans := Windows(today - INITIAL_DAYS, today);
    var latest := LatestStamp(s.table, symbol, interval);
    var filled := if latest.Some? then (s, Some(0)) else Filled(s, spans, provider, symbol, interval);
    FilledKeepsOthers(s, spans, provider, symbol, interval);
    FetchedKeepsOthers(filled.0, provider, symbol, interval, LatestStamp(filled.0.table, symbol, interval));
    if Coherent(s, symbol, interval) {
      if latest.None? {
        EmptyIsStoredBefore(s, symbol, interval, today - INITIAL_DAYS);
        BackfillKeepsCoherent(s, today - INITIAL_DAYS, today, provider, symbol, interval);
      }
      var newest := LatestStamp(filled.0.table, symbol, interval);
      if provider.recent(newest).Some? {
        FetchStoresAndCaches(filled.0, provider, symbol, interval, newest);
      } else {
        NothingFetched(filled.0, provider, symbol, interval, newest);
      }
    }
  }

  lemma {:induction false} DownloadAllKeepsCoherent(s: Store, provider: string -> Provider, symbols: seq<string>,
                                                    interval: string, today: int)
    requires forall symbol :: AnswersInside(provider(symbol)) && CacheUp(provider(symbol))
    ensures forall other :: Coherent(s, other, interval) ==>
            Coherent(DownloadAll(s, provider, symbols, interval, today), other, interval)
    decreases |symbols|
  {
    hide Coherent, Download, AnswersInside;
    if symbols != [] {
      DownloadKeepsCoherent(s, provider(symbols[0]), symbols[0], interval, today);
      var (s1, saved) := Download(s, provider(symbols[0]), symbols[0], interval, today);
      DownloadAllKeepsCoherent(s1, provider, symbols[1..], interval, today);
    }
  }

  /**
   From empty stores, after any sequence of download cycles of one interval, provider calls
   that raise included, the cached candle of every symbol is the newest row of the table.
   */
  lemma {:induction false} CacheIsNewest(days: seq<Day>, interval: string, symbol: string)
    requires forall i, name :: 0 <= i < |days| ==>
               AnswersInside(days[i].provider(name)) && CacheUp(days[i].provider(name))
    ensures Coherent(Cycles(Store(map[], map[]), days, interval), symbol, interval)
  {
    hide AnswersInside, DownloadAll;
    if days != [] {
      var n := |days| - 1;
      CacheIsNewest(days[..n], interval, symbol);
      DownloadAllKeepsCoherent(Cycles(Store(map[], map[]), days[..n], interval), days[n].provider, days[n].symbols,
                               interval, days[n].today);
      hide Coherent;
    }
  }
}
