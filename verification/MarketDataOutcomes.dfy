/** What a download leaves in the table, from an empty series and from one that has candles. */
module MarketDataOutcomes {
  import opened Wrappers
  import opened MarketData
  import opened MarketDataLaws
  import opened MarketDataHistory

  /** The greatest of the times, or none of none. */
  ghost predicate IsGreatest(times: set<int>, latest: Option<int>) {
    match latest
    case None => times == {}
    case Some(at) => at in times && forall other :: other in times ==> other <= at
  }

  /** The times of the recent answer that are newer than all known ones. */
  function Newer(frame: seq<Candle>, latest: Option<int>): set<int> {
    set c | c in frame && (latest.None? || latest.value < c.at) :: c.at
  }

  /** To these times a download adds those of the recent answer that are newer than the greatest of them. */
  ghost predicate AddsNewer(known: set<int>, provider: Provider, stored: set<int>, saved: nat) {
    exists latest: Option<int> ::
      && IsGreatest(known, latest) && provider.recent(latest).Some?
      && stored == known + Newer(provider.recent(latest).value, latest)
      && saved == |Newer(provider.recent(latest).value, latest)|
  }

  lemma AfterIsNewer(frame: seq<Candle>, latest: Option<int>)
    ensures Times(After(frame, latest)) == Newer(frame, latest)
  {
  }

  lemma FetchAddsNewer(s: Store, provider: Provider, symbol: string, interval: string, latest: Option<int>)
    requires IsLatest(s.table, symbol, interval, latest)
    ensures var (r, saved) := Fetched(s, provider, symbol, interval, latest);
            saved.Some? ==>
              AddsNewer(Stamps(s.table, symbol, interval), provider, Stamps(r.table, symbol, interval), saved.value)
  {
    hide Stamps, SaveDataframe, After, Deduplicated, Distinct, Coherent, Ahead;
    if Fetched(s, provider, symbol, interval, latest).1.None? {
      return;
    }
    var frame := provider.recent(latest).value;
    var unseen := Fresh(frame, latest);
    FetchStoresAndCaches(s, provider, symbol, interval, latest);
    AfterIsNewer(frame, latest);
    FreshIsAhead(s, frame, symbol, interval, latest);
    SaveAheadStores(s, unseen, symbol, interval, provider.cached(unseen));
    DistinctCounts(unseen);
    var known := Stamps(s.table, symbol, interval);
    assert IsGreatest(known, latest);
  }

  /**
   A download that succeeds leaves, of a series without candles, exactly the times answered for the windows
   of the last 365 days and the newer ones of the recent answer; of a series with candles, exactly the old
   times and the newer ones. It returns how many the recent answer added.
   */
  lemma DownloadStores(s: Store, provider: Provider, symbol: string, interval: string, today: int)
    ensures var (r, saved) := Download(s, provider, symbol, interval, today);
            var known, stored := Stamps(s.table, symbol, interval), Stamps(r.table, symbol, interval);
            saved.Some? ==>
              AddsNewer(if known == {} then Answered(Windows(today - 365, today), provider) else known,
                        provider, stored, saved.value)
  {
    hide Stamps, Filled, Fetched, IsLatest, AddsNewer, Windows;
    LatestOfSome(s.table, symbol, interval);
    var latest := LatestStamp(s.table, symbol, interval);
    if latest.Some? {
      FetchAddsNewer(s, provider, symbol, interval, latest);
    } else {
      var spans := Windows(today - INITIAL_DAYS, today);
      var (s1, total) := Filled(s, spans, provider, symbol, interval);
      if total.Some? {
        BackfillStoresAll(s, spans, provider, symbol, interval);
        FetchAddsNewer(s1, provider, symbol, interval, LatestStamp(s1.table, symbol, interval));
      }
    }
  }

  /** Row i is the first of its time that is newer than `latest`. */
  predicate FirstNewer(frame: seq<Candle>, latest: Option<int>, i: nat) {
    && i < |frame| && (latest.None? || latest.value < frame[i].at)
    && forall j :: 0 <= j < i ==> frame[j].at != frame[i].at
  }

  lemma {:induction false} FirstIsKept(frame: seq<Candle>, i: nat)
    requires i < |frame| && forall j :: 0 <= j < i ==> frame[j].at != frame[i].at
    ensures frame[i] in Deduplicated(frame)
  {
    var n := |frame| - 1;
    if i < n {
      FirstIsKept(frame[..n], i);
    } else {
      DeduplicatedIsDistinct(frame[..n]);
    }
  }

  lemma {:induction false} FirstAfter(frame: seq<Candle>, latest: Option<int>, i: nat)
    requires FirstNewer(frame, latest, i)
    ensures frame[i] in Fresh(frame, latest)
  {
    var newer := After(frame, latest);
    AfterKeepsOrder(frame, latest, i);
    var k :| 0 <= k < |newer| && newer[k] == frame[i] && forall j :: 0 <= j < k ==> newer[j].at != frame[i].at;
    FirstIsKept(newer, k);
  }

  lemma {:induction false} AfterKeepsOrder(frame: seq<Candle>, latest: Option<int>, i: nat)
    requires FirstNewer(frame, latest, i)
    ensures var newer := After(frame, latest);
            exists k :: 0 <= k < |newer| && newer[k] == frame[i] && forall j :: 0 <= j < k ==>
                newer[j].at != frame[i].at
  {
    var n := |frame| - 1;
    var front := After(frame[..n], latest);
    if i < n {
      AfterKeepsOrder(frame[..n], latest, i);
      var k :| 0 <= k < |front| && front[k] == frame[i] && forall j :: 0 <= j < k ==> front[j].at != frame[i].at;
      assert After(frame, latest)[k] == frame[i];
    } else {
      forall j | 0 <= j < |front| ensures front[j].at != frame[n].at {
        assert front[j] in front;
      }
      assert After(frame, latest)[|front|] == frame[n];
    }
  }

  /** Of a recent answer that repeats a time, the first candle is the one stored, whatever becomes of the cache. */
  lemma FetchStoresFirst(s: Store, provider: Provider, symbol: string, interval: string, latest: Option<int>, i: nat)
    requires IsLatest(s.table, symbol, interval, latest) && provider.recent(latest).Some?
    requires FirstNewer(provider.recent(latest).value, latest, i)
    ensures var t, c := Fetched(s, provider, symbol, interval, latest).0.table, provider.recent(latest).value[i];
            (symbol, interval, c.at) in t && t[(symbol, interval, c.at)] == c
  {
    hide Stamps, After, Deduplicated, Distinct, Inserted, NewRows, LastOf, FirstNewer, Fresh;
    var frame := provider.recent(latest).value;
    var unseen := Fresh(frame, latest);
    FirstAfter(frame, latest, i);
    FreshIsAhead(s, frame, symbol, interval, latest);
    AheadIsNew(s.table, unseen, symbol, interval);
    InsertedRows(s.table, unseen, symbol, interval);
  }

  // ----- when a download succeeds

  /** The answer for a span can be saved: it came, repeats no time, and its cache write succeeds. */
  ghost predicate Saves(provider: Provider, span: (int, int)) {
    var answer := provider.history(span.0, span.1);
    answer.Some? && Distinct(answer.value) && (answer.value == [] || provider.cached(answer.value))
  }

  /** A backfill of dates after everything stored succeeds exactly when every answer can be saved. */
  lemma {:induction false} BackfillSucceedsIff(s: Store, current: int, end: int, provider: Provider, symbol: string,
                                               interval: string)
    requires AnswersInside(provider) && StoredBefore(s.table, symbol, interval, current)
    ensures var spans := Windows(current, end);
            Filled(s, spans, provider, symbol, interval).1.Some?
            <==> forall k :: 0 <= k < |spans| ==> Saves(provider, spans[k])
    decreases end - current
  {
    hide Stamps, SaveDataframe, DateOf, Distinct;
    if current <= end {
      var last, spans := BatchEnd(current, end), Windows(current, end);
      assert spans[1..] == Windows(last + 1, end);
      var answer := provider.history(current, last);
      if answer.Some? {
        forall c, at | c in answer.value && at in Stamps(s.table, symbol, interval) ensures at < c.at {
          EarlierDateIsEarlier(at, c.at);
        }
        SaveAheadStores(s, answer.value, symbol, interval, provider.cached(answer.value));
        var s1 := SaveDataframe(s, answer.value, symbol, interval, provider.cached(answer.value)).0;
        BackfillSucceedsIff(s1, last + 1, end, provider, symbol, interval);
      }
      assert Saves(provider, spans[0]) <==> Saves(provider, (current, last));
      assert forall k :: 1 <= k < |spans| ==> spans[k] == spans[1..][k - 1];
      assert (forall k :: 0 <= k < |spans| ==> Saves(provider, spans[k]))
        <==> Saves(provider, spans[0]) && forall k :: 0 <= k < |spans[1..]| ==> Saves(provider, spans[1..][k]);
    }
  }

  /**
   A download of a series with candles succeeds exactly when the recent answer comes and, if
   anything in it is newer, both cache writes succeed.
   */
  lemma DownloadSucceedsIff(s: Store, provider: Provider, symbol: string, interval: string, today: int,
                            latest: Option<int>)
    requires IsGreatest(Stamps(s.table, symbol, interval), latest) && latest.Some?
    ensures Download(s, provider, symbol, interval, today).1.Some?
            <==> && provider.recent(latest).Some?
                 && var unseen := Fresh(provider.recent(latest).value, latest);
                    Newer(provider.recent(latest).value, latest) == {}
                    || (provider.cached(unseen) && provider.cachedAgain(unseen))
  {
    hide Stamps, SaveDataframe, After, Deduplicated, Distinct, Filled, Ahead;
    assert LatestStamp(s.table, symbol, interval) == latest;
    if provider.recent(latest).Some? {
      var frame := provider.recent(latest).value;
      var unseen := Fresh(frame, latest);
      AfterIsNewer(frame, latest);
      FreshIsAhead(s, frame, symbol, interval, latest);
      SaveAheadStores(s, unseen, symbol, interval, provider.cached(unseen));
      DistinctCounts(unseen);
      hide Fresh, Newer;
      assert Times(unseen) == {} <==> unseen == [];
    }
  }

  // ----- rows

  /** The series keeps its rows and gains only rows of the answers. */
  ghost predicate Gains(s: Store, r: Store, symbol: string, interval: string, answers: set<Candle>) {
    && (forall k :: k in s.table ==> k in r.table && r.table[k] == s.table[k])
    && (forall k :: k in r.table && k !in s.table ==>
          k.0 == symbol && k.1 == interval && r.table[k] in answers && r.table[k].at == k.2)
  }

  lemma {:induction false} NewRowsAreNew(table: map<Key, Candle>, frame: seq<Candle>, symbol: string, interval: string)
    ensures forall c :: c in NewRows(table, frame, symbol, interval) ==>
            c in frame && (symbol, interval, c.at) !in table
  {
    if frame != [] {
      var n := |frame| - 1;
      assert frame == frame[..n] + [frame[n]];
      NewRowsAreNew(table, frame[..n], symbol, interval);
    }
  }

  lemma {:induction false} InsertedGains(s: Store, r: Store, rows: seq<Candle>, symbol: string, interval: string,
                                         answers: set<Candle>)
    requires r.table == Inserted(s.table, rows, symbol, interval) && Distinct(rows)
    requires forall c :: c in rows ==> c in answers && (symbol, interval, c.at) !in s.table
    ensures Gains(s, r, symbol, interval, answers)
  {
    InsertedRows(s.table, rows, symbol, interval);
    forall k | k in r.table && k !in s.table
      ensures k.0 == symbol && k.1 == interval && r.table[k] in answers && r.table[k].at == k.2
    {
      var c :| c in rows && c.at == k.2;
      assert k == (symbol, interval, c.at);
    }
    forall k | k in s.table ensures k in r.table && r.table[k] == s.table[k] {
      if k.2 in Times(rows) {
        var c :| c in rows && c.at == k.2;
        assert k != (symbol, interval, c.at);
      }
    }
  }

  lemma SaveGains(s: Store, frame: seq<Candle>, symbol: string, interval: string, cached: bool, answers: set<Candle>)
    requires forall c :: c in frame ==> c in answers
    ensures Gains(s, SaveDataframe(s, frame, symbol, interval, cached).0, symbol, interval, answers)
  {
    hide NewRows, Inserted, Gains, LastOf;
    var rows := NewRows(s.table, frame, symbol, interval);
    NewRowsAreNew(s.table, frame, symbol, interval);
    var r := SaveDataframe(s, frame, symbol, interval, cached).0;
    if frame != [] && Distinct(rows) {
      InsertedGains(s, r, rows, symbol, interval, answers);
    } else {
      NothingGained(s, symbol, interval, answers);
    }
  }

  lemma NothingGained(s: Store, symbol: string, interval: string, answers: set<Candle>)
    ensures Gains(s, s, symbol, interval, answers)
  {
  }

  lemma GainsTwice(s: Store, s1: Store, r: Store, symbol: string, interval: string, answers: set<Candle>)
    requires Gains(s, s1, symbol, interval, answers) && Gains(s1, r, symbol, interval, answers)
    ensures Gains(s, r, symbol, interval, answers)
  {
  }

  /** The answers include everything the provider says about these spans. */
  ghost predicate Includes(answers: set<Candle>, spans: seq<(int, int)>, provider: Provider) {
    forall k :: 0 <= k < |spans| && provider.history(spans[k].0, spans[k].1).Some? ==>
      forall c :: c in provider.history(spans[k].0, spans[k].1).value ==> c in answers
  }

  lemma {:induction false} FilledGains(s: Store, spans: seq<(int, int)>, provider: Provider, symbol: string,
                                       interval: string, answers: set<Candle>)
    requires Includes(answers, spans, provider)
    ensures Gains(s, Filled(s, spans, provider, symbol, interval).0, symbol, interval, answers)
    decreases |spans|
  {
    hide SaveDataframe, Gains;
    if spans == [] || provider.history(spans[0].0, spans[0].1).None? {
      NothingGained(s, symbol, interval, answers);
    } else {
      var frame := provider.history(spans[0].0, spans[0].1).value;
      SaveGains(s, frame, symbol, interval, provider.cached(frame), answers);
      var s1 := SaveDataframe(s, frame, symbol, interval, provider.cached(frame)).0;
      FilledGains(s1, spans[1..], provider, symbol, interval, answers);
      GainsTwice(s, s1, Filled(s1, spans[1..], provider, symbol, interval).0, symbol, interval, answers);
    }
  }

  lemma FreshIsAnswered(frame: seq<Candle>, latest: Option<int>)
    ensures forall c :: c in Fresh(frame, latest) ==> c in frame
  {
    DeduplicatedIsDistinct(After(frame, latest));
  }

  /**
   Whatever raises, a download changes no stored row and adds only candles the provider answered,
   under their own time.
   */
  lemma DownloadGainsAnswers(s: Store, provider: Provider, symbol: string, interval: string, today: int,
                             answers: set<Candle>)
    requires Includes(answers, Windows(today - 365, today), provider)
    requires forall latest, c :: provider.recent(latest).Some? && c in provider.recent(latest).value ==> c in answers
    ensures Gains(s, Download(s, provider, symbol, interval, today).0, symbol, interval, answers)
  {
    hide Gains, Filled, SaveDataframe, Fresh, Windows, Includes;
    var filled := if LatestStamp(s.table, symbol, interval).Some? then (s, Some(0))
                  else Filled(s, Windows(today - INITIAL_DAYS, today), provider, symbol, interval);
    FilledGains(s, Windows(today - INITIAL_DAYS, today), provider, symbol, interval, answers);
    NothingGained(s, symbol, interval, answers);
    NothingGained(filled.0, symbol, interval, answers);
    var latest := LatestStamp(filled.0.table, symbol, interval);
    if provider.recent(latest).Some? {
      var unseen := Fresh(provider.recent(latest).value, latest);
      FreshIsAnswered(provider.recent(latest).value, latest);
      SaveGains(filled.0, unseen, symbol, interval, provider.cached(unseen), answers);
    }
    GainsTwice(s, filled.0, Fetched(filled.0, provider, symbol, interval, latest).0, symbol, interval, answers);
  }

  // ----- a cycle

  /** One store before each symbol reached and one at the end; all downloads but the last of them succeeded. */
  ghost predicate GoesThrough(stores: seq<Store>, provider: string -> Provider, symbols: seq<string>, interval: string,
                              today: int) {
    && 1 <= |stores| <= |symbols| + 1
    && (forall k :: 0 <= k < |stores| - 1 ==>
          stores[k + 1] == Download(stores[k], provider(symbols[k]), symbols[k], interval, today).0)
    && (forall k :: 0 <= k < |stores| - 2 ==>
          Download(stores[k], provider(symbols[k]), symbols[k], interval, today).1.Some?)
    && (|stores| <= |symbols| ==>
          && |stores| >= 2
          && var k := |stores| - 2;
             Download(stores[k], provider(symbols[k]), symbols[k], interval, today).1.None?)
  }

  lemma {:induction false} DownloadsGoThrough(s: Store, provider: string -> Provider, symbols: seq<string>,
                                              interval: string, today: int) returns (stores: seq<Store>)
    ensures GoesThrough(stores, provider, symbols, interval, today)
    ensures stores[0] == s && stores[|stores| - 1] == DownloadAll(s, provider, symbols, interval, today)
    decreases |symbols|
  {
    hide Download;
    stores := [s];
    if symbols != [] {
      var (s1, saved) := Download(s, provider(symbols[0]), symbols[0], interval, today);
      if saved.None? {
        stores := [s, s1];
      } else {
        var rest := DownloadsGoThrough(s1, provider, symbols[1..], interval, today);
        stores := [s] + rest;
        assert forall k :: 1 <= k < |stores| ==> stores[k] == rest[k - 1];
        assert forall k :: 1 <= k < |symbols| ==> symbols[k] == symbols[1..][k - 1];
      }
    }
  }

  /**
   A cycle that begins between 9:15:00 and 15:30:00 downloads symbol after symbol, each on what the one before
   left, until one raises; any other changes nothing.
   */
  lemma CycleGoesThrough(s: Store, day: Day, interval: string) returns (stores: seq<Store>)
    ensures var open := 9 * 3600 + 15 * 60 <= day.second <= 15 * 3600 + 30 * 60;
            if !open then Cycle(s, day, interval) == s
            else
              && GoesThrough(stores, day.provider, day.symbols, interval, day.today)
              && stores[0] == s && stores[|stores| - 1] == Cycle(s, day, interval)
  {
    hide DownloadAll, GoesThrough;
    stores := DownloadsGoThrough(s, day.provider, day.symbols, interval, day.today);
  }
}
