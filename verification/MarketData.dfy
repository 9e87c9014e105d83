/** The candle table, the latest-candle cache and the downloader that fills both. */
module MarketData {
  import opened Wrappers

  /** Times are UTC minutes. */
  datatype Candle = Candle(at: int, open: real, high: real, low: real, close: real, volume: int)

  /** symbol, interval and timestamp: the primary key. */
  type Key = (string, string, int)

  /** The cache key is the symbol alone. */
  datatype Cached = Cached(interval: string, candle: Candle)

  datatype Store = Store(table: map<Key, Candle>, cache: map<string, Cached>)

  /**
   history: the candles of a span of dates; recent: the incremental fetch; None when the call
   raises. cached, cachedAgain: whether the cache write of a save, and the second one of a
   download, succeeds for a frame.
   */
  datatype Provider = Provider(history: (int, int) -> Option<seq<Candle>>, recent: Option<int> -> Option<seq<Candle>>,
                               cached: seq<Candle> -> bool, cachedAgain: seq<Candle> -> bool)

  const MINUTES_PER_DAY := 1440
  const IST_OFFSET := 330
  const BATCH_DAYS := 30
  const INITIAL_DAYS := 365
  const RECENT_DAYS := 5

  /** The trading date of a time. */
  function DateOf(at: int): int { (at + IST_OFFSET) / MINUTES_PER_DAY }

  predicate Distinct(frame: seq<Candle>) { forall i, j :: 0 <= i < j < |frame| ==> frame[i].at != frame[j].at }

  /** The last row once the frame is sorted by time. */
  function LastOf(frame: seq<Candle>): (r: Candle)
    requires frame != []
    ensures r in frame && forall c :: c in frame ==> c.at <= r.at
  {
    var last := frame[|frame| - 1];
    if |frame| == 1 then last
    else
      var best := LastOf(frame[..|frame| - 1]);
      assert frame == frame[..|frame| - 1] + [last];
      if best.at <= last.at then last else best
  }

  /** The rows whose key is not in the table yet. */
  function NewRows(table: map<Key, Candle>, frame: seq<Candle>, symbol: string, interval: string): seq<Candle> {
    if frame == [] then []
    else
      var n := |frame| - 1;
      NewRows(table, frame[..n], symbol, interval) + if (symbol, interval, frame[n].at) in table then [] else [frame[n]]
  }

  function Inserted(table: map<Key, Candle>, rows: seq<Candle>, symbol: string, interval: string): map<Key, Candle> {
    if rows == [] then table
    else
      var n := |rows| - 1;
      Inserted(table, rows[..n], symbol, interval)[(symbol, interval, rows[n].at) := rows[n]]
  }

  /**
   `save_dataframe`: None when the insert violates the primary key, which rolls it back, or when
   the cache write raises, which comes after the commit.
   */
  function SaveDataframe(s: Store, frame: seq<Candle>, symbol: string, interval: string,
                         cached: bool): (Store, Option<nat>) {
    var rows := NewRows(s.table, frame, symbol, interval);
    if frame == [] then (s, Some(0))
    else if !Distinct(rows) then (s, None)
    else
      var s1 := s.(table := Inserted(s.table, rows, symbol, interval));
      if cached then (s1.(cache := s.cache[symbol := Cached(interval, LastOf(frame))]), Some(|rows|)) else (s1, None)
  }

  function Stamps(table: map<Key, Candle>, symbol: string, interval: string): set<int> {
    set k | k in table && k.0 == symbol && k.1 == interval :: k.2
  }

  ghost predicate IsLatest(table: map<Key, Candle>, symbol: string, interval: string, latest: Option<int>) {
    match latest
    case None => Stamps(table, symbol, interval) == {}
    case Some(at) =>
      && at in Stamps(table, symbol, interval)
      && forall other :: other in Stamps(table, symbol, interval) ==> other <= at
  }

  function BatchEnd(current: int, end: int): int { if current + BATCH_DAYS <= end then current + BATCH_DAYS else end }

  /** The spans the backfill asks for. */
  function Windows(current: int, end: int): seq<(int, int)>
    decreases end - current
  {
    if current > end then [] else [(current, BatchEnd(current, end))] + Windows(BatchEnd(current, end) + 1, end)
  }

  /** Saving the answers for spans one after another, until a call raises. */
  function Filled(s: Store, spans: seq<(int, int)>, provider: Provider, symbol: string,
                  interval: string): (Store, Option<nat>)
    decreases |spans|
  {
    if spans == [] then (s, Some(0))
    else
      var answer := provider.history(spans[0].0, spans[0].1);
      if answer.None? then (s, None)
      else
        var (s1, saved) := SaveDataframe(s, answer.value, symbol, interval, provider.cached(answer.value));
        if saved.None? then (s1, None)
        else
          var (s2, more) := Filled(s1, spans[1..], provider, symbol, interval);
          (s2, if more.None? then None else Some(saved.value + more.value))
  }

  function Times(frame: seq<Candle>): set<int> { set c | c in frame :: c.at }

  /** The first row of each time. */
  function Deduplicated(frame: seq<Candle>): seq<Candle> {
    if frame == [] then []
    else
      var front, last := Deduplicated(frame[..|frame| - 1]), frame[|frame| - 1];
      if last.at in Times(front) then front else front + [last]
  }

  function After(frame: seq<Candle>, latest: Option<int>): (r: seq<Candle>)
    ensures forall c :: c in r <==> c in frame && (latest.None? || c.at > latest.value)
  {
    if frame == [] then []
    else
      var front, last := After(frame[..|frame| - 1], latest), frame[|frame| - 1];
      assert frame == frame[..|frame| - 1] + [last];
      if latest.None? || last.at > latest.value then front + [last] else front
  }

  /** The candles a download saves when `latest` is the newest one stored. */
  function Fresh(frame: seq<Candle>, latest: Option<int>): seq<Candle> { Deduplicated(After(frame, latest)) }

  /** The incremental part of `download_symbol`; None when something raises. */
  function Fetched(s: Store, provider: Provider, symbol: string, interval: string,
                   latest: Option<int>): (Store, Option<nat>) {
    var answer := provider.recent(latest);
    if answer.None? then (s, None)
    else
      var unseen := Fresh(answer.value, latest);
      var (s1, saved) := SaveDataframe(s, unseen, symbol, interval, provider.cached(unseen));
      (s1, if unseen != [] && !provider.cachedAgain(unseen) then None else saved)
  }

  lemma {:induction false} GreatestExists(stamps: set<int>)
    ensures stamps == {} || exists at :: at in stamps && forall other :: other in stamps ==> other <= at
  {
    if forall at: int :: at !in stamps {
      assert stamps == {};
    } else {
      var at: int :| at in stamps;
      var rest := stamps - {at};
      GreatestExists(rest);
      forall other | other in stamps ensures other == at || other in rest {
        assert other in rest <==> other != at;
      }
      if rest != {} {
        var best :| best in rest && forall other :: other in rest ==> other <= best;
        assert best in stamps;
        var greatest := if best >= at then best else at;
        assert greatest in stamps && forall other :: other in stamps ==> other <= greatest;
      }
    }
  }

  /** `get_latest_timestamp`. */
  ghost function LatestStamp(table: map<Key, Candle>, symbol: string, interval: string): (latest: Option<int>)
    ensures IsLatest(table, symbol, interval, latest)
  {
    var stamps := Stamps(table, symbol, interval);
    GreatestExists(stamps);
    if stamps == {} then None
    else
      var at :| at in stamps && forall other :: other in stamps ==> other <= at;
      Some(at)
  }

  /** `download_symbol`: a backfill of an empty series, then the incremental fetch; None when something raises. */
  ghost function Download(s: Store, provider: Provider, symbol: string, interval: string,
                          today: int): (Store, Option<nat>) {
    var filled := if LatestStamp(s.table, symbol, interval).Some? then (s, Some(0))
                  else Filled(s, Windows(today - INITIAL_DAYS, today), provider, symbol, interval);
    if filled.1.None? then (filled.0, None)
    else Fetched(filled.0, provider, symbol, interval, LatestStamp(filled.0.table, symbol, interval))
  }

  /** 09:15:00 to 15:30:00, in seconds of the trading day. */
  predicate MarketOpen(second: nat) { 33300 <= second <= 55800 }

  /** Symbol after symbol until one raises. */
  ghost function DownloadAll(s: Store, provider: string -> Provider, symbols: seq<string>, interval: string,
                             today: int): Store
    decreases |symbols|
  {
    if symbols == [] then s
    else
      var (s1, saved) := Download(s, provider(symbols[0]), symbols[0], interval, today);
      if saved.None? then s1 else DownloadAll(s1, provider, symbols[1..], interval, today)
  }

  /** What the provider does in one cycle, its symbols, its date and the second of the day it begins. */
  datatype Day = Day(provider: string -> Provider, symbols: seq<string>, today: int, second: nat)

  /** `download_market_data`: nothing outside market hours. */
  ghost function Cycle(s: Store, day: Day, interval: string): Store {
    if MarketOpen(day.second) then DownloadAll(s, day.provider, day.symbols, interval, day.today) else s
  }

  ghost function Cycles(s: Store, days: seq<Day>, interval: string): Store {
    if days == [] then s
    else
      var n := |days| - 1;
      Cycle(Cycles(s, days[..n], interval), days[n], interval)
  }
}
