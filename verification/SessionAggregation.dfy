/**
 The chart aggregators of the signal page: candles are cut into sessions (maximal
 runs with the same session key), each session into groups, each group into one candle.
 */
module SessionAggregation {
  import opened Wrappers
  import opened Ohlcv

  /** `volume` may be missing and then counts as zero. */
  datatype Candle = Candle(stamp: Option<string>, open: real, high: real, low: real, close: real,
                           volume: Option<real>)

  /** The trading day of a timestamp; any function of the timestamp will do. */
  type SessionKey = Option<string> -> string

  function QuoteOf(c: Candle): Quote {
    Quote(c.open, c.high, c.low, c.close, if c.volume.Some? then c.volume.value else 0.0)
  }

  function Quotes(cs: seq<Candle>): (qs: seq<Quote>)
    ensures |qs| == |cs|
    ensures forall i :: 0 <= i < |cs| ==> qs[i] == QuoteOf(cs[i])
  {
    seq(|cs|, i requires 0 <= i < |cs| => QuoteOf(cs[i]))
  }

  /** The candle `flushGroup` pushes for a non-empty group. */
  function MergeGroup(group: seq<Candle>): Candle
    requires group != []
  {
    var q := Merge(Quotes(group));
    Candle(group[0].stamp, q.open, q.high, q.low, q.close, Some(q.volume))
  }

  /** Consecutive groups of `size` candles, the last one possibly shorter. */
  function Groups(session: seq<Candle>, size: nat): seq<Candle>
    requires size >= 1
    decreases |session|
  {
    if session == [] then []
    else if |session| <= size then [MergeGroup(session)]
    else [MergeGroup(session[..size])] + Groups(session[size..], size)
  }

  ghost predicate OneSession(key: SessionKey, cs: seq<Candle>) {
    forall i :: 0 <= i < |cs| ==> key(cs[i].stamp) == key(cs[0].stamp)
  }

  /** Length of the leading session. */
  function SessionLength(key: SessionKey, cs: seq<Candle>): (n: nat)
    requires cs != []
    ensures 1 <= n <= |cs|
  {
    if |cs| == 1 || key(cs[1].stamp) != key(cs[0].stamp) then 1
    else 1 + SessionLength(key, cs[1..])
  }

  lemma {:induction false} SessionSpan(key: SessionKey, cs: seq<Candle>)
    requires cs != []
    ensures var n := SessionLength(key, cs);
            && (forall i :: 0 <= i < n ==> key(cs[i].stamp) == key(cs[0].stamp))
            && (n < |cs| ==> key(cs[n].stamp) != key(cs[0].stamp))
  {
    if |cs| > 1 && key(cs[1].stamp) == key(cs[0].stamp) {
      SessionSpan(key, cs[1..]);
      assert forall i :: 1 <= i < |cs| ==> cs[i] == cs[1..][i - 1];
    }
  }

  /** What `aggregateCandles` returns. */
  function Aggregate(key: SessionKey, cs: seq<Candle>, size: nat): seq<Candle>
    requires size >= 1
    decreases |cs|
  {
    if cs == [] then []
    else
      var n := SessionLength(key, cs);
      Groups(cs[..n], size) + Aggregate(key, cs[n..], size)
  }

  /** What `aggregateDailyCandles` returns: one candle a session. */
  function AggregateDaily(key: SessionKey, cs: seq<Candle>): seq<Candle>
    decreases |cs|
  {
    if cs == [] then []
    else
      var n := SessionLength(key, cs);
      [MergeGroup(cs[..n])] + AggregateDaily(key, cs[n..])
  }

  // ----- one session followed by the rest

  lemma SessionLengthIs(key: SessionKey, session: seq<Candle>, rest: seq<Candle>)
    requires session != [] && OneSession(key, session)
    requires rest != [] ==> key(rest[0].stamp) != key(session[0].stamp)
    ensures SessionLength(key, session + rest) == |session|
  {
    var all := session + rest;
    SessionSpan(key, all);
    assert forall i :: 0 <= i < |session| ==> all[i] == session[i];
    assert rest != [] ==> all[|session|] == rest[0];
  }

  lemma AggregateSession(key: SessionKey, session: seq<Candle>, rest: seq<Candle>, size: nat)
    requires size >= 1
    requires session != [] && OneSession(key, session)
    requires rest != [] ==> key(rest[0].stamp) != key(session[0].stamp)
    ensures Aggregate(key, session + rest, size) == Groups(session, size) + Aggregate(key, rest, size)
    ensures AggregateDaily(key, session + rest) == [MergeGroup(session)] + AggregateDaily(key, rest)
  {
    SessionLengthIs(key, session, rest);
    assert (session + rest)[..|session|] == session;
    assert (session + rest)[|session|..] == rest;
  }

  lemma Resplit<T>(xs: seq<T>, n: nat, ys: seq<T>)
    requires n <= |xs|
    ensures xs + ys == xs[..n] + (xs[n..] + ys)
  {
  }

  lemma Adjacent<T>(xs: seq<T>, i: nat, j: nat)
    requires i <= j <= |xs|
    ensures xs[..i] + xs[i..j] == xs[..j]
  {
  }

  /** Sessions can also be peeled off the end. */
  lemma {:induction false} AggregateLastSession(key: SessionKey, front: seq<Candle>, session: seq<Candle>, size: nat)
    requires size >= 1
    requires session != [] && OneSession(key, session)
    requires front != [] ==> key(front[|front| - 1].stamp) != key(session[0].stamp)
    ensures Aggregate(key, front + session, size) == Aggregate(key, front, size) + Groups(session, size)
    ensures AggregateDaily(key, front + session) == AggregateDaily(key, front) + [MergeGroup(session)]
    decreases |front|
  {
    hide MergeGroup;
    if front == [] {
      AggregateSession(key, session, [], size);
      assert session + [] == session && front + session == session;
    } else {
      SessionSpan(key, front);
      var n := SessionLength(key, front);
      var first, rest := front[..n], front[n..];
      AggregateLastSession(key, rest, session, size);
      AggregateSession(key, first, rest + session, size);
      Resplit(front, n, session);
      Associative(Groups(first, size), Aggregate(key, rest, size), Groups(session, size));
      Associative([MergeGroup(first)], AggregateDaily(key, rest), [MergeGroup(session)]);
    }
  }

  // ----- the loops

  lemma GroupsUnfold(session: seq<Candle>, size: nat)
    requires size >= 1 && session != []
    ensures var n := if size <= |session| then size else |session|;
            Groups(session, size) == [MergeGroup(session[..n])] + Groups(session[n..], size)
  {
    if |session| <= size {
      assert session[..|session|] == session;
    }
  }

  /** `flushSession`: the groups of the buffered session, in order, appended to `result`. */
  method FlushSession(session: seq<Candle>, size: nat, result: seq<Candle>) returns (flushed: seq<Candle>)
    requires size >= 1
    ensures flushed == result + Groups(session, size)
  {
    hide MergeGroup;
    flushed := result;
    ghost var rest, groups := session, [];
    var index := 0;
    while index < |session|
      invariant 0 <= index
      invariant rest == if index < |session| then session[index..] else []
      invariant groups + Groups(rest, size) == Groups(session, size)
      invariant flushed == result + groups
    {
      var end := if index + size <= |session| then index + size else |session|;
      var group := session[index..end];
      GroupsUnfold(rest, size);
      assert rest[..end - index] == group && rest[end - index..] == session[end..];
      Associative(groups, [MergeGroup(group)], Groups(session[end..], size));
      Associative(result, groups, [MergeGroup(group)]);
      flushed := flushed + [MergeGroup(group)];
      rest, groups := session[end..], groups + [MergeGroup(group)];
      index := index + size;
    }
  }

  /** After i candles the buffer holds those from start on, all of the session that began there. */
  ghost predicate Buffers(key: SessionKey, candles: seq<Candle>, start: nat, i: nat, session: seq<Candle>,
                          current: Option<string>) {
    && start <= i <= |candles| && session == candles[start..i] && (start == i ==> i == 0)
    && OneSession(key, session)
    && current == (if i == 0 then None else Some(key(candles[start].stamp)))
    && (0 < start < i ==> key(candles[start - 1].stamp) != key(candles[start].stamp))
  }

  /** The next candle goes on with the session. */
  lemma BufferGrows(key: SessionKey, candles: seq<Candle>, start: nat, i: nat, session: seq<Candle>,
                    current: Option<string>)
    requires i < |candles| && Buffers(key, candles, start, i, session, current)
    requires current.Some? ==> key(candles[i].stamp) == current.value
    ensures Buffers(key, candles, start, i + 1, session + [candles[i]], Some(key(candles[i].stamp)))
  {
    assert candles[start..i + 1] == session + [candles[i]];
    forall k | 0 <= k < |session| ensures key(session[k].stamp) == key(candles[i].stamp) {
      assert session[0] == candles[start];
    }
  }

  /** The next candle begins a new session. */
  lemma BufferRestarts(key: SessionKey, candles: seq<Candle>, start: nat, i: nat, session: seq<Candle>,
                       current: Option<string>)
    requires i < |candles| && Buffers(key, candles, start, i, session, current)
    requires current.Some? && key(candles[i].stamp) != current.value
    ensures Buffers(key, candles, i, i + 1, [candles[i]], Some(key(candles[i].stamp)))
  {
    assert session[|session| - 1] == candles[i - 1] && session[0] == candles[start];
  }

  /** Flushing the buffer aggregates all candles read so far. */
  lemma BufferFlushes(key: SessionKey, candles: seq<Candle>, start: nat, i: nat, session: seq<Candle>,
                      current: Option<string>, size: nat)
    requires size >= 1 && Buffers(key, candles, start, i, session, current)
    ensures Aggregate(key, candles[..i], size) == Aggregate(key, candles[..start], size) + Groups(session, size)
    ensures AggregateDaily(key, candles[..i])
            == AggregateDaily(key, candles[..start]) + if session == [] then [] else [MergeGroup(session)]
  {
    hide MergeGroup, Aggregate, AggregateDaily;
    Adjacent(candles, start, i);
    if session != [] {
      AggregateLastSession(key, candles[..start], session, size);
    }
  }

  lemma NothingAggregated(key: SessionKey, size: nat)
    requires size >= 1
    ensures Aggregate(key, [], size) == [] && AggregateDaily(key, []) == []
  {
  }

  method AggregateCandles(key: SessionKey, candles: seq<Candle>, groupSize: nat) returns (result: seq<Candle>)
    requires groupSize >= 1
    ensures result == Aggregate(key, candles, groupSize)
  {
    hide MergeGroup, Aggregate;
    result := [];
    var session: seq<Candle> := [];
    var currentSession: Option<string> := None;
    ghost var start: nat := 0;
    NothingAggregated(key, groupSize);
    assert Buffers(key, candles, 0, 0, [], None);
    hide Buffers;
    for i := 0 to |candles|
      invariant Buffers(key, candles, start, i, session, currentSession)
      invariant start <= i && result == Aggregate(key, candles[..start], groupSize)
    {
      var candle := candles[i];
      if currentSession.Some? && key(candle.stamp) != currentSession.value {
        BufferFlushes(key, candles, start, i, session, currentSession, groupSize);
        BufferRestarts(key, candles, start, i, session, currentSession);
        result := FlushSession(session, groupSize, result);
        session, start := [], i;
      } else {
        BufferGrows(key, candles, start, i, session, currentSession);
      }
      currentSession := Some(key(candle.stamp));
      session := session + [candle];
    }
    BufferFlushes(key, candles, start, |candles|, session, currentSession, groupSize);
    assert candles[..|candles|] == candles;
    result := FlushSession(session, groupSize, result);
  }

  method FlushDaily(session: seq<Candle>, result: seq<Candle>) returns (flushed: seq<Candle>)
    ensures flushed == if session == [] then result else result + [MergeGroup(session)]
  {
    flushed := result;
    if session == [] {
      return;
    }
    flushed := flushed + [MergeGroup(session)];
  }

  method AggregateDailyCandles(key: SessionKey, candles: seq<Candle>) returns (result: seq<Candle>)
    ensures result == AggregateDaily(key, candles)
  {
    hide MergeGroup, AggregateDaily;
    result := [];
    var session: seq<Candle> := [];
    var currentSession: Option<string> := None;
    ghost var start: nat := 0;
    NothingAggregated(key, 1);
    assert Buffers(key, candles, 0, 0, [], None);
    hide Buffers;
    for i := 0 to |candles|
      invariant Buffers(key, candles, start, i, session, currentSession)
      invariant start <= i && result == AggregateDaily(key, candles[..start])
    {
      var candle := candles[i];
      if currentSession.Some? && key(candle.stamp) != currentSession.value {
        BufferFlushes(key, candles, start, i, session, currentSession, 1);
        BufferRestarts(key, candles, start, i, session, currentSession);
        result := FlushDaily(session, result);
        session, start := [], i;
      } else {
        BufferGrows(key, candles, start, i, session, currentSession);
      }
      currentSession := Some(key(candle.stamp));
      session := session + [candle];
    }
    BufferFlushes(key, candles, start, |candles|, session, currentSession, 1);
    assert candles[..|candles|] == candles;
    result := FlushDaily(session, result);
  }

  // ----- composition

  /** Grouping by a and then the groups by b merges the whole session when b groups suffice. */
  lemma {:induction false} MergeOfGroups(session: seq<Candle>, a: nat)
    requires a >= 1 && session != []
    ensures MergeGroup(Groups(session, a)) == MergeGroup(session)
    decreases |session|
  {
    if |session| <= a {
      MergeOne(Merge(Quotes(session)));
      assert Quotes([MergeGroup(session)]) == [Merge(Quotes(session))];
    } else {
      var head, tail := session[..a], session[a..];
      var grouped := Groups(tail, a);
      MergeOfGroups(tail, a);
      MergeOne(Merge(Quotes(head)));
      assert Quotes([MergeGroup(head)] + grouped) == [Merge(Quotes(head))] + Quotes(grouped);
      assert Quotes(session) == Quotes(head) + Quotes(tail);
      MergePair([Merge(Quotes(head))], Quotes(grouped));
      MergePair(Quotes(head), Quotes(tail));
    }
  }

  /** A prefix of exactly k groups of a candles fills exactly k groups. */
  lemma {:induction false} GroupsSplit(session: seq<Candle>, a: nat, k: nat, w: nat)
    requires a >= 1 && w == k * a && w <= |session|
    ensures |Groups(session[..w], a)| == k
    ensures Groups(session, a) == Groups(session[..w], a) + Groups(session[w..], a)
    decreases k
  {
    hide MergeGroup;
    if k == 0 {
      assert session[0..] == session && session[..0] == [];
    } else {
      Less(k, a);
      assert a <= w;
      var front, tail := session[..w], session[a..];
      GroupsSplit(tail, a, k - 1, w - a);
      GroupsUnfold(session, a);
      GroupsUnfold(front, a);
      assert front[..a] == session[..a];
      assert front[a..] == tail[..w - a];
      assert tail[w - a..] == session[w..];
      Associative([MergeGroup(session[..a])], Groups(tail[..w - a], a), Groups(tail[w - a..], a));
    }
  }

  lemma Associative<T>(xs: seq<T>, ys: seq<T>, zs: seq<T>)
    ensures xs + (ys + zs) == (xs + ys) + zs
  {
  }

  lemma Less(k: nat, a: nat)
    requires k >= 1
    ensures k * a == (k - 1) * a + a
  {
  }

  lemma {:induction false} GroupsAtMost(session: seq<Candle>, a: nat, k: nat, w: nat)
    requires a >= 1 && w == k * a && |session| <= w
    ensures |Groups(session, a)| <= k
    decreases k
  {
    if k > 0 {
      Less(k, a);
      if |session| > a {
        GroupsAtMost(session[a..], a, k - 1, w - a);
      }
    }
  }

  lemma {:induction false} GroupsCompose(session: seq<Candle>, a: nat, b: nat)
    requires a >= 1 && b >= 1
    ensures a * b >= 1
    ensures Groups(Groups(session, a), b) == Groups(session, a * b)
    decreases |session|
  {
    var w := a * b;
    assert w >= 1 && w == b * a;
    if session == [] {
    } else if |session| <= w {
      GroupsAtMost(session, a, b, w);
      MergeOfGroups(session, a);
    } else {
      var head, tail := session[..w], session[w..];
      GroupsSplit(session, a, b, w);
      MergeOfGroups(head, a);
      GroupsCompose(tail, a, b);
      var grouped := Groups(session, a);
      assert grouped[..b] == Groups(head, a);
      assert grouped[b..] == Groups(tail, a);
      assert Groups(tail, a) != [];
    }
  }

  lemma {:induction false} GroupsOneSession(key: SessionKey, session: seq<Candle>, a: nat)
    requires a >= 1 && OneSession(key, session)
    ensures OneSession(key, Groups(session, a))
    ensures forall c :: c in Groups(session, a) ==> key(c.stamp) == key(session[0].stamp)
    decreases |session|
  {
    if |session| > a {
      GroupsOneSession(key, session[a..], a);
    }
  }

  /** Aggregating by a and then by b is aggregating by a*b, whatever the sessions. */
  lemma {:induction false} ChunkComposition(key: SessionKey, cs: seq<Candle>, a: nat, b: nat)
    requires a >= 1 && b >= 1
    ensures a * b >= 1
    ensures Aggregate(key, Aggregate(key, cs, a), b) == Aggregate(key, cs, a * b)
    decreases |cs|
  {
    assert a * b >= 1;
    if cs != [] {
      var n := SessionLength(key, cs);
      var session, rest := cs[..n], cs[n..];
      SessionSpan(key, cs);
      ChunkComposition(key, rest, a, b);
      GroupsCompose(session, a, b);
      GroupsOneSession(key, session, a);
      AggregateKeepsFirst(key, rest, a);
      AggregateSession(key, Groups(session, a), Aggregate(key, rest, a), b);
    }
  }

  lemma AggregateKeepsFirst(key: SessionKey, cs: seq<Candle>, a: nat)
    requires a >= 1
    ensures cs == [] <==> Aggregate(key, cs, a) == []
    ensures cs != [] ==> Aggregate(key, cs, a)[0].stamp == cs[0].stamp
  {
  }

  /** Daily candles do not depend on an earlier intraday aggregation. */
  lemma {:induction false} DailyAfterChunks(key: SessionKey, cs: seq<Candle>, a: nat)
    requires a >= 1
    ensures AggregateDaily(key, Aggregate(key, cs, a)) == AggregateDaily(key, cs)
    decreases |cs|
  {
    if cs != [] {
      var n := SessionLength(key, cs);
      var session, rest := cs[..n], cs[n..];
      SessionSpan(key, cs);
      DailyAfterChunks(key, rest, a);
      MergeOfGroups(session, a);
      GroupsOneSession(key, session, a);
      AggregateKeepsFirst(key, rest, a);
      AggregateSession(key, Groups(session, a), Aggregate(key, rest, a), 1);
    }
  }

  function Volume(cs: seq<Candle>): real { TotalVolume(Quotes(cs)) }

  lemma VolumeConcat(xs: seq<Candle>, ys: seq<Candle>)
    ensures Volume(xs + ys) == Volume(xs) + Volume(ys)
  {
    assert Quotes(xs + ys) == Quotes(xs) + Quotes(ys);
    TotalVolumeConcat(Quotes(xs), Quotes(ys));
  }

  lemma VolumeOfGroups(session: seq<Candle>, a: nat)
    requires a >= 1 && session != []
    ensures Volume(Groups(session, a)) == Volume(session)
  {
    MergeOfGroups(session, a);
    assert MergeGroup(session).volume == Some(Volume(session));
    assert MergeGroup(Groups(session, a)).volume == Some(Volume(Groups(session, a)));
  }

  /** No volume is lost or counted twice by any group size. */
  lemma {:induction false} VolumeConserved(key: SessionKey, cs: seq<Candle>, a: nat)
    requires a >= 1
    ensures Volume(Aggregate(key, cs, a)) == Volume(cs)
    decreases |cs|
  {
    if cs != [] {
      var n := SessionLength(key, cs);
      var session, rest := cs[..n], cs[n..];
      SessionSpan(key, cs);
      VolumeConserved(key, rest, a);
      VolumeOfGroups(session, a);
      VolumeConcat(session, rest);
      assert cs == session + rest;
      VolumeConcat(Groups(session, a), Aggregate(key, rest, a));
      assert Aggregate(key, cs, a) == Groups(session, a) + Aggregate(key, rest, a);
      hide Aggregate, Groups, Volume, SessionLength;
    }
  }
}
