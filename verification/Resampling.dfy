/**
 `resample_complete`: bars are grouped by (IST day, slot after 09:15), and only
 complete, contiguous, aligned groups become a bar of the target timeframe.
 */
module Resampling {
  import opened Wrappers
  import opened Ohlcv
  import opened CandleFrames

  datatype Key = Key(day: int, slot: int)

  predicate Before(a: Key, b: Key) {
    a.day < b.day || (a.day == b.day && a.slot < b.slot)
  }

  function KeyOf(ts: int, target: nat): Key
    requires target >= 1
  {
    Key(Day(ts), SessionOffset(ts) / target)
  }

  /** The bars of one group, in frame order. */
  function Group(frame: seq<Bar>, key: Key, target: nat): seq<Bar>
    requires target >= 1
  {
    if frame == [] then []
    else
      var front, last := frame[..|frame| - 1], frame[|frame| - 1];
      if KeyOf(last.ts, target) == key then Group(front, key, target) + [last] else Group(front, key, target)
  }

  predicate Contiguous(actual: seq<Bar>, source: nat) {
    forall k :: 0 <= k < |actual| ==> actual[k].ts == actual[0].ts + k * source
  }

  /** The row a group contributes, if it contributes one. */
  function RowOf(group: seq<Bar>, source: nat, target: nat): Option<Bar>
    requires source >= 1 && target >= 1
  {
    if group == [] || |group| != target / source then None
    else
      var actual := SortByTime(group);
      SortSorts(group);
      assert |multiset(actual)| == |multiset(group)|;
      if Contiguous(actual, source) && SessionOffset(actual[0].ts) % target == 0
      then Some(Bar(actual[0].ts, Merge(QuotesOf(group))))
      else None
  }

  function RowAt(frame: seq<Bar>, key: Key, source: nat, target: nat): Option<Bar>
    requires source >= 1 && target >= 1
  {
    RowOf(Group(frame, key, target), source, target)
  }

  /** Sorted insertion without duplicates. */
  function InsertKey(keys: seq<Key>, key: Key): seq<Key> {
    if keys == [] || Before(keys[|keys| - 1], key) then keys + [key]
    else if keys[|keys| - 1] == key then keys
    else InsertKey(keys[..|keys| - 1], key) + [keys[|keys| - 1]]
  }

  /** The distinct group keys of a frame, ascending. */
  function Keys(frame: seq<Bar>, target: nat): seq<Key>
    requires target >= 1
  {
    if frame == [] then []
    else InsertKey(Keys(frame[..|frame| - 1], target), KeyOf(frame[|frame| - 1].ts, target))
  }

  function Rows(frame: seq<Bar>, keys: seq<Key>, source: nat, target: nat): seq<Bar>
    requires source >= 1 && target >= 1
  {
    if keys == [] then []
    else
      var row := RowAt(frame, keys[|keys| - 1], source, target);
      Rows(frame, keys[..|keys| - 1], source, target) + (if row.Some? then [row.value] else [])
  }

  function Resample(frame: seq<Bar>, source: nat, target: nat): seq<Bar>
    requires source >= 1 && target >= 1
  {
    Rows(frame, Keys(frame, target), source, target)
  }

  datatype ReplayError =
    | TargetNotDivisible
    | UnsupportedSource
    | UnknownTimestampRole
    | NoCandles
    | DuplicateTimestamps
    | MissingPrice
    | ImpossiblePrice
    | IrregularInterval
    | OutsideSession
    | InsufficientHistory
    | SignalsChanged

  // ----- the loops

  /** The dict of groups; its order is that of the sorted keys. */
  method GroupBars(frame: seq<Bar>, target: nat) returns (grouped: map<Key, seq<Bar>>, order: seq<Key>)
    requires target >= 1
    ensures order == Keys(frame, target)
    ensures forall key :: (if key in grouped then grouped[key] else []) == Group(frame, key, target)
  {
    hide InsertKey, KeyOf;
    grouped, order := map[], [];
    for idx := 0 to |frame|
      invariant order == Keys(frame[..idx], target)
      invariant forall key :: (if key in grouped then grouped[key] else []) == Group(frame[..idx], key, target)
    {
      var key := KeyOf(frame[idx].ts, target);
      assert frame[..idx + 1][..idx] == frame[..idx];
      grouped := grouped[key := (if key in grouped then grouped[key] else []) + [frame[idx]]];
      order := InsertKey(order, key);
    }
    assert frame[..|frame|] == frame;
  }

  lemma RowsStep(frame: seq<Bar>, keys: seq<Key>, n: nat, source: nat, target: nat)
    requires source >= 1 && target >= 1 && n < |keys|
    ensures var row := RowAt(frame, keys[n], source, target);
            Rows(frame, keys[..n + 1], source, target)
            == Rows(frame, keys[..n], source, target) + if row.Some? then [row.value] else []
  {
    hide RowAt;
    assert keys[..n + 1][..n] == keys[..n];
  }

  /** The rows of the groups, in the order of their keys. */
  method BuildRows(frame: seq<Bar>, grouped: map<Key, seq<Bar>>, order: seq<Key>, source: nat, target: nat)
    returns (rows: seq<Bar>)
    requires source >= 1 && target >= 1
    requires forall key :: (if key in grouped then grouped[key] else []) == Group(frame, key, target)
    ensures rows == Rows(frame, order, source, target)
  {
    hide RowOf, Rows;
    rows := [];
    NoRows(frame, source, target);
    for n := 0 to |order|
      invariant rows == Rows(frame, order[..n], source, target)
    {
      var group := if order[n] in grouped then grouped[order[n]] else [];
      RowsStep(frame, order, n, source, target);
      var row := RowOf(group, source, target);
      if row.Some? {
        rows := rows + [row.value];
      }
    }
    assert order[..|order|] == order;
  }

  lemma NoRows(frame: seq<Bar>, source: nat, target: nat)
    requires source >= 1 && target >= 1
    ensures Rows(frame, [], source, target) == []
  {
  }

  method ResampleComplete(frame: seq<Bar>, source: nat, target: nat) returns (r: Result<seq<Bar>, ReplayError>)
    requires source >= 1 && target >= 1
    ensures r == if target % source != 0 then Err(TargetNotDivisible) else Ok(Resample(frame, source, target))
  {
    if target % source != 0 {
      return Err(TargetNotDivisible);
    }
    var grouped, order := GroupBars(frame, target);
    var rows := BuildRows(frame, grouped, order, source, target);
    return Ok(rows);
  }

  // ----- what the rows are

  ghost predicate SortedKeys(keys: seq<Key>) {
    forall i, j :: 0 <= i < j < |keys| ==> Before(keys[i], keys[j])
  }

  lemma {:induction false} InsertKeySorts(keys: seq<Key>, key: Key)
    requires SortedKeys(keys)
    ensures SortedKeys(InsertKey(keys, key))
    ensures forall k :: k in InsertKey(keys, key) <==> k in keys || k == key
  {
    if keys != [] {
      var front, last := keys[..|keys| - 1], keys[|keys| - 1];
      assert keys == front + [last];
      if Before(last, key) || last == key {
      } else {
        InsertKeySorts(front, key);
        var r := InsertKey(front, key);
        assert InsertKey(keys, key) == r + [last];
        hide InsertKey;
        forall i | 0 <= i < |r| ensures Before(r[i], last) {
          assert r[i] in r;
        }
        forall k ensures k in r + [last] <==> k in keys || k == key {
          assert k in keys <==> k in front || k == last;
        }
      }
    }
  }

  lemma {:induction false} KeysOfFrame(frame: seq<Bar>, target: nat)
    requires target >= 1
    ensures SortedKeys(Keys(frame, target))
    ensures forall i :: 0 <= i < |frame| ==> KeyOf(frame[i].ts, target) in Keys(frame, target)
  {
    if frame != [] {
      var front, last := frame[..|frame| - 1], frame[|frame| - 1];
      KeysOfFrame(front, target);
      InsertKeySorts(Keys(front, target), KeyOf(last.ts, target));
      assert forall i :: 0 <= i < |front| ==> front[i] == frame[i];
    }
  }

  lemma {:induction false} GroupMembers(frame: seq<Bar>, key: Key, target: nat)
    requires target >= 1
    ensures forall b :: b in Group(frame, key, target) <==> b in frame && KeyOf(b.ts, target) == key
  {
    if frame != [] {
      var front, last := frame[..|frame| - 1], frame[|frame| - 1];
      GroupMembers(front, key, target);
      assert frame == front + [last];
    }
  }

  /** A row opens at a bar of its group, so its key is the group's key. */
  lemma RowKey(frame: seq<Bar>, key: Key, source: nat, target: nat)
    requires source >= 1 && target >= 1
    ensures var row := RowAt(frame, key, source, target);
            row.Some? ==> KeyOf(row.value.ts, target) == key
                          && exists b :: b in frame && b.ts == row.value.ts
  {
    var group := Group(frame, key, target);
    var row := RowAt(frame, key, source, target);
    if row.Some? {
      GroupMembers(frame, key, target);
      SortSorts(group);
      var actual := SortByTime(group);
      assert actual[0] in multiset(actual);
      assert actual[0] in multiset(group);
      assert actual[0] in group;
    }
  }

  lemma {:induction false} RowsMembers(frame: seq<Bar>, keys: seq<Key>, source: nat, target: nat)
    requires source >= 1 && target >= 1
    requires SortedKeys(keys)
    ensures forall b :: b in Rows(frame, keys, source, target)
                        <==> KeyOf(b.ts, target) in keys && RowAt(frame, KeyOf(b.ts, target), source, target) == Some(b)
    ensures Increasing(Rows(frame, keys, source, target))
  {
    if keys != [] {
      var front, last := keys[..|keys| - 1], keys[|keys| - 1];
      assert keys == front + [last];
      RowsMembers(frame, front, source, target);
      RowKey(frame, last, source, target);
      var row := RowAt(frame, last, source, target);
      var rows := Rows(frame, front, source, target);
      var all := Rows(frame, keys, source, target);
      assert all == rows + (if row.Some? then [row.value] else []);
      hide Rows, RowAt;
      forall b ensures b in all
          <==> KeyOf(b.ts, target) in keys && RowAt(frame, KeyOf(b.ts, target), source, target) == Some(b) {
        assert b in all <==> b in rows || row == Some(b);
        assert KeyOf(b.ts, target) in keys <==> KeyOf(b.ts, target) in front || KeyOf(b.ts, target) == last;
      }
      forall i, j | 0 <= i < j < |all| ensures all[i].ts < all[j].ts {
        if j == |rows| {
          assert rows[i] in rows;
          assert KeyOf(rows[i].ts, target) in front;
          EarlierKey(rows[i].ts, all[j].ts, target);
        }
      }
    }
  }

  /** Keys are ordered like time. */
  lemma EarlierKey(x: int, y: int, target: nat)
    requires target >= 1
    requires Before(KeyOf(x, target), KeyOf(y, target))
    ensures x < y
  {
    if x >= y {
      assert Day(x) >= Day(y);
      if Day(x) == Day(y) {
        assert SessionOffset(x) >= SessionOffset(y);
        DivMonotone(SessionOffset(y), SessionOffset(x), target);
      }
    }
  }

  lemma DivMonotone(x: int, y: int, d: nat)
    requires d >= 1 && x <= y
    ensures x / d <= y / d
  {
    var q, r := x / d, y / d;
    assert x == d * q + x % d && y == d * r + y % d;
    if q > r {
      assert d * q >= d * r + d by {
        assert d * (r + 1) == d * r + d;
        MulMonotone(d, r + 1, q);
      }
    }
  }

  lemma MulMonotone(d: nat, x: int, y: int)
    requires x <= y
    ensures d * x <= d * y
  {
  }

  /** The rows of any frame: strictly increasing in time, and exactly one for each complete group. */
  lemma ResampleMembers(frame: seq<Bar>, source: nat, target: nat)
    requires source >= 1 && target >= 1
    ensures Increasing(Resample(frame, source, target))
    ensures forall b :: b in Resample(frame, source, target)
                        <==> RowAt(frame, KeyOf(b.ts, target), source, target) == Some(b)
  {
    KeysOfFrame(frame, target);
    RowsMembers(frame, Keys(frame, target), source, target);
    forall b: Bar | RowAt(frame, KeyOf(b.ts, target), source, target) == Some(b)
      ensures KeyOf(b.ts, target) in Keys(frame, target)
    {
      RowKey(frame, KeyOf(b.ts, target), source, target);
    }
  }
}
