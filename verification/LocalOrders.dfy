/** `_local_orders`: the entries a reconciliation run goes through, gathered from four sources. */
module LocalOrders {
  import opened StatusWords
  import opened Reconciliation

  /** A row of the order store. */
  datatype StoredOrder = StoredOrder(localId: string, brokerId: string, mode: Mode, symbol: string, side: string,
                                     quantity: int, price: real, status: Word)

  /** A dict: its keys in insertion order, and their values. */
  datatype Dict<T> = Dict(keys: seq<string>, values: map<string, T>)

  function Put<T>(d: Dict<T>, key: string, value: T): Dict<T> {
    Dict(if key in d.values then d.keys else d.keys + [key], d.values[key := value])
  }

  function SetDefault<T>(d: Dict<T>, key: string, value: T): Dict<T> {
    if key in d.values then d else Put(d, key, value)
  }

  function EntryOf(row: StoredOrder): LocalOrder {
    LocalOrder(row.localId, row.brokerId, row.status, row.symbol, row.side, row.quantity, row.price)
  }

  /** Order rows of the mode overwrite each other. */
  function WithOrders(rows: seq<StoredOrder>, mode: Mode): Dict<LocalOrder> {
    if rows == [] then Dict([], map[])
    else
      var d, row := WithOrders(rows[..|rows| - 1], mode), rows[|rows| - 1];
      if row.mode != mode || row.brokerId == "" then d else Put(d, row.brokerId, EntryOf(row))
  }

  /** Paper trades and audit rows only fill gaps, and carry no order row. */
  function WithGapsFilled(d: Dict<LocalOrder>, others: seq<LocalOrder>): Dict<LocalOrder> {
    if others == [] then d
    else
      var d1, entry := WithGapsFilled(d, others[..|others| - 1]), others[|others| - 1];
      if entry.brokerId == "" then d1 else SetDefault(d1, entry.brokerId, entry.(localId := ""))
  }

  /** The listed open position of each broker order; a later one wins. */
  function PositionsByOrder(positions: seq<Position>): Dict<Position> {
    if positions == [] then Dict([], map[])
    else
      var d, p := PositionsByOrder(positions[..|positions| - 1]), positions[|positions| - 1];
      if p.brokerId == "" then d else Put(d, p.brokerId, p)
  }

  function EntryOfPosition(p: Position): LocalOrder {
    LocalOrder("", p.brokerId, Open, p.symbol, p.side, 0, p.entryPrice)
  }

  /** An open position gives its order an entry if need be, and always its quantity. */
  function WithPositions(d: Dict<LocalOrder>, keys: seq<string>, positions: map<string, Position>): Dict<LocalOrder>
    requires forall key :: key in keys ==> key in positions
  {
    if keys == [] then d
    else
      var key := keys[|keys| - 1];
      var d1 := SetDefault(WithPositions(d, keys[..|keys| - 1], positions), key, EntryOfPosition(positions[key]));
      Put(d1, key, d1.values[key].(quantity := positions[key].quantity))
  }

  ghost predicate WellFormed<T>(d: Dict<T>) {
    && (forall i, j :: 0 <= i < j < |d.keys| ==> d.keys[i] != d.keys[j])
    && (forall key :: key in d.keys ==> key in d.values) && forall key :: key in d.values ==> key in d.keys
  }

  /** Every entry stands under its own, nonempty broker id. */
  ghost predicate WellKeyed(d: Dict<LocalOrder>) {
    WellFormed(d) && "" !in d.values && forall key :: key in d.values ==> d.values[key].brokerId == key
  }

  lemma PutKeepsForm<T>(d: Dict<T>, key: string, value: T)
    requires WellFormed(d)
    ensures WellFormed(Put(d, key, value))
  {
    var r := Put(d, key, value);
    assert forall k :: k in r.keys <==> k in d.keys || k == key;
  }

  lemma PutKeepsKeyed(d: Dict<LocalOrder>, entry: LocalOrder)
    requires WellKeyed(d) && entry.brokerId != ""
    ensures WellKeyed(Put(d, entry.brokerId, entry))
  {
    PutKeepsForm(d, entry.brokerId, entry);
  }

  lemma {:induction false} OrdersAreKeyed(rows: seq<StoredOrder>, mode: Mode)
    ensures WellKeyed(WithOrders(rows, mode))
    ensures forall key :: key in WithOrders(rows, mode).values ==>
              exists i :: 0 <= i < |rows| && rows[i].mode == mode
                  && WithOrders(rows, mode).values[key] == EntryOf(rows[i])
    ensures forall i :: 0 <= i < |rows| && rows[i].mode == mode && rows[i].brokerId != "" ==>
              rows[i].brokerId in WithOrders(rows, mode).values
  {
    hide WellKeyed;
    if rows == [] {
      EmptyIsKeyed();
    } else {
      var n := |rows| - 1;
      OrdersAreKeyed(rows[..n], mode);
      assert forall i :: 0 <= i < n ==> rows[..n][i] == rows[i];
      if rows[n].mode == mode && rows[n].brokerId != "" {
        PutKeepsKeyed(WithOrders(rows[..n], mode), EntryOf(rows[n]));
      }
    }
  }

  lemma EmptyIsKeyed()
    ensures WellKeyed(Dict([], map[]))
  {
  }

  lemma {:induction false} GapsAreKeyed(d: Dict<LocalOrder>, others: seq<LocalOrder>)
    requires WellKeyed(d)
    ensures var r := WithGapsFilled(d, others);
            WellKeyed(r) && forall key :: key in r.values ==> if key in d.values then r.values[key] == d.values[key]
                                                              else r.values[key].localId == ""
    ensures forall key :: key in d.values ==> key in WithGapsFilled(d, others).values
  {
    hide WellKeyed;
    if others != [] {
      var n := |others| - 1;
      GapsAreKeyed(d, others[..n]);
      if others[n].brokerId != "" {
        PutKeepsKeyed(WithGapsFilled(d, others[..n]), others[n].(localId := ""));
      }
    }
  }

  lemma {:induction false} PositionIndexIsKeyed(positions: seq<Position>)
    ensures WellFormed(PositionsByOrder(positions)) && "" !in PositionsByOrder(positions).values
    ensures forall key :: key in PositionsByOrder(positions).values ==>
            PositionsByOrder(positions).values[key].brokerId == key
    ensures forall p :: p in positions && p.brokerId != "" ==> p.brokerId in PositionsByOrder(positions).values
  {
    hide WellFormed;
    if positions == [] {
      var empty: Dict<Position> := Dict([], map[]);
      assert WellFormed(empty) by { EmptyIsFormed(); }
    } else {
      var n := |positions| - 1;
      assert positions == positions[..n] + [positions[n]];
      PositionIndexIsKeyed(positions[..n]);
      PutKeepsForm(PositionsByOrder(positions[..n]), positions[n].brokerId, positions[n]);
    }
  }

  lemma EmptyIsFormed()
    ensures WellFormed<Position>(Dict([], map[]))
  {
  }

  lemma {:induction false} PositionsAreKeyed(d: Dict<LocalOrder>, keys: seq<string>, positions: map<string, Position>)
    requires WellKeyed(d) && "" !in keys
    requires forall key :: key in keys ==> key in positions && positions[key].brokerId == key
    ensures var r := WithPositions(d, keys, positions);
            && WellKeyed(r)
            && (forall key :: key in r.values <==> key in d.values || key in keys)
            && (forall key :: key in r.values ==>
                  && r.values[key].localId == (if key in d.values then d.values[key].localId else "")
                  && (key in keys ==> r.values[key].quantity == positions[key].quantity)
                  && (key !in keys ==> r.values[key] == d.values[key]))
  {
    hide WellKeyed;
    if keys != [] {
      var n := |keys| - 1;
      var key := keys[n];
      assert keys == keys[..n] + [key];
      PositionsAreKeyed(d, keys[..n], positions);
      var d0 := WithPositions(d, keys[..n], positions);
      PutKeepsKeyed(d0, EntryOfPosition(positions[key]));
      var d1 := SetDefault(d0, key, EntryOfPosition(positions[key]));
      assert d1.values[key].brokerId == key by { KeyedValue(d1, key); }
      PutKeepsKeyed(d1, d1.values[key].(quantity := positions[key].quantity));
    }
  }

  lemma KeyedValue(d: Dict<LocalOrder>, key: string)
    requires WellKeyed(d) && key in d.values
    ensures d.values[key].brokerId == key
  {
  }

  function Values(d: Dict<LocalOrder>): seq<LocalOrder>
    requires WellFormed(d)
  {
    seq(|d.keys|, i requires 0 <= i < |d.keys| => d.values[d.keys[i]])
  }

  /** Orders, then the gaps filled from paper trades and audit rows. */
  function Known(rows: seq<StoredOrder>, trades: seq<LocalOrder>, audits: seq<LocalOrder>,
                 mode: Mode): Dict<LocalOrder> {
    WithGapsFilled(WithGapsFilled(WithOrders(rows, mode), if mode == Paper then trades else []), audits)
  }

  function Gathered(rows: seq<StoredOrder>, trades: seq<LocalOrder>, audits: seq<LocalOrder>, positions: seq<Position>,
                    mode: Mode)
    : Dict<LocalOrder>
  {
    var open := PositionsByOrder(positions);
    PositionIndexIsKeyed(positions);
    WithPositions(Known(rows, trades, audits, mode), open.keys, open.values)
  }

  /** An order row of the mode with this broker id gave the local id. */
  ghost predicate FromRow(localId: string, brokerId: string, rows: seq<StoredOrder>, mode: Mode) {
    exists i :: 0 <= i < |rows| && rows[i].mode == mode && rows[i].brokerId == brokerId && rows[i].localId == localId
  }

  lemma KnownIsKeyed(rows: seq<StoredOrder>, trades: seq<LocalOrder>, audits: seq<LocalOrder>, mode: Mode)
    ensures var d := Known(rows, trades, audits, mode);
            && WellKeyed(d)
            && (forall key :: key in d.values && d.values[key].localId != "" ==>
                FromRow(d.values[key].localId, key, rows, mode))
            && (forall i :: 0 <= i < |rows| && rows[i].mode == mode && rows[i].brokerId != "" ==>
                rows[i].brokerId in d.values)
  {
    hide WellKeyed, WithOrders, WithGapsFilled;
    var d := WithOrders(rows, mode);
    OrdersAreKeyed(rows, mode);
    forall key | key in d.values ensures FromRow(d.values[key].localId, key, rows, mode) {
      KeyedValue(d, key);
    }
    GapsAreKeyed(d, if mode == Paper then trades else []);
    GapsAreKeyed(WithGapsFilled(d, if mode == Paper then trades else []), audits);
  }

  /**
   The entries have distinct, nonempty broker ids; every order row of the mode and every
   listed open position with a broker id has one; and only an order row gives one its local id.
   */
  lemma EntriesAreDistinctAndComplete(rows: seq<StoredOrder>, trades: seq<LocalOrder>, audits: seq<LocalOrder>,
                                      positions: seq<Position>, mode: Mode)
    ensures var d := Gathered(rows, trades, audits, positions, mode);
            && WellKeyed(d)
            && (forall p :: p in positions && p.brokerId != "" ==> p.brokerId in d.values)
            && (forall i :: 0 <= i < |rows| && rows[i].mode == mode && rows[i].brokerId != "" ==>
                rows[i].brokerId in d.values)
            && (forall key :: key in d.values && d.values[key].localId != "" ==>
                FromRow(d.values[key].localId, key, rows, mode))
  {
    hide WellKeyed, WellFormed, Known, PositionsByOrder, WithPositions, FromRow;
    KnownIsKeyed(rows, trades, audits, mode);
    PositionIndexIsKeyed(positions);
    var open := PositionsByOrder(positions);
    FormedKeys(open);
    PositionsAreKeyed(Known(rows, trades, audits, mode), open.keys, open.values);
  }

  lemma FormedKeys<T>(d: Dict<T>)
    requires WellFormed(d)
    ensures forall key :: key in d.keys <==> key in d.values
  {
  }

  const SOURCE_LIMIT := 500

  /** What a listing returns of its rows, newest first. */
  function Listed<T>(rows: seq<T>): (r: seq<T>)
    ensures |r| <= |rows| && r == rows[..|r|] && |r| <= 500 && (|r| < 500 ==> r == rows)
  {
    if |rows| <= SOURCE_LIMIT then rows else rows[..SOURCE_LIMIT]
  }

  /** `_local_orders`: the dict filled source by source; positions are the listed open ones. */
  method LocalOrders(allRows: seq<StoredOrder>, allTrades: seq<LocalOrder>, allAudits: seq<LocalOrder>,
                     positions: seq<Position>, mode: Mode) returns (entries: seq<LocalOrder>)
    ensures WellFormed(Gathered(Listed(allRows), Listed(allTrades), Listed(allAudits), positions, mode))
    ensures entries == Values(Gathered(Listed(allRows), Listed(allTrades), Listed(allAudits), positions, mode))
    ensures forall i, j :: 0 <= i < j < |entries| ==> entries[i].brokerId != entries[j].brokerId
  {
    hide WithPositions, PositionsByOrder;
    var rows, trades, audits := Listed(allRows), Listed(allTrades), Listed(allAudits);
    hide Listed;
    var open := IndexPositions(positions);
    PositionIndexIsKeyed(positions);
    FormedKeys(open);
    var orders: Dict<LocalOrder> := Dict([], map[]);
    for i := 0 to |rows|
      invariant orders == WithOrders(rows[..i], mode)
    {
      assert rows[..i + 1][..i] == rows[..i];
      if rows[i].mode != mode || rows[i].brokerId == "" {
        continue;
      }
      orders := Put(orders, rows[i].brokerId, EntryOf(rows[i]));
    }
    assert rows[..|rows|] == rows;
    if mode == Paper {
      orders := FillGaps(orders, trades);
    }
    orders := FillGaps(orders, audits);
    orders := AddPositions(orders, open.keys, open.values);
    EntriesAreDistinctAndComplete(rows, trades, audits, positions, mode);
    entries := Values(orders);
    DistinctValues(orders);
  }

  lemma DistinctValues(d: Dict<LocalOrder>)
    requires WellKeyed(d)
    ensures forall i, j :: 0 <= i < j < |Values(d)| ==> Values(d)[i].brokerId != Values(d)[j].brokerId
  {
  }

  method IndexPositions(positions: seq<Position>) returns (d: Dict<Position>)
    ensures d == PositionsByOrder(positions)
  {
    d := Dict([], map[]);
    for i := 0 to |positions|
      invariant d == PositionsByOrder(positions[..i])
    {
      assert positions[..i + 1][..i] == positions[..i];
      if positions[i].brokerId != "" {
        d := Put(d, positions[i].brokerId, positions[i]);
      }
    }
    assert positions[..|positions|] == positions;
  }

  method FillGaps(d: Dict<LocalOrder>, others: seq<LocalOrder>) returns (r: Dict<LocalOrder>)
    ensures r == WithGapsFilled(d, others)
  {
    r := d;
    for i := 0 to |others|
      invariant r == WithGapsFilled(d, others[..i])
    {
      assert others[..i + 1][..i] == others[..i];
      if others[i].brokerId == "" || others[i].brokerId in r.values {
        continue;
      }
      r := Put(r, others[i].brokerId, others[i].(localId := ""));
    }
    assert others[..|others|] == others;
  }

  method AddPositions(d: Dict<LocalOrder>, keys: seq<string>, positions: map<string,
                      Position>) returns (r: Dict<LocalOrder>)
    requires forall key :: key in keys ==> key in positions
    ensures r == WithPositions(d, keys, positions)
  {
    r := d;
    for i := 0 to |keys|
      invariant r == WithPositions(d, keys[..i], positions)
    {
      assert keys[..i + 1][..i] == keys[..i];
      r := SetDefault(r, keys[i], EntryOfPosition(positions[keys[i]]));
      r := Put(r, keys[i], r.values[keys[i]].(quantity := positions[keys[i]].quantity));
    }
    assert keys[..|keys|] == keys;
  }
}
