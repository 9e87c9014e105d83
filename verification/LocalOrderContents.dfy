/** What an entry of the reconciliation loop says, and which of the four sources it has it from. */
module LocalOrderContents {
  import opened StatusWords
  import opened Reconciliation
  import opened LocalOrders

  predicate LastRow(rows: seq<StoredOrder>, mode: Mode, key: string, i: nat) {
    && i < |rows| && rows[i].mode == mode && rows[i].brokerId == key
    && forall j :: i < j < |rows| ==> rows[j].mode != mode || rows[j].brokerId != key
  }

  predicate FirstEntry(entries: seq<LocalOrder>, key: string, i: nat) {
    && i < |entries| && entries[i].brokerId == key
    && forall j :: 0 <= j < i ==> entries[j].brokerId != key
  }

  predicate LastPosition(positions: seq<Position>, key: string, p: nat) {
    && p < |positions| && positions[p].brokerId == key
    && forall q :: p < q < |positions| ==> positions[q].brokerId != key
  }

  predicate Tells(e: LocalOrder, row: StoredOrder) {
    && e.localId == row.localId && e.brokerId == row.brokerId && e.status == row.status && e.symbol == row.symbol
    && e.side == row.side && e.quantity == row.quantity && e.price == row.price
  }

  lemma EntryOfTells(row: StoredOrder)
    ensures Tells(EntryOf(row), row)
  {
  }

  lemma {:induction false} RowsTell(rows: seq<StoredOrder>, mode: Mode, key: string)
    requires key != ""
    ensures var d := WithOrders(rows, mode);
            && (forall i: nat :: LastRow(rows, mode, key, i) ==> key in d.values && Tells(d.values[key], rows[i]))
            && (key in d.values ==> exists i: nat :: LastRow(rows, mode, key, i))
  {
    hide Tells, EntryOf;
    if rows != [] {
      var n := |rows| - 1;
      RowsTell(rows[..n], mode, key);
      if rows[n].mode == mode && rows[n].brokerId == key {
        EntryOfTells(rows[n]);
        assert LastRow(rows, mode, key, n);
      } else {
        forall i: nat ensures LastRow(rows, mode, key, i) <==> LastRow(rows[..n], mode, key, i) {
        }
      }
    }
  }

  lemma {:induction false} GapsTell(d: Dict<LocalOrder>, others: seq<LocalOrder>, key: string)
    requires key != ""
    ensures var r := WithGapsFilled(d, others);
            && (key in d.values ==> key in r.values && r.values[key] == d.values[key])
            && (key !in d.values ==>
                  && (forall i: nat :: FirstEntry(others, key, i) ==>
                        key in r.values && r.values[key] == others[i].(localId := ""))
                  && (key in r.values ==> exists i: nat :: FirstEntry(others, key, i)))
  {
    if others != [] {
      var n: nat := |others| - 1;
      GapsTell(d, others[..n], key);
      forall i: nat | FirstEntry(others[..n], key, i) ensures FirstEntry(others, key, i) {
      }
      forall i: nat | FirstEntry(others, key, i) && i < n ensures FirstEntry(others[..n], key, i) {
      }
      var d1 := WithGapsFilled(d, others[..n]);
      if key !in d.values && key !in d1.values && others[n].brokerId == key {
        forall j | 0 <= j < n ensures others[j].brokerId != key {
          NoFirstNoEntry(others[..n], key, j);
        }
        assert FirstEntry(others, key, n);
      }
    }
  }

  /** An entry of a key means there is a first one. */
  lemma {:induction false} NoFirstNoEntry(others: seq<LocalOrder>, key: string, j: nat)
    requires j < |others|
    ensures others[j].brokerId == key ==> exists i: nat :: FirstEntry(others, key, i)
    decreases j
  {
    if others[j].brokerId == key && !FirstEntry(others, key, j) {
      var k: nat :| k < j && others[k].brokerId == key;
      NoFirstNoEntry(others, key, k);
    }
  }

  lemma {:induction false} PositionsTell(positions: seq<Position>, key: string)
    requires key != ""
    ensures var d := PositionsByOrder(positions);
            && (forall p: nat :: LastPosition(positions, key, p) ==> key in d.values && d.values[key] == positions[p])
            && (key in d.values ==> exists p: nat :: LastPosition(positions, key, p))
  {
    if positions != [] {
      var n := |positions| - 1;
      PositionsTell(positions[..n], key);
      if positions[n].brokerId == key {
        assert LastPosition(positions, key, n);
      } else {
        forall p: nat ensures LastPosition(positions, key, p) <==> LastPosition(positions[..n], key, p) {
        }
      }
    }
  }

  lemma {:induction false} AddedPositionsTell(d: Dict<LocalOrder>, keys: seq<string>, positions: map<string, Position>,
                                              key: string)
    requires forall k :: k in keys ==> k in positions
    ensures var r := WithPositions(d, keys, positions);
            && (key !in keys ==> (key in r.values <==> key in d.values)
                                 && (key in d.values ==> r.values[key] == d.values[key]))
            && (key in keys ==>
                  && key in r.values
                  && r.values[key] == (if key in d.values then d.values[key] else EntryOfPosition(positions[key]))
                                      .(quantity := positions[key].quantity))
  {
    if keys != [] {
      var n := |keys| - 1;
      assert keys == keys[..n] + [keys[n]];
      AddedPositionsTell(d, keys[..n], positions, key);
    }
  }

  ghost predicate HasRow(rows: seq<StoredOrder>, mode: Mode, key: string) {
    exists i: nat :: LastRow(rows, mode, key, i)
  }

  ghost predicate HasEntry(entries: seq<LocalOrder>, key: string) { exists i: nat :: FirstEntry(entries, key, i) }

  ghost predicate HasPosition(positions: seq<Position>, key: string) {
    exists p: nat :: LastPosition(positions, key, p)
  }

  /** From the last order row, else the first paper trade, else the first audit row. */
  ghost predicate KnownFrom(e: LocalOrder, rows: seq<StoredOrder>, trades: seq<LocalOrder>, audits: seq<LocalOrder>,
                            key: string, mode: Mode) {
    && (forall i: nat :: LastRow(rows, mode, key, i) ==> Tells(e, rows[i]))
    && (!HasRow(rows, mode, key) ==>
          && (forall i: nat :: FirstEntry(trades, key, i) ==> e == trades[i].(localId := ""))
          && (!HasEntry(trades, key) ==>
                forall i: nat :: FirstEntry(audits, key, i) ==> e == audits[i].(localId := "")))
  }

  lemma KnownTells(rows: seq<StoredOrder>, trades: seq<LocalOrder>, audits: seq<LocalOrder>, key: string, mode: Mode)
    requires key != ""
    ensures var d, paper := Known(rows, trades, audits, mode), if mode == Paper then trades else [];
            && (key in d.values <==> HasRow(rows, mode, key) || HasEntry(paper, key) || HasEntry(audits, key))
            && (key in d.values ==> KnownFrom(d.values[key], rows, paper, audits, key, mode))
  {
    hide LastRow, FirstEntry, WithOrders, WithGapsFilled, Tells;
    var d, paper := WithOrders(rows, mode), if mode == Paper then trades else [];
    RowsTell(rows, mode, key);
    GapsTell(d, paper, key);
    GapsTell(WithGapsFilled(d, paper), audits, key);
  }

  /**
   An order has an entry exactly when one of the sources names its broker id. The entry comes from the last order
   row of the mode, else the first paper trade, else the first audit row, else the last listed open position; that
   position gives every entry its quantity, and only an order row gives it a local id.
   */
  lemma EntryTells(rows: seq<StoredOrder>, trades: seq<LocalOrder>, audits: seq<LocalOrder>, positions: seq<Position>,
                   mode: Mode, key: string)
    requires key != ""
    ensures var d, paper := Gathered(rows, trades, audits, positions, mode), if mode == Paper then trades else [];
            var known := HasRow(rows, mode, key) || HasEntry(paper, key) || HasEntry(audits, key);
            && (key in d.values <==> known || HasPosition(positions, key))
            && (known && !HasPosition(positions, key) ==>
                  KnownFrom(d.values[key], rows, paper, audits, key, mode))
            && forall p: nat :: LastPosition(positions, key, p) ==>
                 var q := positions[p];
                 if known
                 then exists e :: KnownFrom(e, rows, paper, audits, key, mode)
                                  && d.values[key] == e.(quantity := q.quantity)
                 else d.values[key] == LocalOrder("", key, Open, q.symbol, q.side, q.quantity, q.entryPrice)
  {
    hide LastPosition, Known, PositionsByOrder, WithPositions, KnownFrom, HasRow, HasEntry;
    KnownTells(rows, trades, audits, key, mode);
    PositionsTell(positions, key);
    PositionIndexIsKeyed(positions);
    var open := PositionsByOrder(positions);
    FormedKeys(open);
    AddedPositionsTell(Known(rows, trades, audits, mode), open.keys, open.values, key);
    forall p: nat | LastPosition(positions, key, p) ensures p < |positions| && positions[p].brokerId == key {
      LastHasKey(positions, key, p);
    }
  }

  lemma LastHasKey(positions: seq<Position>, key: string, p: nat)
    requires LastPosition(positions, key, p)
    ensures p < |positions| && positions[p].brokerId == key
  {
  }
}
