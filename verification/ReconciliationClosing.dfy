/** Exactly when a reconciliation run closes a position. */
module ReconciliationClosing {
  import opened Wrappers
  import opened StatusWords
  import opened SubmissionIntents
  import opened Reconciliation
  import opened ReconciliationPositions
  import opened ReconciliationFills

  // ----- the position pass

  /** Words of an order that may still have its position. */
  predicate KeepingWord(w: Word) {
    || w == Open || w == Pending || w == Transit || w == Confirmed
    || w == Filled || w == Traded || w == Complete || w == Completed || w == NotFound
  }

  /** The pass finds neither a live holding nor an answer that keeps the position open. */
  predicate Abandoned(q: Position, index: PositionIndex, look: Lookup) {
    var key := Upper(q.symbol) + ":" + Upper(q.side);
    && (key !in index || index[key].quantity == 0)
    && (q.brokerId == "" || look.Raised? || !KeepingWord(look.answer.status))
  }

  lemma AbandonedIff(q: Position, index: PositionIndex, look: Lookup)
    ensures Abandoned(q, index, look) <==> !BackedByBroker(q, index) && !LookupKeepsOpen(q, look)
  {
    hide Upper;
  }

  function Closed(q: Position, at: int): Position { q.(isOpen := false, updated := at) }

  lemma {:induction false} PositionLoopClosesExactly(s: State, index: PositionIndex, ids: seq<nat>, broker: Broker,
                                                     p: nat)
    requires (forall k :: 0 <= k < |ids| ==> ids[k] < |s.positions|) && p < |s.positions|
    ensures var q, r := s.positions[p], PositionLoop(s, index, ids, broker).positions[p];
            r == if q.isOpen && p in ids && Abandoned(q, index, broker.position(p)) then Closed(q, r.updated) else q
  {
    hide LookupKeepsOpen, BackedByBroker, Abandoned;
    if ids != [] {
      AbandonedIff(s.positions[p], index, broker.position(p));
      PositionLoopClosesExactly(s, index, ids[..|ids| - 1], broker, p);
      assert ids == ids[..|ids| - 1] + [ids[|ids| - 1]];
    }
  }

  /**
   The second pass closes an open position exactly when it is listed, the holdings were
   fetched and hold nothing of it, and its own lookup does not keep it open. It changes
   nothing else. A lookup that raises or answers partially_filled keeps nothing open.
   */
  lemma PassClosesExactly(s: State, mode: Mode, index: PositionIndex, broker: Broker, p: nat)
    requires p < |s.positions|
    ensures |PositionPass(s, mode, index, broker).positions| == |s.positions|
    ensures var q, r := s.positions[p], PositionPass(s, mode, index, broker).positions[p];
            r == if && q.isOpen && p in ListOpen(s.positions, mode) && broker.positions.Some?
                    && Abandoned(q, index, broker.position(p)) then Closed(q, r.updated) else q
    ensures (broker.position(p).Raised? || NormalStatus(broker.position(p).answer.status) == PartiallyFilled)
            ==> (Abandoned(s.positions[p], index, broker.position(p)) <==> !BackedByBroker(s.positions[p], index))
  {
    hide PositionLoop, LookupKeepsOpen, BackedByBroker, Unmatched, LocalKeys, ListOpen, Abandoned, NormalStatus;
    AbandonedIff(s.positions[p], index, broker.position(p));
    RaisedKeepsNothing(s.positions[p], broker.position(p));
    if broker.positions.Some? {
      var ids := ListOpen(s.positions, mode);
      var raws := |broker.positions.value|;
      var s1 := Reviews(s.(summary := s.summary.(checkedPositions := |ids| + raws)),
                        |Unmatched(index, LocalKeys(s.positions, ids))|);
      PositionLoopClosesExactly(s1, index, ids, broker, p);
    }
  }

  lemma RaisedKeepsNothing(q: Position, look: Lookup)
    ensures look.Raised? || NormalStatus(look.answer.status) == PartiallyFilled ==> !LookupKeepsOpen(q, look)
  {
  }

  lemma {:induction false} OpenIdsAreOpen(positions: seq<Position>, mode: Mode, p: nat)
    requires p < |positions| && positions[p].isOpen && positions[p].mode == mode
    ensures p in OpenIds(positions, mode)
  {
    if p < |positions| - 1 {
      OpenIdsAreOpen(positions[..|positions| - 1], mode, p);
    }
  }

  /** An open position missing from the listing is older than all listed ones, and the listing is full. */
  lemma ListingMissesOnlyOlder(positions: seq<Position>, mode: Mode, p: nat)
    requires p < |positions| && positions[p].isOpen && positions[p].mode == mode
    ensures p in ListOpen(positions, mode)
            || (|ListOpen(positions, mode)| == 100 && forall q :: q in ListOpen(positions, mode) ==> p < q)
  {
    OpenIdsAreOpen(positions, mode, p);
    var ids := OpenIds(positions, mode);
    var k :| 0 <= k < |ids| && ids[k] == p;
    if |ids| > LISTING_LIMIT && k < LISTING_LIMIT {
      assert ids[..LISTING_LIMIT][k] == p;
    }
  }

  // ----- the index of broker holdings

  /** The raw entry is indexed under this key: its symbol and side, the side of a nameless one by its sign. */
  predicate Names(raw: RawPosition, key: string) {
    && raw.symbol != ""
    && key == Upper(raw.symbol) + ":"
              + if raw.side != "" then Upper(raw.side) else if raw.quantity >= 0 then "BUY" else "SELL"
  }

  lemma UpperTwice(s: string)
    ensures Upper(Upper(s)) == Upper(s)
  {
  }

  lemma NamesIff(raw: RawPosition, key: string)
    ensures var p := NormalizePosition(raw);
            && (Names(raw, key) <==> p.symbol != "" && PositionKey(p.symbol, p.side) == key)
            && p.price == raw.price && p.quantity == if raw.quantity < 0 then -raw.quantity else raw.quantity
  {
    UpperTwice(raw.symbol);
    UpperTwice(raw.side);
    assert Upper("BUY") == "BUY" && Upper("SELL") == "SELL";
    assert Upper(raw.symbol) == "" <==> raw.symbol == "";
    hide Upper;
  }

  predicate LastNaming(raws: seq<RawPosition>, i: nat, key: string) {
    i < |raws| && Names(raws[i], key) && forall j :: i < j < |raws| ==> !Names(raws[j], key)
  }

  /** Only the last entry of a key counts: an empty one hides an earlier holding of the same symbol and side. */
  lemma {:induction false} IndexIsLastWins(raws: seq<RawPosition>, key: string)
    ensures key in IndexOf(raws) <==> exists i: nat :: LastNaming(raws, i, key)
    ensures forall i: nat :: LastNaming(raws, i, key) ==>
            && key in IndexOf(raws) && IndexOf(raws)[key] == NormalizePosition(raws[i])
            && IndexOf(raws)[key].price == raws[i].price
            && IndexOf(raws)[key].quantity == if raws[i].quantity < 0 then -raws[i].quantity else raws[i].quantity
  {
    hide PositionKey, Names, NormalizePosition;
    if raws != [] {
      var n: nat := |raws| - 1;
      NamesIff(raws[n], key);
      IndexIsLastWins(raws[..n], key);
      if Names(raws[n], key) {
        assert LastNaming(raws, n, key);
      } else {
        forall i: nat ensures LastNaming(raws, i, key) <==> LastNaming(raws[..n], i, key) {
        }
      }
    }
  }

  /** A holding backs a position exactly when the last entry of its symbol and side has a nonzero quantity. */
  lemma BackedIffLastHolds(position: Position, raws: seq<RawPosition>)
    ensures BackedByBroker(position, IndexOf(raws))
            <==> exists i: nat :: && LastNaming(raws, i, PositionKey(position.symbol, position.side))
                                  && raws[i].quantity != 0
  {
    hide LastNaming, IndexOf, PositionKey;
    IndexIsLastWins(raws, PositionKey(position.symbol, position.side));
  }

  // ----- whole runs

  /** A confirmed rejection of its own submitted order was heard in the first n turns. */
  ghost predicate RejectionHeard(q: Position, orders: seq<LocalOrder>, broker: Broker, n: nat) {
    exists i: nat :: i < n && i < |orders| && orders[i].brokerId == q.brokerId && broker.order(i).Answered?
                     && RejectsSubmitted(orders[i], broker.order(i).answer)
  }

  /** Position p, old or added by the loop, is closed after it although it was not closed before. */
  predicate Closes(s: State, r: State, p: nat) {
    p < |r.positions| && !r.positions[p].isOpen && (p < |s.positions| ==> s.positions[p].isOpen)
  }

  lemma {:induction false} LoopClosesOnlyRejected(s: State, mode: Mode, index: PositionIndex, orders: seq<LocalOrder>,
                                                  broker: Broker, others: Others, n: nat, p: nat)
    requires n <= |orders| && !s.aborted
    ensures |OrderLoop(s, mode, index, orders, broker, others, n).positions| >= |s.positions|
    ensures var r := OrderLoop(s, mode, index, orders, broker, others, n);
            Closes(s, r, p) ==> mode == Paper && RejectionHeard(r.positions[p], orders, broker, n)
  {
    hide OrderStep, StopCovers, RejectsSubmitted, RecordsFill;
    if n > 0 {
      var i: nat := n - 1;
      LoopClosesOnlyRejected(s, mode, index, orders, broker, others, i, p);
      var s1 := OrderLoop(s, mode, index, orders, broker, others, i);
      if !s1.aborted {
        TurnAdds(s1, mode, index, orders[i], broker.order(i), broker.protection(i), others.before(i), others.during(i));
        if p < |s1.positions| {
          TurnKeepsPosition(s1, mode, index, orders[i], broker.order(i), broker.protection(i), others.before(i),
                            others.during(i), p);
        }
      }
    }
  }

  /**
   A run closes a position, old or its own, only in paper mode on a confirmed rejection of its
   submitted order, or because the fetched holdings hold nothing of it and its own lookup
   does not keep it open.
   */
  lemma ClosedOnlyIf(s: State, mode: Mode, orders: seq<LocalOrder>, broker: Broker, others: Others, p: nat)
    requires !s.aborted
    ensures var r := ReconcileRun(s, mode, orders, broker, others);
            && |r.positions| >= |s.positions|
            && (Closes(s, r, p) ==>
                  var q := r.positions[p];
                  || (mode == Paper && RejectionHeard(q, orders, broker, |orders|))
                  || (q.mode == mode && broker.positions.Some? && Abandoned(q, IndexFor(broker), broker.position(p))))
  {
    hide OrderLoop, PositionPass, BackedByBroker, LookupKeepsOpen, RejectsSubmitted, IndexFor, ListOpen;
    var index, start := IndexFor(broker), Start(s, broker);
    var s1 := OrderLoop(start, mode, index, orders, broker, others, |orders|);
    LoopClosesOnlyRejected(start, mode, index, orders, broker, others, |orders|, p);
    if !s1.aborted {
      PassKeepsCount(s1, mode, index, broker);
      if p < |s1.positions| {
        PassClosesExactly(s1, mode, index, broker, p);
        ListedHaveMode(s1.positions, mode, p);
        ClosedIsAbandonedAlike(s1.positions[p], index, broker.position(p));
      }
    }
  }

  lemma ClosedIsAbandonedAlike(q: Position, index: PositionIndex, look: Lookup)
    ensures forall at :: Abandoned(Closed(q, at), index, look) == Abandoned(q, index, look)
  {
  }

  lemma PassKeepsCount(s: State, mode: Mode, index: PositionIndex, broker: Broker)
    ensures |PositionPass(s, mode, index, broker).positions| == |s.positions|
  {
    hide PositionLoop, LocalKeys, Unmatched;
  }

  lemma ListedHaveMode(positions: seq<Position>, mode: Mode, p: nat)
    requires p < |positions|
    ensures p in ListOpen(positions, mode) ==> positions[p].mode == mode
  {
  }

  /** In live mode nothing but fetched holdings that hold nothing of it closes a position. */
  lemma LiveClosedOnlyIfBrokerHoldsNone(s: State, orders: seq<LocalOrder>, broker: Broker, others: Others, p: nat)
    requires !s.aborted
    ensures var r := ReconcileRun(s, Live, orders, broker, others);
            Closes(s, r, p) ==>
              && broker.positions.Some?
              && !exists i: nat ::
                  LastNaming(broker.positions.value, i, PositionKey(r.positions[p].symbol, r.positions[p].side))
                                   && broker.positions.value[i].quantity != 0
  {
    hide ReconcileRun, LookupKeepsOpen, LastNaming, PositionKey, Abandoned, BackedByBroker;
    ClosedOnlyIf(s, Live, orders, broker, others, p);
    var r := ReconcileRun(s, Live, orders, broker, others);
    if Closes(s, r, p) {
      AbandonedIff(r.positions[p], IndexFor(broker), broker.position(p));
      BackedIffLastHolds(r.positions[p], broker.positions.value);
    }
  }

  ghost predicate NotFoundOnly(look: Lookup) { look.Answered? && NormalStatus(look.answer.status) == NotFound }

  /** An order whose every lookup answers not_found never has its position closed, in either mode. */
  lemma NotFoundKeepsOpen(s: State, mode: Mode, orders: seq<LocalOrder>, broker: Broker, others: Others, p: nat,
                          brokerId: string)
    requires !s.aborted && brokerId != "" && NotFoundOnly(broker.position(p))
    requires forall i: nat :: i < |orders| && orders[i].brokerId == brokerId ==> NotFoundOnly(broker.order(i))
    ensures var r := ReconcileRun(s, mode, orders, broker, others);
            p < |r.positions| && r.positions[p].brokerId == brokerId ==> !Closes(s, r, p)
  {
    hide ReconcileRun, BackedByBroker;
    ClosedOnlyIf(s, mode, orders, broker, others, p);
  }

  /**
   A position that is open and listed after the order loop is closed by the run exactly when it
   is abandoned; a second lookup that raises is enough once the holdings miss it.
   */
  lemma SurvivorClosedIff(s: State, mode: Mode, orders: seq<LocalOrder>, broker: Broker, others: Others, p: nat)
    ensures var s1 := OrderLoop(Start(s, broker), mode, IndexFor(broker), orders, broker, others, |orders|);
            var r := ReconcileRun(s, mode, orders, broker, others);
            !s1.aborted && p < |s1.positions| && s1.positions[p].isOpen && p in ListOpen(s1.positions, mode) ==>
              && p < |r.positions|
              && (!r.positions[p].isOpen
                  <==> broker.positions.Some? && Abandoned(s1.positions[p], IndexFor(broker), broker.position(p)))
  {
    hide OrderLoop, PositionPass, Abandoned, ListOpen, IndexFor;
    var s1 := OrderLoop(Start(s, broker), mode, IndexFor(broker), orders, broker, others, |orders|);
    if p < |s1.positions| {
      PassClosesExactly(s1, mode, IndexFor(broker), broker, p);
    }
  }
}
