/** What the counters of a reconciliation run count. */
module ReconciliationCounters {
  import opened StatusWords
  import opened SubmissionIntents
  import opened Reconciliation
  import opened ReconciliationOutcomes
  import opened ReconciliationTurns

  // ----- the order loop

  /** Entries the broker is asked about. */
  function Asked(orders: seq<LocalOrder>, n: nat): nat
    requires n <= |orders|
  {
    if n == 0 then 0 else Asked(orders, n - 1) + One(orders[n - 1].brokerId != "")
  }

  /** The turn ends in a lookup that cannot be acted on, or in an uncovered fill whose stop lookup raised. */
  predicate Fails(s: State, mode: Mode, o: LocalOrder, look: Lookup, stop: ProtectionLookup, before: seq<Call>) {
    && o.brokerId != ""
    && (Heard(s, o, look, before) ==>
          stop.ProtectionRaised? && !Covered(s.positions, mode, o, look.answer, stop))
  }

  function Failures(s: State, mode: Mode, index: PositionIndex, orders: seq<LocalOrder>, broker: Broker,
                    others: Others, n: nat): nat
    requires n <= |orders|
  {
    if n == 0 then 0
    else
      Failures(s, mode, index, orders, broker, others, n - 1)
      + One(Fails(OrderLoop(s, mode, index, orders, broker, others, n - 1), mode, orders[n - 1], broker.order(n - 1),
                  broker.protection(n - 1), others.before(n - 1)))
  }

  lemma OutcomeCounts(s: State, r: State, mode: Mode, index: PositionIndex, o: LocalOrder, a: Answer,
                      stop: ProtectionLookup)
    requires Outcome(s, r, mode, index, o, a, stop)
    ensures r.summary.checkedOrders == s.summary.checkedOrders
    ensures r.summary.errors == s.summary.errors
                                + One(stop.ProtectionRaised? && !Covered(s.positions, mode, o, a, stop))
  {
    hide RowMoved, IntentMoved, Adds, Repriced, QuantityDiffers, PriceDiffers, MarkedFilled, Covered, FindPosition,
        WasSubmitted;
  }

  lemma TurnCounts(s: State, mode: Mode, index: PositionIndex, o: LocalOrder, look: Lookup, stop: ProtectionLookup,
                   before: seq<Call>, during: seq<Call>)
    requires !s.aborted
    ensures var r := OrderStep(s, mode, index, o, look, stop, before, during);
            !r.aborted ==>
              && r.summary.checkedOrders == s.summary.checkedOrders + One(o.brokerId != "")
              && r.summary.errors == s.summary.errors + One(Fails(s, mode, o, look, stop, before))
  {
    hide OrderStep, Accepted, Run, Covered, Outcome;
    TurnOutcome(s, mode, index, o, look, stop, before, during);
    var r := OrderStep(s, mode, index, o, look, stop, before, during);
    if Heard(s, o, look, before) && !r.aborted {
      OutcomeCounts(Seen(s, before, during), r, mode, index, o, look.answer, stop);
    }
  }

  lemma {:induction false} LoopCounts(s: State, mode: Mode, index: PositionIndex, orders: seq<LocalOrder>,
                                      broker: Broker, others: Others, n: nat)
    requires !s.aborted && n <= |orders|
    ensures var r := OrderLoop(s, mode, index, orders, broker, others, n);
            !r.aborted ==>
              && r.summary.checkedOrders == s.summary.checkedOrders + Asked(orders, n)
              && r.summary.errors == s.summary.errors + Failures(s, mode, index, orders, broker, others, n)
  {
    hide OrderStep, Fails;
    if n > 0 {
      LoopCounts(s, mode, index, orders, broker, others, n - 1);
      var s1 := OrderLoop(s, mode, index, orders, broker, others, n - 1);
      if !s1.aborted {
        TurnCounts(s1, mode, index, orders[n - 1], broker.order(n - 1), broker.protection(n - 1),
                   others.before(n - 1), others.during(n - 1));
      }
    }
  }

  // ----- the position pass

  /** How many of the listed positions are closed. */
  function ClosedAmong(positions: seq<Position>, ids: seq<nat>): nat
    requires forall k :: 0 <= k < |ids| ==> ids[k] < |positions|
  {
    if ids == [] then 0
    else ClosedAmong(positions, ids[..|ids| - 1]) + One(!positions[ids[|ids| - 1]].isOpen)
  }

  lemma {:induction false} ClosedAmongKeeps(positions: seq<Position>, positions': seq<Position>, ids: seq<nat>, p: nat)
    requires p < |positions| == |positions'| && positions' == positions[p := positions'[p]] && p !in ids
    requires forall k :: 0 <= k < |ids| ==> ids[k] < |positions|
    ensures ClosedAmong(positions', ids) == ClosedAmong(positions, ids)
  {
    if ids != [] {
      ClosedAmongKeeps(positions, positions', ids[..|ids| - 1], p);
    }
  }

  lemma StepCounts(s: State, index: PositionIndex, p: nat, look: Lookup)
    requires p < |s.positions| && s.positions[p].isOpen
    ensures var r := PositionStep(s, index, p, look);
            && |r.positions| == |s.positions| && r.positions == s.positions[p := r.positions[p]]
            && r.summary.fixed == s.summary.fixed + One(!r.positions[p].isOpen)
            && r.summary == s.summary.(fixed := r.summary.fixed, mismatches := r.summary.mismatches)
  {
    hide BackedByBroker, LookupKeepsOpen;
  }

  lemma {:induction false} PositionLoopCounts(s: State, index: PositionIndex, ids: seq<nat>, broker: Broker)
    requires forall k :: 0 <= k < |ids| ==> ids[k] < |s.positions| && s.positions[ids[k]].isOpen
    requires forall j, k :: 0 <= j < k < |ids| ==> ids[j] != ids[k]
    ensures var r := PositionLoop(s, index, ids, broker);
            && r.summary.fixed == s.summary.fixed + ClosedAmong(r.positions, ids)
            && r.summary == s.summary.(fixed := r.summary.fixed, mismatches := r.summary.mismatches)
            && forall p :: 0 <= p < |s.positions| && p !in ids ==> r.positions[p] == s.positions[p]
  {
    hide PositionStep;
    if ids != [] {
      var front, p := ids[..|ids| - 1], ids[|ids| - 1];
      assert ids == front + [p];
      PositionLoopCounts(s, index, front, broker);
      var r := PositionLoop(s, index, front, broker);
      StepCounts(r, index, p, broker.position(p));
      ClosedAmongKeeps(r.positions, PositionStep(r, index, p, broker.position(p)).positions, front, p);
    }
  }

  /** Holdings of the broker with no listed position of that symbol and side. */
  function Strangers(index: PositionIndex, positions: seq<Position>, ids: seq<nat>): set<string>
    requires forall k :: 0 <= k < |ids| ==> ids[k] < |positions|
  {
    set key | key in index && index[key].quantity != 0
              && forall k :: 0 <= k < |ids| ==>
                  Upper(positions[ids[k]].symbol) + ":" + Upper(positions[ids[k]].side) != key
  }

  lemma UnmatchedAreStrangers(index: PositionIndex, positions: seq<Position>, ids: seq<nat>)
    requires forall k :: 0 <= k < |ids| ==> ids[k] < |positions|
    ensures Unmatched(index, LocalKeys(positions, ids)) == Strangers(index, positions, ids)
  {
    hide Upper;
  }

  /**
   The second pass counts the positions and holdings it looks at, leaves one review for each holding nobody
   recorded, and one fix for each position it closed.
   */
  lemma PassCounts(s: State, mode: Mode, index: PositionIndex, broker: Broker)
    ensures var r, ids := PositionPass(s, mode, index, broker), ListOpen(s.positions, mode);
            && |r.positions| == |s.positions|
            && r.summary.checkedOrders == s.summary.checkedOrders && r.summary.errors == s.summary.errors
            && match broker.positions
               case None =>
                 r.summary == s.summary.(checkedPositions := |ids|)
               case Some(raws) =>
                 && r.summary.checkedPositions == |ids| + |raws|
                 && r.summary.needsReview == s.summary.needsReview + |Strangers(index, s.positions, ids)|
                 && r.summary.fixed == s.summary.fixed + ClosedAmong(r.positions, ids)
  {
    hide PositionLoop, Unmatched, LocalKeys, Strangers, OpenIds;
    var ids := ListOpen(s.positions, mode);
    if broker.positions.Some? {
      var unmatched := Unmatched(index, LocalKeys(s.positions, ids));
      UnmatchedAreStrangers(index, s.positions, ids);
      var s1 := Reviews(s.(summary := s.summary.(checkedPositions := |ids| + |broker.positions.value|)), |unmatched|);
      PositionLoopCounts(s1, index, ids, broker);
    }
  }

  /**
   The counters of a run that no exception ends: orders asked about, lookups that failed (that of the holdings
   among them), positions and holdings looked at.
   */
  lemma RunCounts(s: State, mode: Mode, orders: seq<LocalOrder>, broker: Broker, others: Others)
    requires !s.aborted
    ensures var start, index := Start(s, broker), IndexFor(broker);
            var s1 := OrderLoop(start, mode, index, orders, broker, others, |orders|);
            var r := ReconcileRun(s, mode, orders, broker, others);
            !r.aborted ==>
              && r.summary.checkedOrders == s.summary.checkedOrders + Asked(orders, |orders|)
              && r.summary.errors == s.summary.errors + One(broker.positions.None?)
                                     + Failures(start, mode, index, orders, broker, others, |orders|)
              && r.summary.checkedPositions
                 == |ListOpen(s1.positions, mode)| + if broker.positions.Some? then |broker.positions.value| else 0
  {
    hide OrderLoop, PositionPass, IndexFor, Asked, Failures, ListOpen;
    var s1 := OrderLoop(Start(s, broker), mode, IndexFor(broker), orders, broker, others, |orders|);
    LoopCounts(Start(s, broker), mode, IndexFor(broker), orders, broker, others, |orders|);
    PassCounts(s1, mode, IndexFor(broker), broker);
  }
}
