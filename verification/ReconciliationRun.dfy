/** The reconciliation run as it is coded: stores and counters updated in place, statement by statement. */
module ReconciliationRun {
  import opened Wrappers
  import opened StatusWords
  import opened SubmissionIntents
  import opened Reconciliation

  class Reconciler {
    var intents: Table
    var orders: map<string, OrderRow>
    var positions: seq<Position>
    var clock: int
    var summary: Summary
    /** An exception is on its way out of the run. */
    var aborted: bool

    constructor (s: State)
      ensures Now() == s
    {
      intents, orders, positions, clock := s.intents, s.orders, s.positions, s.clock;
      summary, aborted := s.summary, s.aborted;
    }

    function Now(): State
      reads this
    {
      State(intents, orders, positions, clock, summary, aborted)
    }

    method AppendError()
      modifies this`summary
      ensures Now() == Error(old(Now()))
    {
      summary := summary.(errors := summary.errors + 1);
    }

    method RecordReview()
      modifies this`summary
      ensures Now() == Review(old(Now()))
    {
      summary := summary.(mismatches := summary.mismatches + 1);
      summary := summary.(needsReview := summary.needsReview + 1);
    }

    method RecordFix()
      modifies this`summary
      ensures Now() == Fix(old(Now()))
    {
      summary := summary.(mismatches := summary.mismatches + 1);
      summary := summary.(fixed := summary.fixed + 1);
    }

    method TransitionLocalOrderIfPresent(o: LocalOrder, status: Word, brokerStatus: Word, entryPrice: Option<real>)
      modifies this`orders, this`aborted
      ensures Now() == Transition(old(Now()), o, status, brokerStatus, entryPrice)
    {
      hide Transitioned;
      ghost var s := Now();
      if o.localId != "" {
        if o.localId in orders {
          orders := orders[o.localId := Transitioned(orders[o.localId], o, status, brokerStatus, entryPrice)];
          assert Now() == Transition(s, o, status, brokerStatus, entryPrice);
        } else {
          aborted := true;
          assert Now() == Transition(s, o, status, brokerStatus, entryPrice);
        }
      }
    }

    method CreateOpenPosition(position: Position)
      modifies this`positions, this`clock
      ensures Now() == CreatePosition(old(Now()), position)
    {
      clock := clock + 1;
      positions := positions + [position.(updated := clock)];
    }

    method CloseOpenPosition(p: nat)
      requires p < |positions|
      modifies this`positions, this`clock
      ensures Now() == ClosePosition(old(Now()), p)
    {
      if !positions[p].isOpen {
        return;
      }
      clock := clock + 1;
      positions := positions[p := positions[p].(isOpen := false, updated := clock)];
    }

    method UpdateOpenPosition(p: nat, price: real)
      requires p < |positions|
      modifies this`positions, this`clock
      ensures Now() == UpdateEntryPrice(old(Now()), p, price)
    {
      if !positions[p].isOpen {
        return;
      }
      clock := clock + 1;
      positions := positions[p := positions[p].(entryPrice := price, updated := clock)];
    }

    /** `record_broker_evidence`, re-raising unless the intent is missing. */
    method RecordIntentEvidence(o: LocalOrder, status: Word)
      modifies this`intents, this`aborted
      ensures Now() == RecordEvidence(old(Now()), o, status)
    {
      var (table, error) := Apply(intents, Evidence(o.localId, o.brokerId, status));
      if error.None? {
        intents := table;
      } else if error != Some(NotAwaitingReconciliation) || o.localId in intents {
        aborted := true;
      }
    }

    method FixPositionDifferences(p: nat, a: Answer, index: PositionIndex)
      requires p < |positions|
      modifies this
      ensures Now() == FixDifferences(old(Now()), p, a, index)
    {
      var position := positions[p];
      var expectedQuantity, expectedPrice := ExpectedQuantity(position, a, index), ExpectedPrice(position, a, index);
      var quantityChanged := expectedQuantity != 0 && position.quantity != expectedQuantity;
      var priceChanged := expectedPrice != 0.0 && Abs(position.entryPrice - expectedPrice) > 0.01;
      if !quantityChanged && !priceChanged {
        return;
      }
      if quantityChanged {
        RecordReview();
        return;
      }
      RecordFix();
      UpdateOpenPosition(p, expectedPrice);
    }

    method ReconcileRejected(mode: Mode, o: LocalOrder, a: Answer, position: Option<nat>)
      requires !aborted && (position.Some? ==> position.value < |positions|)
      modifies this
      ensures Now() == SettleRejected(old(Now()), mode, o, a, position)
    {
      var status := NormalStatus(a.status);
      if status in {Rejected, Cancelled} && o.localId != "" {
        RecordIntentEvidence(o, status);
        if aborted {
          return;
        }
      }
      RecordFix();
      TransitionLocalOrderIfPresent(o, RejectedOrderStatus(a.status), a.status, a.price);
      if aborted {
        return;
      }
      if position.Some? && positions[position.value].isOpen {
        if mode == Live {
          RecordReview();
          TransitionLocalOrderIfPresent(o, ReconciliationRequired, a.status, None);
        } else {
          CloseOpenPosition(position.value);
        }
      }
    }

    method ReconcilePartial(mode: Mode, o: LocalOrder, a: Answer, position: Option<nat>)
      requires !aborted && (position.Some? ==> position.value < |positions|)
      modifies this
      ensures Now() == SettlePartial(old(Now()), mode, o, a, position)
    {
      if o.localId != "" {
        RecordIntentEvidence(o, PartiallyFilled);
        if aborted {
          return;
        }
        TransitionLocalOrderIfPresent(o, PartiallyFilled, a.status, a.price);
        if aborted {
          return;
        }
      }
      if a.filled > 0 {
        if position.None? {
          CreateOpenPosition(PositionFrom(a, o, mode).(quantity := a.filled));
        } else if positions[position.value].quantity != a.filled {
          // update_open_position takes no such keyword arguments: the call raises.
          aborted := true;
        }
      }
    }

    method ReconcileFilledOrOpen(mode: Mode, index: PositionIndex, o: LocalOrder, a: Answer, position: Option<nat>)
      requires !aborted && (position.Some? ==> position.value < |positions|)
      modifies this
      ensures Now() == SettleOther(old(Now()), mode, index, o, a, position)
    {
      var filled := FilledStatus(NormalStatus(a.status));
      if filled && o.localId != "" {
        RecordIntentEvidence(o, Filled);
        if aborted {
          return;
        }
      }
      if filled && o.localId != "" && NormalStatus(o.status) != Filled {
        RecordFix();
        TransitionLocalOrderIfPresent(o, Filled, a.status, a.price);
        if aborted {
          return;
        }
      }
      if filled && position.None? {
        RecordFix();
        CreateOpenPosition(PositionFrom(a, o, mode));
        return;
      }
      if position.Some? {
        FixPositionDifferences(position.value, a, index);
      }
    }

    /** The live gate: a stop that covers the larger of reported fill and open local position. */
    method ProtectionVerified(mode: Mode, o: LocalOrder, a: Answer, stop: ProtectionLookup, position: Option<nat>)
      returns (verified: bool)
      requires position == FindPosition(positions, o.brokerId, mode)
      ensures verified == GateOpen(positions, mode, o, a, stop)
    {
      hide StopCovers, FindPosition;
      var exposure := 0;
      if position.Some? && positions[position.value].isOpen {
        exposure := positions[position.value].quantity;
      }
      verified := true;
      if mode == Live && (a.filled > 0 || exposure > 0) {
        verified := StopCovers(stop, o.brokerId, Max(a.filled, exposure));
      }
    }

    method ReconcileAnswer(mode: Mode, index: PositionIndex, o: LocalOrder, a: Answer, stop: ProtectionLookup)
      requires !aborted
      modifies this
      ensures Now() == Settle(old(Now()), mode, index, o, a, stop)
    {
      hide SettleRejected, SettlePartial, SettleOther, Transition, GateOpen, FindPosition, SubmittedStatus,
          RejectedStatus;
      var position := FindPosition(positions, o.brokerId, mode);
      var status := NormalStatus(a.status);
      var verified := ProtectionVerified(mode, o, a, stop, position);
      if !verified {
        if stop.ProtectionRaised? {
          AppendError();
        }
        RecordReview();
        TransitionLocalOrderIfPresent(o, ReconciliationRequired, a.status, a.price);
      } else if status == NotFound {
        RecordReview();
        TransitionLocalOrderIfPresent(o, ReconciliationRequired, a.status, None);
      } else if SubmittedStatus(o.status) && RejectedStatus(status) {
        ReconcileRejected(mode, o, a, position);
      } else if status == PartiallyFilled {
        ReconcilePartial(mode, o, a, position);
      } else {
        ReconcileFilledOrOpen(mode, index, o, a, position);
      }
    }

    method ReconcileOrder(mode: Mode, index: PositionIndex, o: LocalOrder, look: Lookup, stop: ProtectionLookup,
                          before: seq<Call>, during: seq<Call>)
      requires !aborted
      modifies this
      ensures Now() == OrderStep(old(Now()), mode, index, o, look, stop, before, during)
    {
      hide Settle, Run, Accepted;
      intents := Run(intents, before);
      if o.brokerId == "" {
        return;
      }
      summary := summary.(checkedOrders := summary.checkedOrders + 1);
      if look.Raised? {
        AppendError();
        return;
      }
      if !Accepted(intents, o, look.answer) {
        AppendError();
        RecordReview();
        return;
      }
      intents := Run(intents, during);
      ReconcileAnswer(mode, index, o, look.answer, stop);
    }

    method ReconcileOrders(mode: Mode, index: PositionIndex, localOrders: seq<LocalOrder>, broker: Broker,
                           others: Others)
      requires !aborted
      modifies this
      ensures Now() == OrderLoop(old(Now()), mode, index, localOrders, broker, others, |localOrders|)
    {
      hide OrderStep;
      ghost var start := Now();
      for i := 0 to |localOrders|
        invariant !aborted
        invariant Now() == OrderLoop(start, mode, index, localOrders, broker, others, i)
      {
        ReconcileOrder(mode, index, localOrders[i], broker.order(i), broker.protection(i), others.before(i),
                       others.during(i));
        if aborted {
          AbortedLoop(start, mode, index, localOrders, broker, others, i + 1, |localOrders|);
          return;
        }
      }
    }

    /** One review for each broker holding without an open local position. */
    method ReviewUnmatched(unmatched: set<string>)
      modifies this`summary
      ensures Now() == Reviews(old(Now()), |unmatched|)
    {
      var todo := unmatched;
      ghost var start, done: nat := Now(), 0;
      while todo != {}
        invariant done + |todo| == |unmatched|
        invariant Now() == Reviews(start, done)
        decreases todo
      {
        var key :| key in todo;
        RecordReview();
        todo := todo - {key};
        done := done + 1;
      }
    }

    method CloseUnbacked(index: PositionIndex, openPositions: seq<nat>, broker: Broker)
      requires forall k :: 0 <= k < |openPositions| ==> openPositions[k] < |positions|
      modifies this
      ensures Now() == PositionLoop(old(Now()), index, openPositions, broker)
    {
      hide BackedByBroker, LookupKeepsOpen;
      ghost var start := Now();
      for k := 0 to |openPositions|
        invariant |positions| == |start.positions|
        invariant Now() == PositionLoop(start, index, openPositions[..k], broker)
      {
        var p := openPositions[k];
        assert openPositions[..k + 1][..k] == openPositions[..k];
        if BackedByBroker(positions[p], index) || LookupKeepsOpen(positions[p], broker.position(p)) {
          continue;
        }
        RecordFix();
        CloseOpenPosition(p);
      }
      assert openPositions[..|openPositions|] == openPositions;
    }

    method ReconcilePositions(mode: Mode, index: PositionIndex, broker: Broker)
      modifies this
      ensures Now() == PositionPass(old(Now()), mode, index, broker)
    {
      hide OpenIds, PositionLoop, LocalKeys, Unmatched;
      var openPositions := ListOpen(positions, mode);
      var raws := if broker.positions.Some? then |broker.positions.value| else 0;
      summary := summary.(checkedPositions := |openPositions| + raws);
      if broker.positions.None? {
        return;
      }
      ReviewUnmatched(Unmatched(index, LocalKeys(positions, openPositions)));
      CloseUnbacked(index, openPositions, broker);
    }

    method ReconcileBrokerState(mode: Mode, localOrders: seq<LocalOrder>, broker: Broker, others: Others)
      requires !aborted
      modifies this
      ensures Now() == ReconcileRun(old(Now()), mode, localOrders, broker, others)
    {
      hide OrderLoop, PositionPass;
      var index: PositionIndex := map[];
      if broker.positions.None? {
        AppendError();
      } else {
        index := BuildIndex(broker.positions.value);
      }
      ReconcileOrders(mode, index, localOrders, broker, others);
      if aborted {
        return;
      }
      ReconcilePositions(mode, index, broker);
    }
  }

  /** `_broker_position_index`. */
  method BuildIndex(raws: seq<RawPosition>) returns (index: PositionIndex)
    ensures index == IndexOf(raws)
  {
    index := map[];
    for i := 0 to |raws|
      invariant index == IndexOf(raws[..i])
    {
      var normalized := NormalizePosition(raws[i]);
      assert raws[..i + 1][..i] == raws[..i];
      if normalized.symbol != "" {
        index := index[PositionKey(normalized.symbol, normalized.side) := normalized];
      }
    }
    assert raws[..|raws|] == raws;
  }

  lemma {:induction false} AbortedLoop(s: State, mode: Mode, index: PositionIndex, orders: seq<LocalOrder>,
                                       broker: Broker, others: Others, i: nat, n: nat)
    requires i <= n <= |orders|
    ensures var r := OrderLoop(s, mode, index, orders, broker, others, i);
            r.aborted ==> OrderLoop(s, mode, index, orders, broker, others, n) == r
    decreases n
  {
    hide OrderStep;
    if i < n {
      AbortedLoop(s, mode, index, orders, broker, others, i, n - 1);
    }
  }
}
