/** The live stop-loss gate over a turn and over the whole order loop. */
module ReconciliationSafety {
  import opened StatusWords
  import opened SubmissionIntents
  import opened Reconciliation
  import opened ReconciliationPositions
  import opened ReconciliationIntents
  import opened ReconciliationOrders
  import opened ReconciliationFills

  /** The state changed at most in its counters, the flag and the order's own row, which waits for reconciliation. */
  ghost predicate OnlySuspended(s: State, r: State, o: LocalOrder) {
    && r.positions == s.positions && r.clock == s.clock
    && r.orders.Keys == s.orders.Keys
    && forall id :: id in s.orders && r.orders[id] != s.orders[id] ==>
                      id == o.localId && r.orders[id].status == ReconciliationRequired
  }

  lemma UncoveredAnswerOnlySuspends(s: State, index: PositionIndex, o: LocalOrder, a: Answer, stop: ProtectionLookup)
    requires !GateOpen(s.positions, Live, o, a, stop)
    ensures var r := Settle(s, Live, index, o, a, stop); r.intents == s.intents && OnlySuspended(s, r, o)
  {
    SuspensionMovesOwnRow(s, o, a, stop);
    hide GateOpen, Transition, SettleRejected, SettlePartial, SettleOther, FindPosition;
  }

  /** Without a verified stop for what is at stake, a live turn only sends the order to reconciliation. */
  lemma UncoveredTurnOnlySuspends(s: State, index: PositionIndex, o: LocalOrder, a: Answer, stop: ProtectionLookup,
                                  before: seq<Call>, during: seq<Call>)
    requires AtStake(s.positions, Live, o, a) > 0 && !StopCovers(stop, o.brokerId, AtStake(s.positions, Live, o, a))
    ensures var r := OrderStep(s, Live, index, o, Answered(a), stop, before, during);
            && (r.intents == Run(s.intents, before) || r.intents == Run(Run(s.intents, before), during))
            && OnlySuspended(s, r, o)
  {
    hide Run, Accepted, OrderStep, Settle, StopCovers, FindPosition;
    if Heard(s, o, Answered(a), before) {
      HeardTurn(s, Live, index, o, Answered(a), stop, before, during);
      UncoveredAnswerOnlySuspends(Seen(s, before, during), index, o, a, stop);
    } else {
      UnheardTurn(s, Live, index, o, Answered(a), stop, before, during);
    }
  }

  // ----- an order that is never covered

  /** Whatever the turn hears, more is at stake than any verified stop covers. */
  predicate Uncovered(positions: seq<Position>, o: LocalOrder, look: Lookup, stop: ProtectionLookup) {
    look.Answered? ==>
      var atStake := AtStake(positions, Live, o, look.answer);
      atStake > 0 && !StopCovers(stop, o.brokerId, atStake)
  }

  /** The order row waits for reconciliation or is as before, and so are all positions of the broker id; none is new. */
  ghost predicate Frozen(s: State, r: State, id: string, brokerId: string) {
    && r.orders.Keys == s.orders.Keys
    && (id in s.orders ==> r.orders[id] == s.orders[id] || r.orders[id].status == ReconciliationRequired)
    && |s.positions| <= |r.positions|
    && (forall p :: 0 <= p < |s.positions| && s.positions[p].brokerId == brokerId ==> r.positions[p] == s.positions[p])
    && (forall p :: |s.positions| <= p < |r.positions| ==> Strip(r.positions[p].brokerId) != brokerId)
  }

  lemma TurnFreezes(s: State, index: PositionIndex, o: LocalOrder, look: Lookup, stop: ProtectionLookup,
                    before: seq<Call>, during: seq<Call>, id: string, brokerId: string)
    requires !s.aborted
    requires o.localId == id || o.brokerId == brokerId ==> Uncovered(s.positions, o, look, stop)
    ensures Frozen(s, OrderStep(s, Live, index, o, look, stop, before, during), id, brokerId)
  {
    hide Run, Accepted, OrderStep, Settle, AtStake, Justifies, Strip;
    if !Heard(s, o, look, before) {
      UnheardTurn(s, Live, index, o, look, stop, before, during);
    } else if o.localId == id || o.brokerId == brokerId {
      UncoveredTurnOnlySuspends(s, index, o, look.answer, stop, before, during);
    } else {
      hide StopCovers, RejectsSubmitted;
      var r := OrderStep(s, Live, index, o, look, stop, before, during);
      TurnOrders(s, Live, index, o, look, stop, before, during);
      TurnAdds(s, Live, index, o, look, stop, before, during);
      forall p: nat | p < |s.positions|
          ensures s.positions[p].brokerId == brokerId ==> r.positions[p] == s.positions[p] {
        TurnKeepsPosition(s, Live, index, o, look, stop, before, during, p);
      }
    }
  }

  lemma {:induction false} FrozenTwice(s: State, s1: State, r: State, id: string, brokerId: string)
    requires Frozen(s, s1, id, brokerId) && Frozen(s1, r, id, brokerId)
    requires forall p :: 0 <= p < |s1.positions| && Strip(s1.positions[p].brokerId) != brokerId
                         ==> p < |r.positions| && Strip(r.positions[p].brokerId) == Strip(s1.positions[p].brokerId)
    ensures Frozen(s, r, id, brokerId)
  {
    hide Strip;
  }

  lemma NothingIsFrozen(s: State, id: string, brokerId: string)
    ensures Frozen(s, s, id, brokerId)
  {
  }

  lemma TurnKeepsIds(s: State, index: PositionIndex, o: LocalOrder, look: Lookup, stop: ProtectionLookup,
                     before: seq<Call>, during: seq<Call>)
    requires !s.aborted
    ensures var r := OrderStep(s, Live, index, o, look, stop, before, during);
            |r.positions| >= |s.positions|
            && forall p :: 0 <= p < |s.positions| ==> r.positions[p].brokerId == s.positions[p].brokerId
  {
    hide OrderStep, StopCovers, RejectsSubmitted, RecordsFill;
    TurnAdds(s, Live, index, o, look, stop, before, during);
    forall p: nat | p < |s.positions|
      ensures OrderStep(s, Live, index, o, look, stop, before, during).positions[p].brokerId == s.positions[p].brokerId
    {
      TurnKeepsPosition(s, Live, index, o, look, stop, before, during, p);
    }
  }

  /** Each of the first n turns that names the order or its broker id is uncovered in the state it starts from. */
  ghost predicate NeverCovered(s: State, index: PositionIndex, orders: seq<LocalOrder>, broker: Broker, others: Others,
                               n: nat, id: string, brokerId: string) {
    n <= |orders| && forall i: nat :: i < n && (orders[i].localId == id || orders[i].brokerId == brokerId) ==>
      Uncovered(OrderLoop(s, Live, index, orders, broker, others, i).positions, orders[i], broker.order(i),
                broker.protection(i))
  }

  lemma {:induction false} LoopFreezes(s: State, index: PositionIndex, orders: seq<LocalOrder>, broker: Broker,
                                       others: Others, n: nat, id: string, brokerId: string)
    requires n <= |orders| && !s.aborted && NeverCovered(s, index, orders, broker, others, n, id, brokerId)
    ensures Frozen(s, OrderLoop(s, Live, index, orders, broker, others, n), id, brokerId)
  {
    hide OrderStep, Uncovered, Strip, Frozen;
    if n == 0 {
      NothingIsFrozen(s, id, brokerId);
    } else {
      LoopFreezes(s, index, orders, broker, others, n - 1, id, brokerId);
      var i: nat := n - 1;
      var s1 := OrderLoop(s, Live, index, orders, broker, others, i);
      if !s1.aborted {
        TurnFreezes(s1, index, orders[i], broker.order(i), broker.protection(i), others.before(i), others.during(i), id,
                    brokerId);
        var r := OrderLoop(s, Live, index, orders, broker, others, n);
        TurnKeepsIds(s1, index, orders[i], broker.order(i), broker.protection(i), others.before(i), others.during(i));
        FrozenTwice(s, s1, r, id, brokerId);
      }
    }
  }

  lemma UncoveredDoesNotAct(s: State, index: PositionIndex, orders: seq<LocalOrder>, broker: Broker, others: Others,
                            n: nat, id: string, brokerId: string, i: nat)
    requires NeverCovered(s, index, orders, broker, others, n, id, brokerId) && i < n && orders[i].localId == id
    ensures !Acts(s, Live, index, orders, broker, others, i)
  {
    hide OrderLoop, StopCovers, AtStake;
  }

  /**
   The live gate over a whole loop. An order whose every answer finds a reported fill or an
   open local position that no verified stop covers in full is, at the end, exactly as it was
   or waiting for reconciliation. Its positions are untouched and it has gained none; all
   calls on its intent are other workers', and without any the intent is as it was.
   */
  lemma UncoveredOrderIsFrozen(s: State, index: PositionIndex, orders: seq<LocalOrder>, broker: Broker, others: Others,
                               n: nat, id: string, brokerId: string)
    requires n <= |orders| && !s.aborted && NeverCovered(s, index, orders, broker, others, n, id, brokerId)
    ensures Frozen(s, OrderLoop(s, Live, index, orders, broker, others, n), id, brokerId)
    ensures forall c :: c in LoopCalls(s, Live, index, orders, broker, others, n) ==> c.localId == id ==>
            ForeignCall(others, c, n)
    ensures var t := OrderLoop(s, Live, index, orders, broker, others, n).intents;
            NoForeignCalls(others, id, n) ==> (id in t <==> id in s.intents) && (id in t ==> t[id] == s.intents[id])
  {
    hide OrderLoop, Run, Frozen, LoopCalls, NeverCovered, Acts;
    LoopFreezes(s, index, orders, broker, others, n, id, brokerId);
    var calls := LoopCalls(s, Live, index, orders, broker, others, n);
    forall c | c in calls && c.localId == id ensures ForeignCall(others, c, n) {
      LoopCallsHaveOrigin(s, Live, index, orders, broker, others, n, c);
      forall i: nat | i < n && orders[i].localId == id ensures !Acts(s, Live, index, orders, broker, others, i) {
        UncoveredDoesNotAct(s, index, orders, broker, others, n, id, brokerId, i);
      }
    }
    LoopIsProtocolRun(s, Live, index, orders, broker, others, n);
    if NoForeignCalls(others, id, n) {
      OtherCallsKeepRow(s.intents, calls, id);
    }
  }
}
