/** Why a reconciliation run may move an order row. */
module ReconciliationOrders {
  import opened Wrappers
  import opened StatusWords
  import opened SubmissionIntents
  import opened Reconciliation
  import opened ReconciliationPositions

  /** Why a turn from these positions may leave an order row with this status. */
  predicate Justifies(positions: seq<Position>, mode: Mode, o: LocalOrder, look: Lookup, stop: ProtectionLookup,
                      status: Word) {
    && look.Answered? && Strip(look.answer.brokerId) == o.brokerId
    && (status != ReconciliationRequired ==> GateOpen(positions, mode, o, look.answer, stop))
    && var word := NormalStatus(look.answer.status);
       match status
       case ReconciliationRequired => true
       case Filled => word == Filled && look.answer.confirmed
       case PartiallyFilled => word == PartiallyFilled
       case Cancelled => RejectsSubmitted(o, look.answer) && word == Cancelled
       case Failed => RejectsSubmitted(o, look.answer) && word in {Failed, Expired}
       case Rejected => RejectsSubmitted(o, look.answer) && word == Rejected
       case _ => false
  }

  /** Only the order's own row moves, and only as the answer says. */
  ghost predicate OrdersEffect(s: State, r: State, mode: Mode, o: LocalOrder, look: Lookup, stop: ProtectionLookup) {
    && r.orders.Keys == s.orders.Keys
    && forall id :: id in s.orders && r.orders[id] != s.orders[id] ==>
                      id == o.localId && id != "" && Justifies(s.positions, mode, o, look, stop, r.orders[id].status)
  }

  lemma RejectionJustifies(positions: seq<Position>, mode: Mode, o: LocalOrder, a: Answer, stop: ProtectionLookup)
    requires RejectsSubmitted(o, a) && GateOpen(positions, mode, o, a, stop)
    ensures Justifies(positions, mode, o, Answered(a), stop, RejectedOrderStatus(a.status))
    ensures Justifies(positions, mode, o, Answered(a), stop, ReconciliationRequired)
  {
    hide GateOpen, Strip, SubmittedStatus;
  }

  lemma RejectedOrders(s: State, mode: Mode, o: LocalOrder, a: Answer, stop: ProtectionLookup, position: Option<nat>)
    requires position.Some? ==> position.value < |s.positions|
    requires RejectsSubmitted(o, a) && GateOpen(s.positions, mode, o, a, stop)
    ensures OrdersEffect(s, SettleRejected(s, mode, o, a, position), mode, o, Answered(a), stop)
  {
    MarkRejectedMovesOwnRow(s, o, a);
    TransitionMovesOwnRow(Review(MarkRejected(s, o, a)), o, ReconciliationRequired, a.status, None);
    RejectionJustifies(s.positions, mode, o, a, stop);
    hide MarkRejected, Transition, Justifies, RejectsSubmitted, RejectedOrderStatus, GateOpen;
  }

  lemma PartialOrders(s: State, mode: Mode, o: LocalOrder, a: Answer, stop: ProtectionLookup, position: Option<nat>)
    requires position.Some? ==> position.value < |s.positions|
    requires Justifies(s.positions, mode, o, Answered(a), stop, PartiallyFilled)
    ensures OrdersEffect(s, SettlePartial(s, mode, o, a, position), mode, o, Answered(a), stop)
  {
    EvidenceKeeps(s, o, PartiallyFilled);
    hide RecordEvidence, StopCovers, Strip, PositionFrom, Justifies;
  }

  lemma OtherOrders(s: State, mode: Mode, index: PositionIndex, o: LocalOrder, a: Answer, stop: ProtectionLookup,
                    position: Option<nat>)
    requires position.Some? ==> position.value < |s.positions|
    requires FilledStatus(NormalStatus(a.status)) ==> Justifies(s.positions, mode, o, Answered(a), stop, Filled)
    ensures OrdersEffect(s, SettleOther(s, mode, index, o, a, position), mode, o, Answered(a), stop)
  {
    MarkFilledMovesOwnRow(s, o, a);
    if position.Some? {
      DifferencesKeepHoldings(s, position.value, a, index);
      DifferencesKeepHoldings(MarkFilled(s, o, a), position.value, a, index);
    }
    hide MarkFilled, FixDifferences, StopCovers, Strip, PositionFrom, Justifies;
  }

  lemma AcceptedIsJustified(s: State, read: Table, mode: Mode, o: LocalOrder, a: Answer, stop: ProtectionLookup)
    requires Accepted(read, o, a)
    ensures Justifies(s.positions, mode, o, Answered(a), stop, ReconciliationRequired)
    ensures GateOpen(s.positions, mode, o, a, stop) && FilledStatus(NormalStatus(a.status)) ==>
            Justifies(s.positions, mode, o, Answered(a), stop, Filled)
    ensures GateOpen(s.positions, mode, o, a, stop) && NormalStatus(a.status) == PartiallyFilled
            ==> Justifies(s.positions, mode, o, Answered(a), stop, PartiallyFilled)
    ensures SubmittedStatus(o.status) && RejectedStatus(NormalStatus(a.status)) && NormalStatus(a.status) != NotFound
            ==> RejectsSubmitted(o, a)
  {
    hide Strip, GateOpen, IdentityConflict, Regresses, SubmittedStatus;
  }

  lemma SettleOrders(s: State, read: Table, mode: Mode, index: PositionIndex, o: LocalOrder, a: Answer,
                     stop: ProtectionLookup)
    requires Accepted(read, o, a)
    ensures OrdersEffect(s, Settle(s, mode, index, o, a, stop), mode, o, Answered(a), stop)
  {
    hide SettleRejected, SettlePartial, SettleOther, GateOpen, FindPosition, Transition, Accepted, Justifies,
        NormalStatus, SubmittedStatus, RejectedStatus, FilledStatus, RejectsSubmitted;
    var status := NormalStatus(a.status);
    var position := FindPosition(s.positions, o.brokerId, mode);
    SuspensionMovesOwnRow(s, o, a, stop);
    AcceptedIsJustified(s, read, mode, o, a, stop);
    if GateOpen(s.positions, mode, o, a, stop) {
      if SubmittedStatus(o.status) && RejectedStatus(status) && status != NotFound {
        RejectedOrders(s, mode, o, a, stop, position);
      } else if status == PartiallyFilled {
        PartialOrders(s, mode, o, a, stop, position);
      } else {
        OtherOrders(s, mode, index, o, a, stop, position);
      }
    }
  }

  lemma TurnOrders(s: State, mode: Mode, index: PositionIndex, o: LocalOrder, look: Lookup, stop: ProtectionLookup,
                   before: seq<Call>, during: seq<Call>)
    ensures OrdersEffect(s, OrderStep(s, mode, index, o, look, stop, before, during), mode, o, look, stop)
  {
    hide Settle, Justifies, Accepted, OrderStep, Run;
    if Heard(s, o, look, before) {
      HeardTurn(s, mode, index, o, look, stop, before, during);
      SettleOrders(Seen(s, before, during), Run(s.intents, before), mode, index, o, look.answer, stop);
    } else {
      UnheardTurn(s, mode, index, o, look, stop, before, during);
    }
  }

  /**
   No order row appears or disappears in a loop, and a changed row carries a status that an
   answer under the order's own broker id justifies: terminal words are confirmed, and in
   live mode any status but reconciliation_required needs a verified stop for what was at
   stake when that turn began, be it the reported fill or the open local position.
   */
  lemma {:induction false} LoopOrdersAreJustified(s: State, mode: Mode, index: PositionIndex, orders: seq<LocalOrder>,
                                                  broker: Broker, others: Others, n: nat, id: string)
    requires n <= |orders|
    ensures var r := OrderLoop(s, mode, index, orders, broker, others, n);
            && r.orders.Keys == s.orders.Keys
            && (id in s.orders && r.orders[id] != s.orders[id] ==>
                  exists i: nat :: i < n && orders[i].localId == id
                                   && Justifies(OrderLoop(s, mode, index, orders, broker, others, i).positions, mode,
                                                orders[i], broker.order(i), broker.protection(i), r.orders[id].status))
  {
    hide OrderStep, Justifies;
    if n > 0 {
      LoopOrdersAreJustified(s, mode, index, orders, broker, others, n - 1, id);
      var s1 := OrderLoop(s, mode, index, orders, broker, others, n - 1);
      if !s1.aborted {
        TurnOrders(s1, mode, index, orders[n - 1], broker.order(n - 1), broker.protection(n - 1),
                   others.before(n - 1), others.during(n - 1));
        var r := OrderLoop(s, mode, index, orders, broker, others, n);
        if id in s.orders && r.orders[id] != s.orders[id] && r.orders[id] != s1.orders[id] {
          var i: nat := n - 1;
          assert Justifies(s1.positions, mode, orders[i], broker.order(i), broker.protection(i), r.orders[id].status);
        }
      }
    }
  }
}
