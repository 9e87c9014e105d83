/** The positions a reconciliation run adds, and how much of them a stop covers. */
module ReconciliationFills {
  import opened Wrappers
  import opened StatusWords
  import opened SubmissionIntents
  import opened Reconciliation
  import opened ReconciliationPositions
  import opened ReconciliationOrders

  function OrderedQuantity(o: LocalOrder, a: Answer): int { if a.quantity != 0 then a.quantity else o.quantity }

  /** The position records what one answer of its own order reported. */
  predicate RecordsFill(q: Position, mode: Mode, o: LocalOrder, look: Lookup, stop: ProtectionLookup) {
    && look.Answered? && Strip(look.answer.brokerId) == o.brokerId
    && q.brokerId == look.answer.brokerId && q.mode == mode
    && var a := look.answer;
       || (&& NormalStatus(a.status) == PartiallyFilled && q.quantity == a.filled > 0
           && (mode == Live ==> StopCovers(stop, o.brokerId, q.quantity)))
       || (&& NormalStatus(a.status) == Filled && a.confirmed && q.quantity == OrderedQuantity(o, a)
           && (mode == Live && a.filled > 0 ==> StopCovers(stop, o.brokerId, a.filled)))
  }

  /** At most one position is added, and it records the fill. */
  ghost predicate AddsFill(s: State, r: State, mode: Mode, o: LocalOrder, look: Lookup, stop: ProtectionLookup) {
    && |s.positions| <= |r.positions| <= |s.positions| + 1
    && (|r.positions| > |s.positions| ==>
          r.positions[|s.positions|].isOpen && RecordsFill(r.positions[|s.positions|], mode, o, look, stop))
  }

  lemma PartialAdds(s: State, mode: Mode, o: LocalOrder, a: Answer, stop: ProtectionLookup, position: Option<nat>)
    requires position.Some? ==> position.value < |s.positions|
    requires NormalStatus(a.status) == PartiallyFilled
            && Justifies(s.positions, mode, o, Answered(a), stop, PartiallyFilled)
    ensures AddsFill(s, SettlePartial(s, mode, o, a, position), mode, o, Answered(a), stop)
    ensures |SettlePartial(s, mode, o, a, position).positions| > |s.positions| ==> position.None?
  {
    hide RecordEvidence, FindPosition, Strip, Transition;
    EvidenceKeeps(s, o, PartiallyFilled);
    var s1 := if o.localId != "" then RecordEvidence(s, o, PartiallyFilled) else s;
    TransitionMovesOwnRow(s1, o, PartiallyFilled, a.status, a.price);
  }

  lemma OtherAdds(s: State, mode: Mode, index: PositionIndex, o: LocalOrder, a: Answer, stop: ProtectionLookup,
                  position: Option<nat>)
    requires position.Some? ==> position.value < |s.positions|
    requires FilledStatus(NormalStatus(a.status)) ==> Justifies(s.positions, mode, o, Answered(a), stop, Filled)
    ensures AddsFill(s, SettleOther(s, mode, index, o, a, position), mode, o, Answered(a), stop)
    ensures |SettleOther(s, mode, index, o, a, position).positions| > |s.positions| ==> position.None?
  {
    hide MarkFilled, FixDifferences, FindPosition, Strip;
    MarkFilledMovesOwnRow(s, o, a);
    if position.Some? {
      DifferencesKeepHoldings(s, position.value, a, index);
      DifferencesKeepHoldings(MarkFilled(s, o, a), position.value, a, index);
    }
  }

  lemma RejectedAdds(s: State, mode: Mode, o: LocalOrder, a: Answer, position: Option<nat>)
    requires position.Some? ==> position.value < |s.positions|
    ensures |SettleRejected(s, mode, o, a, position).positions| == |s.positions|
  {
    hide MarkRejected, Transition;
    MarkRejectedMovesOwnRow(s, o, a);
    TransitionMovesOwnRow(Review(MarkRejected(s, o, a)), o, ReconciliationRequired, a.status, None);
  }

  lemma SettleAdds(s: State, read: Table, mode: Mode, index: PositionIndex, o: LocalOrder, a: Answer,
                   stop: ProtectionLookup)
    requires Accepted(read, o, a)
    ensures AddsFill(s, Settle(s, mode, index, o, a, stop), mode, o, Answered(a), stop)
    ensures |Settle(s, mode, index, o, a, stop).positions| > |s.positions|
            ==> FindPosition(s.positions, o.brokerId, mode).None? && GateOpen(s.positions, mode, o, a, stop)
  {
    hide SettleRejected, SettlePartial, SettleOther, GateOpen, FindPosition, Transition, Accepted, Justifies,
        NormalStatus, SubmittedStatus, RejectedStatus, FilledStatus, RejectsSubmitted, RecordsFill;
    var status := NormalStatus(a.status);
    var position := FindPosition(s.positions, o.brokerId, mode);
    SuspensionMovesOwnRow(s, o, a, stop);
    AcceptedIsJustified(s, read, mode, o, a, stop);
    if GateOpen(s.positions, mode, o, a, stop) {
      if SubmittedStatus(o.status) && RejectedStatus(status) && status != NotFound {
        RejectedAdds(s, mode, o, a, position);
      } else if status == PartiallyFilled {
        PartialAdds(s, mode, o, a, stop, position);
      } else {
        OtherAdds(s, mode, index, o, a, stop, position);
      }
    }
  }

  lemma TurnAdds(s: State, mode: Mode, index: PositionIndex, o: LocalOrder, look: Lookup, stop: ProtectionLookup,
                 before: seq<Call>, during: seq<Call>)
    ensures AddsFill(s, OrderStep(s, mode, index, o, look, stop, before, during), mode, o, look, stop)
  {
    hide Settle, RecordsFill, Accepted, OrderStep, Run;
    if Heard(s, o, look, before) {
      HeardTurn(s, mode, index, o, look, stop, before, during);
      SettleAdds(Seen(s, before, during), Run(s.intents, before), mode, index, o, look.answer, stop);
    } else {
      UnheardTurn(s, mode, index, o, look, stop, before, during);
    }
  }

  /**
   Every position the order loop adds still records, when the loop is over, what an answer
   under its own broker id reported; a live partial fill was added at a quantity that a
   verified stop covers.
   */
  lemma {:induction false} NewPositionsRecordFills(s: State, mode: Mode, index: PositionIndex, orders: seq<LocalOrder>,
                                                   broker: Broker, others: Others, n: nat, p: nat)
    requires n <= |orders| && !s.aborted
    requires |s.positions| <= p < |OrderLoop(s, mode, index, orders, broker, others, n).positions|
    ensures var q := OrderLoop(s, mode, index, orders, broker, others, n).positions[p];
            exists i: nat :: i < n && RecordsFill(q, mode, orders[i], broker.order(i), broker.protection(i))
  {
    hide OrderStep, StopCovers, RejectsSubmitted, Strip;
    var s1 := OrderLoop(s, mode, index, orders, broker, others, n - 1);
    if !s1.aborted {
      var i: nat := n - 1;
      TurnAdds(s1, mode, index, orders[i], broker.order(i), broker.protection(i), others.before(i), others.during(i));
      if p < |s1.positions| {
        TurnKeepsPosition(s1, mode, index, orders[i], broker.order(i), broker.protection(i), others.before(i),
                          others.during(i), p);
      }
    }
    if p < |s1.positions| {
      NewPositionsRecordFills(s, mode, index, orders, broker, others, n - 1, p);
    }
  }
}
