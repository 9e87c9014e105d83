/** Exactly when an exception ends a reconciliation run. */
module ReconciliationAborts {
  import opened Wrappers
  import opened StatusWords
  import opened SubmissionIntents
  import opened Reconciliation
  import opened ReconciliationIntents
  import opened ReconciliationPositions

  /** The order row that the entry names does not exist. */
  predicate RowMissing(s: State, o: LocalOrder) { o.localId != "" && o.localId !in s.orders }

  /** An existing intent refuses the evidence: by the guard, or because another intent owns the broker id. */
  predicate EvidenceRefused(t: Table, o: LocalOrder, status: Word) {
    && o.localId in t
    && !(&& EvidenceGuard(t[o.localId], o.brokerId, status)
         && FitsIndexes(t, o.localId, t[o.localId].(brokerId := Some(o.brokerId), status := status)))
  }

  /** The evidence an answer delivers before anything else is written. */
  function EvidenceDue(o: LocalOrder, a: Answer): Option<Word> {
    var status := NormalStatus(a.status);
    if o.localId == "" then None
    else if SubmittedStatus(o.status) && RejectedStatus(status) then
      if status in {Rejected, Cancelled} then Some(status) else None
    else if status == PartiallyFilled || FilledStatus(status) then Some(status) else None
  }

  /** The answer moves the order row. */
  predicate RowDue(o: LocalOrder, a: Answer) {
    var status := NormalStatus(a.status);
    || status == NotFound
    || (SubmittedStatus(o.status) && RejectedStatus(status))
    || status == PartiallyFilled
    || (FilledStatus(status) && NormalStatus(o.status) != Filled)
  }

  /** A partial fill meets a position of another quantity. */
  predicate FillDiffers(positions: seq<Position>, mode: Mode, o: LocalOrder, a: Answer) {
    var position := FindPosition(positions, o.brokerId, mode);
    && NormalStatus(a.status) == PartiallyFilled && a.filled > 0
    && position.Some? && positions[position.value].quantity != a.filled
  }

  /** What the caller can see before the answer is applied. */
  predicate Aborts(s: State, mode: Mode, o: LocalOrder, a: Answer, stop: ProtectionLookup) {
    if !GateOpen(s.positions, mode, o, a, stop) then RowMissing(s, o)
    else
      || (EvidenceDue(o, a).Some? && EvidenceRefused(s.intents, o, EvidenceDue(o, a).value))
      || (RowDue(o, a) && RowMissing(s, o))
      || FillDiffers(s.positions, mode, o, a)
  }

  lemma EvidenceAborts(s: State, o: LocalOrder, status: Word)
    requires !s.aborted && o.brokerId != "" && IsEvidence(status)
    ensures RecordEvidence(s, o, status).aborted <==> EvidenceRefused(s.intents, o, status)
    ensures RecordEvidence(s, o, status).orders == s.orders
  {
  }

  lemma TransitionAborts(s: State, o: LocalOrder, status: Word, brokerStatus: Word, entryPrice: Option<real>)
    requires !s.aborted
    ensures Transition(s, o, status, brokerStatus, entryPrice).aborted <==> RowMissing(s, o)
    ensures RowMissing(Transition(s, o, status, brokerStatus, entryPrice), o) <==> RowMissing(s, o)
  {
  }

  lemma RejectedAborts(s: State, mode: Mode, o: LocalOrder, a: Answer, position: Option<nat>)
    requires !s.aborted && o.brokerId != "" && (position.Some? ==> position.value < |s.positions|)
    ensures SettleRejected(s, mode, o, a, position).aborted
            <==> || (o.localId != "" && NormalStatus(a.status) in {Rejected, Cancelled}
                     && EvidenceRefused(s.intents, o, NormalStatus(a.status)))
                 || RowMissing(s, o)
  {
    hide RecordEvidence, Transition, EvidenceRefused, RejectedOrderStatus;
    var status := NormalStatus(a.status);
    var s1 := if status in {Rejected, Cancelled} && o.localId != "" then RecordEvidence(s, o, status) else s;
    if status in {Rejected, Cancelled} {
      EvidenceAborts(s, o, status);
    }
    if !s1.aborted {
      TransitionAborts(Fix(s1), o, RejectedOrderStatus(a.status), a.status, a.price);
      var s2 := Transition(Fix(s1), o, RejectedOrderStatus(a.status), a.status, a.price);
      assert RowMissing(Review(s2), o) == RowMissing(s2, o) && RowMissing(Fix(s1), o) == RowMissing(s, o);
      if !s2.aborted {
        TransitionAborts(Review(s2), o, ReconciliationRequired, a.status, None);
      }
    }
    hide RowMissing;
  }

  lemma PartialAborts(s: State, mode: Mode, o: LocalOrder, a: Answer)
    requires !s.aborted && o.brokerId != "" && NormalStatus(a.status) == PartiallyFilled
    ensures SettlePartial(s, mode, o, a, FindPosition(s.positions, o.brokerId, mode)).aborted
            <==> || (o.localId != "" && EvidenceRefused(s.intents, o, PartiallyFilled))
                 || RowMissing(s, o) || FillDiffers(s.positions, mode, o, a)
  {
    hide RecordEvidence, Transition, EvidenceRefused, FindPosition, PositionFrom;
    EvidenceAborts(s, o, PartiallyFilled);
    EvidenceKeeps(s, o, PartiallyFilled);
    var s1 := if o.localId != "" then RecordEvidence(s, o, PartiallyFilled) else s;
    if !s1.aborted {
      TransitionAborts(s1, o, PartiallyFilled, a.status, a.price);
      TransitionMovesOwnRow(s1, o, PartiallyFilled, a.status, a.price);
    }
  }

  lemma OtherAborts(s: State, mode: Mode, index: PositionIndex, o: LocalOrder, a: Answer, position: Option<nat>)
    requires !s.aborted && o.brokerId != "" && (position.Some? ==> position.value < |s.positions|)
    ensures SettleOther(s, mode, index, o, a, position).aborted
            <==> && FilledStatus(NormalStatus(a.status))
                 && (|| (o.localId != "" && EvidenceRefused(s.intents, o, Filled))
                     || (NormalStatus(o.status) != Filled && RowMissing(s, o)))
  {
    hide RecordEvidence, Transition, EvidenceRefused, PositionFrom, FixDifferences;
    EvidenceAborts(s, o, Filled);
    EvidenceKeeps(s, o, Filled);
    var s1 := if o.localId != "" then RecordEvidence(s, o, Filled) else s;
    if !s1.aborted {
      TransitionAborts(Fix(s1), o, Filled, a.status, a.price);
      TransitionMovesOwnRow(Fix(s1), o, Filled, a.status, a.price);
    }
    if position.Some? {
      DifferencesKeepHoldings(s, position.value, a, index);
      DifferencesKeepHoldings(MarkFilled(s, o, a), position.value, a, index);
    }
  }

  /**
   Settling an answer raises exactly when its order row is missing where the branch writes
   it, an existing intent refuses the evidence, or a partial fill meets a position of
   another quantity, whose update call has arguments the store does not take.
   */
  lemma SettleAbortsIff(s: State, mode: Mode, index: PositionIndex, o: LocalOrder, a: Answer, stop: ProtectionLookup)
    requires !s.aborted && o.brokerId != ""
    ensures Settle(s, mode, index, o, a, stop).aborted <==> Aborts(s, mode, o, a, stop)
  {
    hide SettleRejected, SettlePartial, SettleOther, GateOpen, FindPosition, Transition, EvidenceRefused, NormalStatus,
         SubmittedStatus, RowMissing, FillDiffers, IsEvidence;
    var status := NormalStatus(a.status);
    var position := FindPosition(s.positions, o.brokerId, mode);
    SuspensionAborts(s, o, a, stop);
    FilledIsFilled(a, s.positions, mode, o);
    if GateOpen(s.positions, mode, o, a, stop) && status != NotFound {
      if SubmittedStatus(o.status) && RejectedStatus(status) {
        RejectedAborts(s, mode, o, a, position);
      } else if status == PartiallyFilled {
        PartialAborts(s, mode, o, a);
      } else {
        OtherAborts(s, mode, index, o, a, position);
      }
    }
  }

  lemma SuspensionAborts(s: State, o: LocalOrder, a: Answer, stop: ProtectionLookup)
    requires !s.aborted
    ensures var s1 := Review(if stop.ProtectionRaised? then Error(s) else s);
            Transition(s1, o, ReconciliationRequired, a.status, a.price).aborted <==> RowMissing(s, o)
    ensures Transition(Review(s), o, ReconciliationRequired, a.status, None).aborted <==> RowMissing(s, o)
  {
  }

  lemma FilledIsFilled(a: Answer, positions: seq<Position>, mode: Mode, o: LocalOrder)
    ensures FilledStatus(NormalStatus(a.status)) <==> NormalStatus(a.status) == Filled
    ensures FillDiffers(positions, mode, o, a) ==> NormalStatus(a.status) == PartiallyFilled
  {
    hide FindPosition;
  }

  // ----- turns and runs

  /** The i-th turn raises. */
  predicate TurnAborts(s: State, mode: Mode, o: LocalOrder, look: Lookup, stop: ProtectionLookup, before: seq<Call>,
                       during: seq<Call>) {
    Heard(s, o, look, before) && Aborts(Seen(s, before, during), mode, o, look.answer, stop)
  }

  lemma TurnAbortsIff(s: State, mode: Mode, index: PositionIndex, o: LocalOrder, look: Lookup, stop: ProtectionLookup,
                      before: seq<Call>, during: seq<Call>)
    requires !s.aborted
    ensures OrderStep(s, mode, index, o, look, stop, before, during).aborted
            <==> TurnAborts(s, mode, o, look, stop, before, during)
  {
    hide Settle, Aborts, Accepted, OrderStep, Run;
    if Heard(s, o, look, before) {
      HeardTurn(s, mode, index, o, look, stop, before, during);
      SettleAbortsIff(Seen(s, before, during), mode, index, o, look.answer, stop);
    } else {
      UnheardTurn(s, mode, index, o, look, stop, before, during);
    }
  }

  /** The run is still going when turn i begins, and that turn raises. */
  ghost predicate AbortsAt(s: State, mode: Mode, index: PositionIndex, orders: seq<LocalOrder>, broker: Broker,
                           others: Others, i: nat) {
    && i < |orders|
    && var s1 := OrderLoop(s, mode, index, orders, broker, others, i);
       !s1.aborted
           && TurnAborts(s1, mode, orders[i], broker.order(i), broker.protection(i), others.before(i), others.during(i))
  }

  lemma {:induction false} LoopAbortsIff(s: State, mode: Mode, index: PositionIndex, orders: seq<LocalOrder>,
                                         broker: Broker, others: Others, n: nat)
    requires !s.aborted && n <= |orders|
    ensures OrderLoop(s, mode, index, orders, broker, others, n).aborted
            <==> exists i: nat :: i < n && AbortsAt(s, mode, index, orders, broker, others, i)
  {
    hide OrderStep, TurnAborts;
    if n > 0 {
      var i: nat := n - 1;
      LoopAbortsIff(s, mode, index, orders, broker, others, i);
      var s1 := OrderLoop(s, mode, index, orders, broker, others, i);
      if !s1.aborted {
        TurnAbortsIff(s1, mode, index, orders[i], broker.order(i), broker.protection(i), others.before(i),
                      others.during(i));
        assert OrderLoop(s, mode, index, orders, broker, others, n).aborted
               <==> AbortsAt(s, mode, index, orders, broker, others, i);
      }
    }
  }

  /** A run ends in an exception exactly when one of its turns raises; the position pass never does. */
  lemma RunAbortsIff(s: State, mode: Mode, orders: seq<LocalOrder>, broker: Broker, others: Others)
    requires !s.aborted
    ensures ReconcileRun(s, mode, orders, broker, others).aborted
            <==> exists i: nat :: AbortsAt(Start(s, broker), mode, IndexFor(broker), orders, broker, others, i)
  {
    hide OrderLoop, PositionPass, TurnAborts;
    LoopAbortsIff(Start(s, broker), mode, IndexFor(broker), orders, broker, others, |orders|);
    PassKeepsIntents(OrderLoop(Start(s, broker), mode, IndexFor(broker), orders, broker, others, |orders|), mode,
                     IndexFor(broker), broker);
  }
}
