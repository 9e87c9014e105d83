/** What a reconciliation run may do to positions and order rows. */
module ReconciliationPositions {
  import opened Wrappers
  import opened StatusWords
  import opened SubmissionIntents
  import opened Reconciliation

  // ----- counters

  ghost predicate Balanced(s: State) {
    s.summary.mismatches == s.summary.fixed + s.summary.needsReview
  }

  lemma EvidenceKeeps(s: State, o: LocalOrder, status: Word)
    ensures RecordEvidence(s, o, status).positions == s.positions
    ensures RecordEvidence(s, o, status).orders == s.orders
    ensures RecordEvidence(s, o, status).summary == s.summary
    ensures RecordEvidence(s, o, status).clock == s.clock
  {
  }

  /** A transition writes at most the order's own row, and gives it the new status. */
  ghost predicate MovesOwnRow(s: State, r: State, o: LocalOrder, status: Word) {
    && r == s.(orders := r.orders, aborted := r.aborted)
    && r.orders.Keys == s.orders.Keys
    && forall id :: id in s.orders && r.orders[id] != s.orders[id] ==>
                      id == o.localId && id != "" && r.orders[id].status == status
  }

  lemma TransitionMovesOwnRow(s: State, o: LocalOrder, status: Word, brokerStatus: Word, entryPrice: Option<real>)
    ensures MovesOwnRow(s, Transition(s, o, status, brokerStatus, entryPrice), o, status)
    ensures s.aborted ==> Transition(s, o, status, brokerStatus, entryPrice).aborted
  {
    if o.localId in s.orders {
      var row := Transitioned(s.orders[o.localId], o, status, brokerStatus, entryPrice);
      assert s.orders[o.localId := row].Keys == s.orders.Keys;
      assert row.status == status;
      hide Transitioned;
    }
  }

  /** Everything of a position but its price and time stamp. */
  predicate SameHolding(p: Position, q: Position) {
    p.brokerId == q.brokerId && p.mode == q.mode && p.symbol == q.symbol && p.side == q.side
    && p.quantity == q.quantity && p.isOpen == q.isOpen
  }

  lemma MarkRejectedMovesOwnRow(s: State, o: LocalOrder, a: Answer)
    ensures var r := MarkRejected(s, o, a);
            r.positions == s.positions && r.clock == s.clock && (Balanced(s) ==> Balanced(r))
    ensures var r := MarkRejected(s, o, a);
            r.orders.Keys == s.orders.Keys
            && forall id :: id in s.orders && r.orders[id] != s.orders[id] ==>
                              id == o.localId && id != "" && r.orders[id].status == RejectedOrderStatus(a.status)
  {
    var status := NormalStatus(a.status);
    EvidenceKeeps(s, o, status);
    var s1 := if status in {Rejected, Cancelled} && o.localId != "" then RecordEvidence(s, o, status) else s;
    TransitionMovesOwnRow(Fix(s1), o, RejectedOrderStatus(a.status), a.status, a.price);
    hide RecordEvidence, Transition, RejectedOrderStatus, NormalStatus;
  }

  /** Both ways an answer only sends the order to reconciliation. */
  lemma SuspensionMovesOwnRow(s: State, o: LocalOrder, a: Answer, stop: ProtectionLookup)
    ensures var s1 := Review(if stop.ProtectionRaised? then Error(s) else s);
            MovesOwnRow(s1, Transition(s1, o, ReconciliationRequired, a.status, a.price), o, ReconciliationRequired)
    ensures MovesOwnRow(Review(s), Transition(Review(s), o, ReconciliationRequired, a.status, None), o,
                        ReconciliationRequired)
  {
    var s1 := Review(if stop.ProtectionRaised? then Error(s) else s);
    TransitionMovesOwnRow(s1, o, ReconciliationRequired, a.status, a.price);
    TransitionMovesOwnRow(Review(s), o, ReconciliationRequired, a.status, None);
    hide Transition;
  }

  lemma MarkFilledMovesOwnRow(s: State, o: LocalOrder, a: Answer)
    ensures var r := MarkFilled(s, o, a);
            r.positions == s.positions && r.clock == s.clock && (Balanced(s) ==> Balanced(r))
    ensures var r := MarkFilled(s, o, a);
            r.orders.Keys == s.orders.Keys
            && forall id :: id in s.orders && r.orders[id] != s.orders[id] ==>
                              id == o.localId && id != "" && r.orders[id].status == Filled
  {
    EvidenceKeeps(s, o, Filled);
    var s1 := if o.localId != "" then RecordEvidence(s, o, Filled) else s;
    TransitionMovesOwnRow(Fix(s1), o, Filled, a.status, a.price);
    hide RecordEvidence, Transition;
  }

  lemma DifferencesKeepHoldings(s: State, p: nat, a: Answer, index: PositionIndex)
    requires p < |s.positions|
    ensures var r := FixDifferences(s, p, a, index);
            && r == s.(positions := r.positions, clock := r.clock, summary := r.summary)
            && |r.positions| == |s.positions|
            && (forall q :: 0 <= q < |s.positions| && q != p ==> r.positions[q] == s.positions[q])
            && SameHolding(s.positions[p], r.positions[p])
            && (r.positions[p] != s.positions[p] ==> s.positions[p].isOpen)
            && (Balanced(s) ==> Balanced(r))
  {
    hide ExpectedPrice, ExpectedQuantity;
  }

  lemma RejectedBalanced(s: State, mode: Mode, o: LocalOrder, a: Answer, position: Option<nat>)
    requires Balanced(s) && (position.Some? ==> position.value < |s.positions|)
    ensures Balanced(SettleRejected(s, mode, o, a, position))
  {
    MarkRejectedMovesOwnRow(s, o, a);
    TransitionMovesOwnRow(Review(MarkRejected(s, o, a)), o, ReconciliationRequired, a.status, None);
    hide MarkRejected, Transition;
  }

  lemma PartialBalanced(s: State, mode: Mode, o: LocalOrder, a: Answer, position: Option<nat>)
    requires Balanced(s) && (position.Some? ==> position.value < |s.positions|)
    ensures Balanced(SettlePartial(s, mode, o, a, position))
  {
    EvidenceKeeps(s, o, PartiallyFilled);
    hide RecordEvidence, PositionFrom, Transitioned;
  }

  lemma OtherBalanced(s: State, mode: Mode, index: PositionIndex, o: LocalOrder, a: Answer, position: Option<nat>)
    requires Balanced(s) && (position.Some? ==> position.value < |s.positions|)
    ensures Balanced(SettleOther(s, mode, index, o, a, position))
  {
    MarkFilledMovesOwnRow(s, o, a);
    if position.Some? {
      DifferencesKeepHoldings(s, position.value, a, index);
      DifferencesKeepHoldings(MarkFilled(s, o, a), position.value, a, index);
    }
    hide MarkFilled, PositionFrom, Transitioned, FixDifferences;
  }

  lemma SettleBalanced(s: State, mode: Mode, index: PositionIndex, o: LocalOrder, a: Answer, stop: ProtectionLookup)
    requires Balanced(s)
    ensures Balanced(Settle(s, mode, index, o, a, stop))
  {
    var position := FindPosition(s.positions, o.brokerId, mode);
    RejectedBalanced(s, mode, o, a, position);
    PartialBalanced(s, mode, o, a, position);
    OtherBalanced(s, mode, index, o, a, position);
    SuspensionMovesOwnRow(s, o, a, stop);
    hide SettleRejected, SettlePartial, SettleOther, GateOpen, FindPosition, Transition;
  }

  lemma TurnBalanced(s: State, mode: Mode, index: PositionIndex, o: LocalOrder, look: Lookup, stop: ProtectionLookup,
                     before: seq<Call>, during: seq<Call>)
    requires Balanced(s)
    ensures Balanced(OrderStep(s, mode, index, o, look, stop, before, during))
  {
    hide OrderStep, Settle, Accepted, Run;
    if Heard(s, o, look, before) {
      HeardTurn(s, mode, index, o, look, stop, before, during);
      SettleBalanced(Seen(s, before, during), mode, index, o, look.answer, stop);
    } else {
      UnheardTurn(s, mode, index, o, look, stop, before, during);
    }
  }

  lemma {:induction false} LoopBalanced(s: State, mode: Mode, index: PositionIndex, orders: seq<LocalOrder>,
                                        broker: Broker, others: Others, n: nat)
    requires n <= |orders| && Balanced(s)
    ensures Balanced(OrderLoop(s, mode, index, orders, broker, others, n))
  {
    hide OrderStep;
    if n > 0 {
      LoopBalanced(s, mode, index, orders, broker, others, n - 1);
      var s1 := OrderLoop(s, mode, index, orders, broker, others, n - 1);
      if !s1.aborted {
        TurnBalanced(s1, mode, index, orders[n - 1], broker.order(n - 1), broker.protection(n - 1),
                     others.before(n - 1), others.during(n - 1));
      }
    }
  }

  lemma {:induction false} PositionLoopBalanced(s: State, index: PositionIndex, ids: seq<nat>, broker: Broker)
    requires Balanced(s) && forall k :: 0 <= k < |ids| ==> ids[k] < |s.positions|
    ensures Balanced(PositionLoop(s, index, ids, broker))
  {
    hide BackedByBroker, LookupKeepsOpen;
    if ids != [] {
      PositionLoopBalanced(s, index, ids[..|ids| - 1], broker);
    }
  }

  /** Every counted mismatch is either fixed or left for review, however the run ends. */
  lemma MismatchesAreAccounted(s: State, mode: Mode, orders: seq<LocalOrder>, broker: Broker, others: Others)
    requires Balanced(s)
    ensures Balanced(ReconcileRun(s, mode, orders, broker, others))
  {
    hide OrderLoop, PositionPass;
    var s1 := Start(s, broker);
    var index := IndexFor(broker);
    LoopBalanced(s1, mode, index, orders, broker, others, |orders|);
    PassBalanced(OrderLoop(s1, mode, index, orders, broker, others, |orders|), mode, index, broker);
  }

  lemma PassBalanced(s: State, mode: Mode, index: PositionIndex, broker: Broker)
    requires Balanced(s)
    ensures Balanced(PositionPass(s, mode, index, broker))
  {
    hide PositionLoop, ListOpen, Unmatched, LocalKeys;
    if broker.positions.Some? {
      var ids := ListOpen(s.positions, mode);
      var raws := |broker.positions.value|;
      var s1 := s.(summary := s.summary.(checkedPositions := |ids| + raws));
      var s2 := Reviews(s1, |Unmatched(index, LocalKeys(s.positions, ids))|);
      PositionLoopBalanced(s2, index, ids, broker);
    }
  }

  // ----- existing positions in the order loop

  /** A confirmed rejecting answer to a submitted order: the one reason the order loop closes a position. */
  predicate RejectsSubmitted(o: LocalOrder, a: Answer) {
    && Strip(a.brokerId) == o.brokerId && a.confirmed
    && SubmittedStatus(o.status)
    && NormalStatus(a.status) in {Rejected, Cancelled, Failed, Expired}
  }

  /** How one settled answer may change the position p that was there before. */
  ghost predicate PositionEffect(s: State, r: State, mode: Mode, o: LocalOrder, a: Answer, p: nat) {
    && p < |s.positions| <= |r.positions|
    && (r.positions[p] != s.positions[p] ==>
        FindPosition(s.positions, o.brokerId, mode) == Some(p) && s.positions[p].isOpen)
    && (!SameHolding(s.positions[p], r.positions[p]) ==>
          && mode == Paper && SubmittedStatus(o.status) && RejectedStatus(NormalStatus(a.status))
          && NormalStatus(a.status) != NotFound
          && r.positions[p] == s.positions[p].(isOpen := false, updated := r.positions[p].updated))
  }

  lemma RejectedEffect(s: State, mode: Mode, o: LocalOrder, a: Answer, p: nat)
    requires p < |s.positions| && !s.aborted
    requires SubmittedStatus(o.status) && RejectedStatus(NormalStatus(a.status)) && NormalStatus(a.status) != NotFound
    ensures PositionEffect(s, SettleRejected(s, mode, o, a, FindPosition(s.positions, o.brokerId, mode)), mode, o, a, p)
  {
    MarkRejectedMovesOwnRow(s, o, a);
    TransitionMovesOwnRow(Review(MarkRejected(s, o, a)), o, ReconciliationRequired, a.status, None);
    hide MarkRejected, Transition, FindPosition;
  }

  lemma PartialEffect(s: State, mode: Mode, o: LocalOrder, a: Answer, p: nat)
    requires p < |s.positions| && !s.aborted
    ensures PositionEffect(s, SettlePartial(s, mode, o, a, FindPosition(s.positions, o.brokerId, mode)), mode, o, a, p)
  {
    EvidenceKeeps(s, o, PartiallyFilled);
    hide RecordEvidence, FindPosition, PositionFrom, Transitioned;
  }

  lemma OtherEffect(s: State, mode: Mode, index: PositionIndex, o: LocalOrder, a: Answer, p: nat)
    requires p < |s.positions| && !s.aborted
    ensures PositionEffect(s, SettleOther(s, mode, index, o, a, FindPosition(s.positions, o.brokerId, mode)), mode, o,
                           a, p)
  {
    MarkFilledMovesOwnRow(s, o, a);
    var position := FindPosition(s.positions, o.brokerId, mode);
    if position.Some? {
      DifferencesKeepHoldings(s, position.value, a, index);
      DifferencesKeepHoldings(MarkFilled(s, o, a), position.value, a, index);
    }
    hide MarkFilled, FindPosition, PositionFrom, FixDifferences, Transitioned;
  }

  lemma SettleEffect(s: State, mode: Mode, index: PositionIndex, o: LocalOrder, a: Answer, stop: ProtectionLookup,
                     p: nat)
    requires p < |s.positions| && !s.aborted
    ensures PositionEffect(s, Settle(s, mode, index, o, a, stop), mode, o, a, p)
    ensures Settle(s, mode, index, o, a, stop).positions != s.positions ==> GateOpen(s.positions, mode, o, a, stop)
  {
    hide SettleRejected, SettlePartial, SettleOther, FindPosition, GateOpen, Transition;
    hide NormalStatus, SubmittedStatus, RejectedStatus, SameHolding;
    var status := NormalStatus(a.status);
    SuspensionMovesOwnRow(s, o, a, stop);
    if GateOpen(s.positions, mode, o, a, stop) {
      if SubmittedStatus(o.status) && RejectedStatus(status) && status != NotFound {
        RejectedEffect(s, mode, o, a, p);
      }
      PartialEffect(s, mode, o, a, p);
      OtherEffect(s, mode, index, o, a, p);
    }
    KeptIsNoEffect(s, mode, o, a, p);
  }

  lemma KeptIsNoEffect(s: State, mode: Mode, o: LocalOrder, a: Answer, p: nat)
    requires p < |s.positions|
    ensures forall r: State | r.positions == s.positions :: PositionEffect(s, r, mode, o, a, p)
  {
  }

  /** How one turn of the loop may change an existing position. */
  ghost predicate TurnEffect(s: State, r: State, mode: Mode, o: LocalOrder, look: Lookup, stop: ProtectionLookup,
                             p: nat) {
    && p < |s.positions| <= |r.positions|
    && (r.positions[p] != s.positions[p] ==>
          && look.Answered? && s.positions[p].isOpen
          && s.positions[p].brokerId == o.brokerId && s.positions[p].mode == mode
          && (mode == Live && s.positions[p].quantity > 0 ==> StopCovers(stop, o.brokerId, s.positions[p].quantity)))
    && (!SameHolding(s.positions[p], r.positions[p]) ==>
          && mode == Paper && RejectsSubmitted(o, look.answer)
          && r.positions[p] == s.positions[p].(isOpen := false, updated := r.positions[p].updated))
  }

  lemma TurnKeepsPosition(s: State, mode: Mode, index: PositionIndex, o: LocalOrder, look: Lookup,
                          stop: ProtectionLookup, before: seq<Call>, during: seq<Call>, p: nat)
    requires p < |s.positions| && !s.aborted
    ensures TurnEffect(s, OrderStep(s, mode, index, o, look, stop, before, during), mode, o, look, stop, p)
  {
    hide Settle, FindPosition, OrderStep, Run;
    if Heard(s, o, look, before) {
      HeardTurn(s, mode, index, o, look, stop, before, during);
      SettleEffect(Seen(s, before, during), mode, index, o, look.answer, stop, p);
    } else {
      UnheardTurn(s, mode, index, o, look, stop, before, during);
    }
  }

  /** What the order loop leaves of a position that was there before it. */
  ghost predicate LoopEffect(s: State, r: State, mode: Mode, orders: seq<LocalOrder>, broker: Broker, p: nat, n: nat) {
    && n <= |orders| && p < |s.positions| <= |r.positions|
    && var before, after := s.positions[p], r.positions[p];
       && SameHolding(before.(isOpen := after.isOpen), after)
       && (after.isOpen ==> before.isOpen)
       && (before.isOpen && !after.isOpen ==>
             mode == Paper
             && exists i: nat :: i < n && orders[i].brokerId == before.brokerId && broker.order(i).Answered?
                                 && RejectsSubmitted(orders[i], broker.order(i).answer))
       && (mode == Live && before.isOpen && before.quantity > 0 && after != before ==>
             exists i: nat :: i < n && orders[i].brokerId == before.brokerId
                              && StopCovers(broker.protection(i), before.brokerId, before.quantity))
  }

  /**
   The order loop never resizes a position and never reopens one; it closes one only in
   paper mode on a confirmed rejection of its submitted order; and in live mode it
   touches open exposure only under a verified stop covering its quantity.
   */
  lemma {:induction false} LoopKeepsPosition(s: State, mode: Mode, index: PositionIndex, orders: seq<LocalOrder>,
                                             broker: Broker, others: Others, p: nat, n: nat)
    requires n <= |orders| && p < |s.positions| && !s.aborted
    ensures LoopEffect(s, OrderLoop(s, mode, index, orders, broker, others, n), mode, orders, broker, p, n)
  {
    hide OrderStep, StopCovers, RejectsSubmitted;
    if n > 0 {
      LoopKeepsPosition(s, mode, index, orders, broker, others, p, n - 1);
      var s1 := OrderLoop(s, mode, index, orders, broker, others, n - 1);
      if !s1.aborted {
        TurnKeepsPosition(s1, mode, index, orders[n - 1], broker.order(n - 1), broker.protection(n - 1),
                          others.before(n - 1), others.during(n - 1), p);
      }
    }
  }
}
