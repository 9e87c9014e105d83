/** Which answers a run acts on, and what its turns leave when the run is over. */
module ReconciliationTurns {
  import opened Wrappers
  import opened StatusWords
  import opened SubmissionIntents
  import opened IntentOutcomes
  import opened Reconciliation
  import opened ReconciliationIntents
  import opened ReconciliationOrders
  import opened ReconciliationOutcomes

  // ----- which answers are acted on

  /** The order status an answer reports, where it is one an intent can take. */
  function Reported(w: Word): Option<Word> {
    match w
    case Submitted => Some(Submitted)
    case Open => Some(Open)
    case Pending => Some(Open)
    case Transit => Some(Open)
    case Confirmed => Some(Open)
    case PartiallyFilled => Some(PartiallyFilled)
    case Filled => Some(Filled)
    case Traded => Some(Filled)
    case Complete => Some(Filled)
    case Completed => Some(Filled)
    case Cancelled => Some(Cancelled)
    case Rejected => Some(Rejected)
    case _ => None
  }

  predicate IsEnd(w: Word) {
    || w == Rejected || w == Cancelled || w == Failed || w == Expired
    || w == Filled || w == Traded || w == Complete || w == Completed
  }

  /** The answer is about this order, agrees with the intent, and is confirmed if it is an end. */
  predicate MayActOn(t: Table, o: LocalOrder, a: Answer) {
    && Strip(a.brokerId) == o.brokerId
    && (IsEnd(a.status) ==> a.confirmed)
    && (o.localId != "" && o.localId in t && t[o.localId].brokerId.Some? ==>
          && t[o.localId].brokerId == Some(o.brokerId)
          && (Reported(a.status).Some? ==> Follows(t[o.localId].status, Reported(a.status).value)))
  }

  lemma NormalWords(w: Word)
    ensures IsEnd(w) <==> NormalStatus(w) in {Rejected, Cancelled, Failed, Expired, Filled}
    ensures match Reported(w)
            case Some(status) => IsEvidence(Observed(NormalStatus(w))) && status == Observed(NormalStatus(w))
            case None => !IsEvidence(Observed(NormalStatus(w)))
  {
  }

  lemma RegressesIff(row: Row, w: Word)
    requires ValidRow(row)
    ensures Regresses(row.status, Observed(NormalStatus(w)))
            <==> row.brokerId.Some? && Reported(w).Some? && !Follows(row.status, Reported(w).value)
  {
    hide NormalStatus, Observed;
    NormalWords(w);
  }

  /** On every table the intent protocol can reach, exactly these answers are acted on. */
  lemma HeardIff(s: State, o: LocalOrder, look: Lookup, before: seq<Call>)
    requires Valid(s.intents)
    ensures Heard(s, o, look, before)
            <==> o.brokerId != "" && look.Answered? && MayActOn(Run(s.intents, before), o, look.answer)
  {
    hide Strip, NormalStatus, Regresses, Follows, Run, FitsIndexes;
    var t := Run(s.intents, before);
    RunKeepsValid(s.intents, before);
    if look.Answered? {
      NormalWords(look.answer.status);
      if o.localId in t {
        RegressesIff(t[o.localId], look.answer.status);
      }
    }
  }

  // ----- one turn

  /** An entry without broker id is passed over; an unheard answer counts an error, and a review if it came. */
  ghost predicate Ignored(s: State, r: State, o: LocalOrder, look: Lookup, before: seq<Call>) {
    && r.orders == s.orders && r.positions == s.positions && r.clock == s.clock && r.aborted == s.aborted
    && r.intents == Run(s.intents, before)
    && r.summary.fixed == s.summary.fixed
    && r.summary.mismatches - s.summary.mismatches == r.summary.needsReview - s.summary.needsReview
    && r.summary.needsReview == s.summary.needsReview + One(o.brokerId != "" && look.Answered?)
    && r.summary.errors == s.summary.errors + One(o.brokerId != "")
    && r.summary.checkedOrders == s.summary.checkedOrders + One(o.brokerId != "")
    && r.summary.checkedPositions == s.summary.checkedPositions
  }

  /** What every turn leaves, whatever the other workers do around it. */
  lemma TurnOutcome(s: State, mode: Mode, index: PositionIndex, o: LocalOrder, look: Lookup, stop: ProtectionLookup,
                    before: seq<Call>, during: seq<Call>)
    requires !s.aborted
    ensures var r := OrderStep(s, mode, index, o, look, stop, before, during);
            if !Heard(s, o, look, before) then Ignored(s, r, o, look, before)
            else r.aborted || Outcome(Seen(s, before, during), r, mode, index, o, look.answer, stop)
  {
    hide Settle, Accepted, Run, Outcome;
    if Heard(s, o, look, before) {
      SettledOutcome(Seen(s, before, during), mode, index, o, look.answer, stop);
    }
  }

  // ----- the order row after a run

  predicate RowSays(row: OrderRow, row': OrderRow, status: Word, o: LocalOrder, a: Answer, price: Option<real>) {
    && row'.status == status && row'.brokerId == Some(o.brokerId) && row'.brokerStatus == a.status
    && row'.entryPrice == if price.Some? then price else row.entryPrice
  }

  /** A live position is open that the rejection does not explain. */
  predicate Exposed(positions: seq<Position>, mode: Mode, o: LocalOrder) {
    var position := FindPosition(positions, o.brokerId, mode);
    mode == Live && position.Some? && positions[position.value].isOpen
  }

  /** The order's row after a turn that heard the answer. */
  predicate RowLeft(positions: seq<Position>, mode: Mode, o: LocalOrder, a: Answer, stop: ProtectionLookup,
                    row: OrderRow, row': OrderRow) {
    match SituationOf(positions, mode, o, a, stop)
    case Uncovered => RowSays(row, row', ReconciliationRequired, o, a, a.price)
    case NotKnown => RowSays(row, row', ReconciliationRequired, o, a, None)
    case Refused =>
      RowSays(row, row', if Exposed(positions, mode, o) then ReconciliationRequired
                         else if a.status == Rejected then Rejected
                         else if a.status == Cancelled then Cancelled else Failed, o, a, a.price)
    case PartFilled => RowSays(row, row', PartiallyFilled, o, a, a.price)
    case FullyFilled => if MarkedFilled(o) then row' == row else RowSays(row, row', Filled, o, a, a.price)
    case Standing => row' == row
  }

  lemma TurnRow(s: State, mode: Mode, index: PositionIndex, o: LocalOrder, look: Lookup, stop: ProtectionLookup,
                before: seq<Call>, during: seq<Call>)
    requires !s.aborted && o.localId != "" && o.localId in s.orders
    ensures var r := OrderStep(s, mode, index, o, look, stop, before, during);
            !r.aborted ==>
              && o.localId in r.orders
              && if Heard(s, o, look, before)
                 then RowLeft(s.positions, mode, o, look.answer, stop, s.orders[o.localId], r.orders[o.localId])
                 else r.orders[o.localId] == s.orders[o.localId]
  {
    hide OrderStep, Accepted, Run, SituationOf, FindPosition, Counts, Repriced, Adds, IntentMoved, MarkedFilled;
    TurnOutcome(s, mode, index, o, look, stop, before, during);
  }

  /** The last turn of this order row. */
  predicate LastTurnOf(orders: seq<LocalOrder>, i: nat, n: nat) {
    && i < n <= |orders| && orders[i].localId != ""
    && forall j :: i < j < n ==> orders[j].localId != orders[i].localId
  }

  /** What the last turn of an order row leaves in it is there when the loop is over. */
  lemma {:induction false} RowAfterLoop(s: State, mode: Mode, index: PositionIndex, orders: seq<LocalOrder>,
                                        broker: Broker, others: Others, i: nat, n: nat)
    requires !s.aborted && LastTurnOf(orders, i, n) && orders[i].localId in s.orders
    ensures var s1 := OrderLoop(s, mode, index, orders, broker, others, i);
            var r := OrderLoop(s, mode, index, orders, broker, others, n);
            var id := orders[i].localId;
            !r.aborted ==>
              && !s1.aborted && id in s1.orders && id in r.orders
              && if Heard(s1, orders[i], broker.order(i), others.before(i))
                 then RowLeft(s1.positions, mode, orders[i], broker.order(i).answer, broker.protection(i),
                              s1.orders[id], r.orders[id])
                 else r.orders[id] == s1.orders[id]
    decreases n
  {
    hide OrderStep, Heard, RowLeft, Justifies;
    var s1 := OrderLoop(s, mode, index, orders, broker, others, n - 1);
    if s1.aborted {
      return;
    }
    LoopOrdersAreJustified(s, mode, index, orders, broker, others, n - 1, orders[i].localId);
    if n == i + 1 {
      TurnRow(s1, mode, index, orders[i], broker.order(i), broker.protection(i), others.before(i), others.during(i));
    } else {
      RowAfterLoop(s, mode, index, orders, broker, others, i, n - 1);
      TurnOrders(s1, mode, index, orders[n - 1], broker.order(n - 1), broker.protection(n - 1),
                 others.before(n - 1), others.during(n - 1));
    }
  }

  /** No other entry is about the order row of entry i. */
  predicate OnlyEntryOf(orders: seq<LocalOrder>, i: nat) {
    && i < |orders| && orders[i].localId != ""
    && forall j :: 0 <= j < |orders| && j != i ==> orders[j].localId != orders[i].localId
  }

  /**
   After every run that is not ended by an exception the row of an entry says exactly what the answer means for
   it, or is as it was when that turn heard nothing to act on.
   */
  lemma RowAfterRun(s: State, mode: Mode, orders: seq<LocalOrder>, broker: Broker, others: Others, i: nat)
    requires !s.aborted && OnlyEntryOf(orders, i) && orders[i].localId in s.orders
    ensures var s1 := OrderLoop(Start(s, broker), mode, IndexFor(broker), orders, broker, others, i);
            var r := ReconcileRun(s, mode, orders, broker, others);
            var id := orders[i].localId;
            !r.aborted ==>
              && id in r.orders
              && if Heard(s1, orders[i], broker.order(i), others.before(i))
                 then RowLeft(s1.positions, mode, orders[i], broker.order(i).answer, broker.protection(i),
                              s.orders[id], r.orders[id])
                 else r.orders[id] == s.orders[id]
  {
    hide OrderLoop, PositionPass, Heard, RowLeft, IndexFor, Justifies;
    var index, start := IndexFor(broker), Start(s, broker);
    RowAfterLoop(start, mode, index, orders, broker, others, i, |orders|);
    LoopOrdersAreJustified(start, mode, index, orders, broker, others, i, orders[i].localId);
    PassKeepsIntents(OrderLoop(start, mode, index, orders, broker, others, |orders|), mode, index, broker);
  }
}
