/**
 What a turn that does not raise leaves behind, read off the answer, the entry and the stop: the
 order row, the positions and the counters, in every branch.
 */
module ReconciliationOutcomes {
  import opened Wrappers
  import opened StatusWords
  import opened SubmissionIntents
  import opened Reconciliation

  // ----- the situation

  /** The open quantity of the position found for the order. */
  function Held(positions: seq<Position>, mode: Mode, o: LocalOrder): int {
    match FindPosition(positions, o.brokerId, mode)
    case None => 0
    case Some(p) => if positions[p].isOpen then positions[p].quantity else 0
  }

  /** The position found is the last updated one of that order and mode, the highest id on ties. */
  lemma {:induction false} FoundIsLatest(positions: seq<Position>, brokerId: string, mode: Mode)
    ensures match FindPosition(positions, brokerId, mode)
            case None => forall p :: 0 <= p < |positions| ==>
                positions[p].brokerId != brokerId || positions[p].mode != mode
            case Some(p) =>
              && p < |positions| && positions[p].brokerId == brokerId && positions[p].mode == mode
              && forall q :: 0 <= q < |positions| && positions[q].brokerId == brokerId && positions[q].mode == mode ==>
                   positions[q].updated < positions[p].updated
                       || (positions[q].updated == positions[p].updated && q <= p)
  {
    if positions != [] {
      FoundIsLatest(positions[..|positions| - 1], brokerId, mode);
    }
  }

  /** Nothing live is at stake, or a confirmed, active stop of this very order is left for all of it. */
  predicate Covered(positions: seq<Position>, mode: Mode, o: LocalOrder, a: Answer, stop: ProtectionLookup) {
    || mode == Paper
    || (a.filled <= 0 && Held(positions, mode, o) <= 0)
    || (&& stop.Protected? && Strip(stop.protection.brokerId) == o.brokerId && stop.protection.confirmed
        && stop.protection.isProtected && stop.protection.stopPresent && stop.protection.stopActive
        && (stop.protection.stopStatus == Open || stop.protection.stopStatus == PartiallyFilled)
        && stop.protection.stopRemaining >= a.filled
        && stop.protection.stopRemaining >= Held(positions, mode, o))
  }

  lemma GateIsCover(positions: seq<Position>, mode: Mode, o: LocalOrder, a: Answer, stop: ProtectionLookup)
    ensures GateOpen(positions, mode, o, a, stop) <==> Covered(positions, mode, o, a, stop)
  {
    hide Strip, FindPosition;
  }

  /** The statuses of an order that was sent and not settled otherwise. */
  predicate WasSubmitted(o: LocalOrder) {
    || o.status == PaperOrderSubmitted || o.status == LiveOrderSubmitted || o.status == Submitted
    || o.status == BrokerSubmitted || o.status == Pending || o.status == Confirmed || o.status == Open
        || o.status == Filled
  }

  /** What the answer amounts to. */
  datatype Situation = Uncovered | NotKnown | Refused | PartFilled | FullyFilled | Standing

  function SituationOf(positions: seq<Position>, mode: Mode, o: LocalOrder, a: Answer,
                       stop: ProtectionLookup): Situation {
    if !Covered(positions, mode, o, a, stop) then Uncovered
    else
      match a.status
      case NotFound => NotKnown
      case Rejected => if WasSubmitted(o) then Refused else Standing
      case Cancelled => if WasSubmitted(o) then Refused else Standing
      case Failed => if WasSubmitted(o) then Refused else Standing
      case Expired => if WasSubmitted(o) then Refused else Standing
      case PartiallyFilled => PartFilled
      case Filled => FullyFilled
      case Traded => FullyFilled
      case Complete => FullyFilled
      case Completed => FullyFilled
      case _ => Standing
  }

  // ----- what a turn leaves

  /**
   The order's own row, if it exists, holds this status, the order's broker id, the word as reported and the old
   price unless one is given; no other row changes.
   */
  ghost predicate RowMoved(orders: map<string, OrderRow>, orders': map<string, OrderRow>, o: LocalOrder, status: Word,
                           a: Answer, price: Option<real>) {
    if o.localId == "" || o.localId !in orders then orders' == orders
    else
      && orders'.Keys == orders.Keys
      && (forall id :: id in orders && id != o.localId ==> orders'[id] == orders[id])
      && var row, row' := orders[o.localId], orders'[o.localId];
         && row'.status == status && row'.brokerId == Some(o.brokerId) && row'.brokerStatus == a.status
         && row'.entryPrice == if price.Some? then price else row.entryPrice
  }

  /** The intent, if there is one, takes the broker id and the status of the evidence; no other intent changes. */
  ghost predicate IntentMoved(t: Table, t': Table, o: LocalOrder, status: Word) {
    t' == if o.localId == "" || o.localId !in t then t
          else t[o.localId := Row(t[o.localId].key, t[o.localId].correlation, Some(o.brokerId), status)]
  }

  /** An open position of this fill: the answer's data, the entry's where the answer has none. */
  predicate RecordsAnswer(q: Position, mode: Mode, o: LocalOrder, a: Answer, quantity: int) {
    && q.isOpen && q.brokerId == a.brokerId && q.mode == mode && q.quantity == quantity
    && q.symbol == Upper(if a.symbol == "" then o.symbol else a.symbol)
    && q.side == Upper(if a.side == "" then o.side else a.side)
    && q.entryPrice == if a.price == None || a.price == Some(0.0) then o.price else a.price.value
  }

  predicate Adds(s: State, r: State, mode: Mode, o: LocalOrder, a: Answer, quantity: int) {
    && |r.positions| == |s.positions| + 1 && r.positions[..|s.positions|] == s.positions
    && RecordsAnswer(r.positions[|s.positions|], mode, o, a, quantity)
    && r.positions[|s.positions|].updated == s.clock + 1
  }

  function BrokerQuantity(q: Position, a: Answer, index: PositionIndex): int {
    var key := Upper(q.symbol) + ":" + Upper(q.side);
    if key in index && index[key].quantity != 0 then index[key].quantity else a.quantity
  }

  function BrokerPrice(q: Position, a: Answer, index: PositionIndex): Option<real> {
    var key := Upper(q.symbol) + ":" + Upper(q.side);
    if key in index && index[key].price != 0.0 then Some(index[key].price)
    else if a.price == Some(0.0) then None else a.price
  }

  predicate QuantityDiffers(q: Position, a: Answer, index: PositionIndex) {
    BrokerQuantity(q, a, index) != 0 && BrokerQuantity(q, a, index) != q.quantity
  }

  /** By more than a hundredth, in either direction, where the quantity agrees. */
  predicate PriceDiffers(q: Position, a: Answer, index: PositionIndex) {
    && !QuantityDiffers(q, a, index)
    && match BrokerPrice(q, a, index)
       case None => false
       case Some(price) => price - q.entryPrice > 0.01 || q.entryPrice - price > 0.01
  }

  /** Of the position found only the price is corrected, and only while it is open. */
  predicate Repriced(s: State, r: State, p: nat, a: Answer, index: PositionIndex)
    requires p < |s.positions|
  {
    var q := s.positions[p];
    r.positions == if q.isOpen && PriceDiffers(q, a, index) && BrokerPrice(q, a, index).Some?
                   then s.positions[p := q.(entryPrice := BrokerPrice(q, a, index).value, updated := s.clock + 1)]
                   else s.positions
  }

  function One(b: bool): nat { if b then 1 else 0 }

  predicate Counts(s: State, r: State, fixed: nat, review: nat, errors: nat) {
    && r.summary.fixed == s.summary.fixed + fixed
    && r.summary.needsReview == s.summary.needsReview + review
    && r.summary.mismatches == s.summary.mismatches + fixed + review
    && r.summary.errors == s.summary.errors + errors
    && r.summary.checkedOrders == s.summary.checkedOrders
    && r.summary.checkedPositions == s.summary.checkedPositions
  }

  /** The order waits for reconciliation. */
  ghost predicate Suspended(s: State, r: State, o: LocalOrder, a: Answer, price: Option<real>, errors: nat) {
    && RowMoved(s.orders, r.orders, o, ReconciliationRequired, a, price)
    && r.intents == s.intents && r.positions == s.positions && Counts(s, r, 0, 1, errors)
  }

  /** An order that was refused: its paper position is closed, a live one left for review. */
  ghost predicate Withdrawn(s: State, r: State, mode: Mode, o: LocalOrder, a: Answer, position: Option<nat>)
    requires position.Some? ==> position.value < |s.positions|
  {
    var held := position.Some? && s.positions[position.value].isOpen;
    && RowMoved(s.orders, r.orders, o,
                if mode == Live && held then ReconciliationRequired
                else if a.status == Rejected || a.status == Cancelled then a.status else Failed, a, a.price)
    && (if a.status == Rejected || a.status == Cancelled then IntentMoved(s.intents, r.intents, o, a.status)
        else r.intents == s.intents)
    && r.positions == (if mode == Paper && held
                       then s.positions[position.value := s.positions[position.value].(isOpen := false,
                                                                                      updated := s.clock + 1)]
                       else s.positions)
    && Counts(s, r, 1, One(mode == Live && held), 0)
  }

  ghost predicate PartlyRecorded(s: State, r: State, mode: Mode, o: LocalOrder, a: Answer, position: Option<nat>) {
    && RowMoved(s.orders, r.orders, o, PartiallyFilled, a, a.price)
    && IntentMoved(s.intents, r.intents, o, PartiallyFilled)
    && (if a.filled > 0 && position.None? then Adds(s, r, mode, o, a, a.filled) else r.positions == s.positions)
    && Counts(s, r, 0, 0, 0)
  }

  predicate MarkedFilled(o: LocalOrder) {
    o.status == Filled || o.status == Traded || o.status == Complete || o.status == Completed
  }

  ghost predicate Recorded(s: State, r: State, mode: Mode, index: PositionIndex, o: LocalOrder, a: Answer,
                           position: Option<nat>)
    requires position.Some? ==> position.value < |s.positions|
  {
    var marks := One(o.localId != "" && !MarkedFilled(o));
    && (if MarkedFilled(o) then r.orders == s.orders else RowMoved(s.orders, r.orders, o, Filled, a, a.price))
    && IntentMoved(s.intents, r.intents, o, Filled)
    && match position
       case None =>
         && Adds(s, r, mode, o, a, if a.quantity != 0 then a.quantity else o.quantity)
         && Counts(s, r, marks + 1, 0, 0)
       case Some(p) =>
         && Repriced(s, r, p, a, index)
         && Counts(s, r, marks + One(PriceDiffers(s.positions[p], a, index)),
                   One(QuantityDiffers(s.positions[p], a, index)), 0)
  }

  /** An answer that moves nothing: the position found is compared. */
  ghost predicate Compared(s: State, r: State, index: PositionIndex, a: Answer, position: Option<nat>)
    requires position.Some? ==> position.value < |s.positions|
  {
    && r.orders == s.orders && r.intents == s.intents
    && match position
       case None => r.positions == s.positions && Counts(s, r, 0, 0, 0)
       case Some(p) =>
         && Repriced(s, r, p, a, index)
         && Counts(s, r, One(PriceDiffers(s.positions[p], a, index)), One(QuantityDiffers(s.positions[p], a, index)), 0)
  }

  ghost predicate Outcome(s: State, r: State, mode: Mode, index: PositionIndex, o: LocalOrder, a: Answer,
                          stop: ProtectionLookup) {
    var position := FindPosition(s.positions, o.brokerId, mode);
    match SituationOf(s.positions, mode, o, a, stop)
    case Uncovered => Suspended(s, r, o, a, a.price, One(stop.ProtectionRaised?))
    case NotKnown => Suspended(s, r, o, a, None, 0)
    case Refused => Withdrawn(s, r, mode, o, a, position)
    case PartFilled => PartlyRecorded(s, r, mode, o, a, position)
    case FullyFilled => Recorded(s, r, mode, index, o, a, position)
    case Standing => Compared(s, r, index, a, position)
  }

  // ----- the parts

  lemma TransitionWrites(s: State, o: LocalOrder, status: Word, a: Answer, price: Option<real>)
    requires !Transition(s, o, status, a.status, price).aborted
    ensures var r := Transition(s, o, status, a.status, price);
            r == s.(orders := r.orders) && RowMoved(s.orders, r.orders, o, status, a, price)
  {
    if o.localId in s.orders && o.localId != "" {
      var row := Transitioned(s.orders[o.localId], o, status, a.status, price);
      assert s.orders[o.localId := row].Keys == s.orders.Keys;
    }
  }

  lemma RowMovedTwice(x: map<string, OrderRow>, y: map<string, OrderRow>, z: map<string, OrderRow>, o: LocalOrder,
                      status: Word, status': Word, a: Answer, price: Option<real>)
    requires RowMoved(x, y, o, status, a, price) && RowMoved(y, z, o, status', a, None)
    ensures RowMoved(x, z, o, status', a, price)
  {
  }

  lemma EvidenceWrites(s: State, o: LocalOrder, status: Word)
    requires o.brokerId != "" && IsEvidence(status) && (o.localId != "" ==> !RecordEvidence(s, o, status).aborted)
    ensures var r := if o.localId != "" then RecordEvidence(s, o, status) else s;
            r == s.(intents := r.intents) && IntentMoved(s.intents, r.intents, o, status)
  {
  }

  lemma PositionAdded(s: State, s1: State, mode: Mode, o: LocalOrder, a: Answer, quantity: int)
    requires s1.positions == s.positions && s1.clock == s.clock
    ensures var r := CreatePosition(s1, PositionFrom(a, o, mode).(quantity := quantity));
            r == s1.(positions := r.positions, clock := r.clock) && Adds(s, r, mode, o, a, quantity)
  {
    hide Upper;
    var r := CreatePosition(s1, PositionFrom(a, o, mode).(quantity := quantity));
    assert r.positions[..|s.positions|] == s.positions;
  }

  lemma DifferencesReprice(s: State, p: nat, a: Answer, index: PositionIndex)
    requires p < |s.positions|
    ensures var r := FixDifferences(s, p, a, index); var q := s.positions[p];
            && r == s.(positions := r.positions, clock := r.clock, summary := r.summary)
            && Repriced(s, r, p, a, index)
            && Counts(s, r, One(PriceDiffers(q, a, index)), One(QuantityDiffers(q, a, index)), 0)
  {
    hide Upper;
  }

  // ----- the branches

  lemma BranchOf(s: State, mode: Mode, index: PositionIndex, o: LocalOrder, a: Answer, stop: ProtectionLookup)
    ensures var position := FindPosition(s.positions, o.brokerId, mode);
            var s1 := Review(if stop.ProtectionRaised? then Error(s) else s);
            Settle(s, mode, index, o, a, stop) ==
            match SituationOf(s.positions, mode, o, a, stop)
            case Uncovered => Transition(s1, o, ReconciliationRequired, a.status, a.price)
            case NotKnown => Transition(Review(s), o, ReconciliationRequired, a.status, None)
            case Refused => SettleRejected(s, mode, o, a, position)
            case PartFilled => SettlePartial(s, mode, o, a, position)
            case _ => SettleOther(s, mode, index, o, a, position)
  {
    GateIsCover(s.positions, mode, o, a, stop);
    hide Covered, GateOpen, SettleRejected, SettlePartial, SettleOther, FindPosition, Transition;
  }

  lemma SituationWords(positions: seq<Position>, mode: Mode, o: LocalOrder, a: Answer, stop: ProtectionLookup)
    ensures var status := NormalStatus(a.status);
            match SituationOf(positions, mode, o, a, stop)
            case Refused => status == a.status && status in {Rejected, Cancelled, Failed, Expired}
            case FullyFilled => FilledStatus(status)
            case Standing => !FilledStatus(status)
            case _ => true
  {
    hide Covered, WasSubmitted;
  }

  lemma SuspendedBy(s: State, o: LocalOrder, a: Answer, price: Option<real>, errors: nat, s1: State)
    requires s1 == s.(summary := s1.summary) && Counts(s, s1, 0, 1, errors)
    requires !Transition(s1, o, ReconciliationRequired, a.status, price).aborted
    ensures Suspended(s, Transition(s1, o, ReconciliationRequired, a.status, price), o, a, price, errors)
  {
    hide Transition, RowMoved;
    TransitionWrites(s1, o, ReconciliationRequired, a, price);
  }

  lemma RejectionMarks(s: State, o: LocalOrder, a: Answer)
    requires o.brokerId != "" && !s.aborted && !MarkRejected(s, o, a).aborted
    requires NormalStatus(a.status) == a.status && a.status in {Rejected, Cancelled, Failed, Expired}
    ensures var r := MarkRejected(s, o, a);
            && r == s.(orders := r.orders, intents := r.intents, summary := r.summary)
            && RowMoved(s.orders, r.orders, o, if a.status in {Rejected, Cancelled} then a.status
                        else Failed, a, a.price)
            && (if a.status in {Rejected, Cancelled} then IntentMoved(s.intents, r.intents, o, a.status)
                else r.intents == s.intents)
            && Counts(s, r, 1, 0, 0)
  {
    hide RecordEvidence, Transition, RowMoved, IntentMoved, NormalStatus;
    var s1 := if a.status in {Rejected, Cancelled} && o.localId != "" then RecordEvidence(s, o, a.status) else s;
    if a.status in {Rejected, Cancelled} {
      EvidenceWrites(s, o, a.status);
    }
    TransitionWrites(Fix(s1), o, RejectedOrderStatus(a.status), a, a.price);
  }

  lemma RejectedWithdraws(s: State, mode: Mode, o: LocalOrder, a: Answer, position: Option<nat>)
    requires !s.aborted && o.brokerId != "" && (position.Some? ==> position.value < |s.positions|)
    requires NormalStatus(a.status) == a.status && a.status in {Rejected, Cancelled, Failed, Expired}
    ensures var r := SettleRejected(s, mode, o, a, position);
            !r.aborted ==> Withdrawn(s, r, mode, o, a, position)
  {
    hide MarkRejected, Transition, RowMoved, IntentMoved, NormalStatus;
    var r, s1 := SettleRejected(s, mode, o, a, position), MarkRejected(s, o, a);
    if r.aborted || s1.aborted {
      return;
    }
    RejectionMarks(s, o, a);
    if mode == Live && position.Some? && s.positions[position.value].isOpen {
      TransitionWrites(Review(s1), o, ReconciliationRequired, a, None);
      RowMovedTwice(s.orders, s1.orders, r.orders, o, if a.status in {Rejected, Cancelled} then a.status else Failed,
                    ReconciliationRequired, a, a.price);
    }
  }

  lemma PartialRecords(s: State, mode: Mode, o: LocalOrder, a: Answer, position: Option<nat>)
    requires !s.aborted && o.brokerId != "" && (position.Some? ==> position.value < |s.positions|)
    ensures var r := SettlePartial(s, mode, o, a, position);
            !r.aborted ==> PartlyRecorded(s, r, mode, o, a, position)
  {
    hide RecordEvidence, Transition, RowMoved, IntentMoved, Adds, PositionFrom;
    if SettlePartial(s, mode, o, a, position).aborted {
      return;
    }
    EvidenceWrites(s, o, PartiallyFilled);
    var s1 := if o.localId != "" then RecordEvidence(s, o, PartiallyFilled) else s;
    TransitionWrites(s1, o, PartiallyFilled, a, a.price);
    PositionAdded(s, Transition(s1, o, PartiallyFilled, a.status, a.price), mode, o, a, a.filled);
  }

  lemma FilledMarks(s: State, o: LocalOrder, a: Answer)
    requires o.brokerId != "" && !s.aborted && !MarkFilled(s, o, a).aborted
    ensures var r := MarkFilled(s, o, a);
            && r == s.(orders := r.orders, intents := r.intents, summary := r.summary)
            && (if MarkedFilled(o) then r.orders == s.orders else RowMoved(s.orders, r.orders, o, Filled, a, a.price))
            && IntentMoved(s.intents, r.intents, o, Filled)
            && Counts(s, r, One(o.localId != "" && !MarkedFilled(o)), 0, 0)
  {
    hide RecordEvidence, Transition, IntentMoved;
    var s1 := if o.localId != "" then RecordEvidence(s, o, Filled) else s;
    EvidenceWrites(s, o, Filled);
    if o.localId != "" && !MarkedFilled(o) {
      TransitionWrites(Fix(s1), o, Filled, a, a.price);
    }
  }

  lemma FilledRecords(s: State, mode: Mode, index: PositionIndex, o: LocalOrder, a: Answer, position: Option<nat>)
    requires !s.aborted && o.brokerId != "" && (position.Some? ==> position.value < |s.positions|)
    requires FilledStatus(NormalStatus(a.status))
    ensures var r := SettleOther(s, mode, index, o, a, position);
            !r.aborted ==> Recorded(s, r, mode, index, o, a, position)
  {
    hide MarkFilled, FixDifferences, MarkedFilled, QuantityDiffers, PriceDiffers, BrokerPrice, RowMoved, IntentMoved,
        Adds, NormalStatus;
    var s1 := MarkFilled(s, o, a);
    if s1.aborted {
      return;
    }
    FilledMarks(s, o, a);
    match position
    case None =>
      PositionAdded(s, Fix(s1), mode, o, a, if a.quantity != 0 then a.quantity else o.quantity);
    case Some(p) => DifferencesReprice(s1, p, a, index);
  }

  lemma StandingCompares(s: State, mode: Mode, index: PositionIndex, o: LocalOrder, a: Answer, position: Option<nat>)
    requires !s.aborted && (position.Some? ==> position.value < |s.positions|)
    requires !FilledStatus(NormalStatus(a.status))
    ensures Compared(s, SettleOther(s, mode, index, o, a, position), index, a, position)
  {
    hide FixDifferences, QuantityDiffers, PriceDiffers, BrokerPrice, NormalStatus;
    if position.Some? {
      DifferencesReprice(s, position.value, a, index);
    }
  }

  /** An answer that is acted on without raising leaves exactly this in the rows, intents, positions and counters. */
  lemma SettledOutcome(s: State, mode: Mode, index: PositionIndex, o: LocalOrder, a: Answer, stop: ProtectionLookup)
    requires !s.aborted && o.brokerId != ""
    ensures var r := Settle(s, mode, index, o, a, stop);
            !r.aborted ==> Outcome(s, r, mode, index, o, a, stop)
  {
    hide Settle, SettleRejected, SettlePartial, SettleOther, FindPosition, Transition, SituationOf, Suspended,
        Withdrawn, PartlyRecorded, Recorded, Compared, NormalStatus, FilledStatus;
    BranchOf(s, mode, index, o, a, stop);
    SituationWords(s.positions, mode, o, a, stop);
    var r, position := Settle(s, mode, index, o, a, stop), FindPosition(s.positions, o.brokerId, mode);
    if r.aborted {
      return;
    }
    match SituationOf(s.positions, mode, o, a, stop)
    case Uncovered =>
      SuspendedBy(s, o, a, a.price, One(stop.ProtectionRaised?), Review(if stop.ProtectionRaised? then Error(s)
              else s));
    case NotKnown => SuspendedBy(s, o, a, None, 0, Review(s));
    case Refused => RejectedWithdraws(s, mode, o, a, position);
    case PartFilled => PartialRecords(s, mode, o, a, position);
    case FullyFilled => FilledRecords(s, mode, index, o, a, position);
    case Standing => StandingCompares(s, mode, index, o, a, position);
  }
}
