/**
 `reconcile_broker_state`: an order loop and a position pass that apply the broker's
 answers to the intents, the order rows and the positions. The broker and the other
 workers on the intent table are arbitrary.
 */
module Reconciliation {
  import opened Wrappers
  import opened StatusWords
  import opened SubmissionIntents

  datatype Mode = Paper | Live

  /** One entry of `_local_orders`; localId "" when the entry has no order row. */
  datatype LocalOrder = LocalOrder(localId: string, brokerId: string, status: Word, symbol: string, side: string,
                                   quantity: int, price: real)

  datatype Answer = Answer(brokerId: string, status: Word, confirmed: bool, symbol: string, side: string,
                           quantity: int, filled: int, price: Option<real>)

  datatype Lookup = Raised | Answered(answer: Answer)

  /** What `get_super_order_status` says about the stop leg. */
  datatype Protection = Protection(brokerId: string, confirmed: bool, isProtected: bool, stopPresent: bool,
                                   stopActive: bool, stopStatus: Word, stopRemaining: int)

  datatype ProtectionLookup = NoProtection | ProtectionRaised | Protected(protection: Protection)

  datatype RawPosition = RawPosition(symbol: string, side: string, quantity: int, price: real)

  datatype BrokerPosition = BrokerPosition(symbol: string, side: string, quantity: nat, price: real)

  /** Keyed by `_position_key`. */
  type PositionIndex = map<string, BrokerPosition>

  datatype OrderRow = OrderRow(status: Word, brokerId: Option<string>, brokerStatus: Word, entryPrice: Option<real>)

  /** A row of the position store; its id is its index there. */
  datatype Position = Position(brokerId: string, mode: Mode, symbol: string, side: string, quantity: int,
                               entryPrice: real, isOpen: bool, updated: int)

  datatype Summary = Summary(checkedOrders: nat, checkedPositions: nat, mismatches: nat, fixed: nat,
                             needsReview: nat, errors: nat)

  /** aborted: an exception left the run, with everything written so far in place. */
  datatype State = State(intents: Table, orders: map<string, OrderRow>, positions: seq<Position>, clock: int,
                         summary: Summary, aborted: bool)

  /** The broker's answers by loop index, and by position id in the second pass. */
  datatype Broker = Broker(order: nat -> Lookup, protection: nat -> ProtectionLookup,
                           positions: Option<seq<RawPosition>>, position: nat -> Lookup)

  /** Intent calls other workers commit before the i-th order is read, and between that read and its write. */
  datatype Others = Others(before: nat -> seq<Call>, during: nat -> seq<Call>)

  // ----- vocabulary of the module

  predicate SubmittedStatus(w: Word) {
    w in {PaperOrderSubmitted, LiveOrderSubmitted, Submitted, BrokerSubmitted, Pending, Confirmed, Open, Filled}
  }

  predicate RejectedStatus(w: Word) { w in {Rejected, Failed, Cancelled, Expired, NotFound} }

  predicate FilledStatus(w: Word) { w in {Filled, Traded, Complete, Completed} }

  predicate OpenStatus(w: Word) { w in {Open, Pending, Transit, Confirmed} }

  /** `broker_status_to_order_status` on the rejecting statuses it is called with. */
  function RejectedOrderStatus(w: Word): Word {
    if w == Cancelled then Cancelled else if w == Failed || w == Expired then Failed else Rejected
  }

  function Observed(w: Word): Word {
    if FilledStatus(w) then Filled else if OpenStatus(w) then Open else w
  }

  /** The `allowed_transitions` table. */
  function AllowedTransitions(durable: Word): Option<set<Word>> {
    match durable
    case Submitted => Some({Submitted, Open, PartiallyFilled, Filled, Cancelled, Rejected})
    case Open => Some({Open, PartiallyFilled, Filled, Cancelled, Rejected})
    case PartiallyFilled => Some({PartiallyFilled, Filled, Cancelled})
    case Filled => Some({Filled})
    case Cancelled => Some({Cancelled})
    case Rejected => Some({Rejected})
    case _ => None
  }

  predicate IdentityConflict(row: Row, brokerId: string) {
    row.brokerId.Some? && row.brokerId.value != brokerId
  }

  predicate Regresses(durable: Word, observed: Word) {
    AllowedTransitions(durable).Some? && IsEvidence(observed) && observed !in AllowedTransitions(durable).value
  }

  function PositionKey(symbol: string, side: string): string { Upper(symbol) + ":" + Upper(side) }

  function NormalizePosition(raw: RawPosition): BrokerPosition {
    BrokerPosition(Upper(raw.symbol),
                   if raw.side != "" then Upper(raw.side) else if raw.quantity >= 0 then "BUY" else "SELL",
                   if raw.quantity >= 0 then raw.quantity else -raw.quantity, raw.price)
  }

  /** Later entries of the same symbol and side win; nameless ones are skipped. */
  function IndexOf(raws: seq<RawPosition>): PositionIndex {
    if raws == [] then map[]
    else
      var index, p := IndexOf(raws[..|raws| - 1]), NormalizePosition(raws[|raws| - 1]);
      if p.symbol == "" then index else index[PositionKey(p.symbol, p.side) := p]
  }

  /** A live holding backs the position. */
  predicate BackedByBroker(position: Position, index: PositionIndex) {
    var key := PositionKey(position.symbol, position.side);
    key in index && index[key].quantity > 0
  }

  // ----- the stores

  /** The most recently updated position of a broker order, the highest id on ties. */
  function FindPosition(positions: seq<Position>, brokerId: string, mode: Mode): (r: Option<nat>)
    ensures r.Some? ==>
            r.value < |positions| && positions[r.value].brokerId == brokerId && positions[r.value].mode == mode
    ensures r.None? ==> forall p :: 0 <= p < |positions| ==>
            !(positions[p].brokerId == brokerId && positions[p].mode == mode)
  {
    if positions == [] then None
    else
      var front, last := positions[..|positions| - 1], positions[|positions| - 1];
      var best := FindPosition(front, brokerId, mode);
      if last.brokerId == brokerId && last.mode == mode && (best.None? || front[best.value].updated <= last.updated)
      then Some(|front|) else best
  }

  /** Ids of the open positions of a mode, newest first. */
  function OpenIds(positions: seq<Position>, mode: Mode): (ids: seq<nat>)
    ensures forall k :: 0 <= k < |ids| ==>
            ids[k] < |positions| && positions[ids[k]].isOpen && positions[ids[k]].mode == mode
    ensures forall j, k :: 0 <= j < k < |ids| ==> ids[k] < ids[j]
  {
    if positions == [] then []
    else
      var front, last := positions[..|positions| - 1], positions[|positions| - 1];
      (if last.isOpen && last.mode == mode then [|front|] else []) + OpenIds(front, mode)
  }

  const LISTING_LIMIT := 100

  function ListOpen(positions: seq<Position>, mode: Mode): (ids: seq<nat>)
    ensures forall k :: 0 <= k < |ids| ==>
            ids[k] < |positions| && positions[ids[k]].isOpen && positions[ids[k]].mode == mode
  {
    var ids := OpenIds(positions, mode);
    if |ids| <= LISTING_LIMIT then ids else ids[..LISTING_LIMIT]
  }

  function Error(s: State): State { s.(summary := s.summary.(errors := s.summary.errors + 1)) }

  function Review(s: State): State {
    s.(summary := s.summary.(mismatches := s.summary.mismatches + 1, needsReview := s.summary.needsReview + 1))
  }

  function Fix(s: State): State {
    s.(summary := s.summary.(mismatches := s.summary.mismatches + 1, fixed := s.summary.fixed + 1))
  }

  function Abort(s: State): State { s.(aborted := true) }

  /** `transition_order`: a price is only overwritten by a price. */
  function Transitioned(row: OrderRow, o: LocalOrder, status: Word, brokerStatus: Word,
                        entryPrice: Option<real>): OrderRow {
    OrderRow(status, Some(o.brokerId), brokerStatus, if entryPrice.Some? then entryPrice else row.entryPrice)
  }

  /** `_transition_local_order_if_present`; an unknown order row raises. */
  function Transition(s: State, o: LocalOrder, status: Word, brokerStatus: Word, entryPrice: Option<real>): State {
    if o.localId == "" then s
    else if o.localId !in s.orders then Abort(s)
    else s.(orders := s.orders[o.localId := Transitioned(s.orders[o.localId], o, status, brokerStatus, entryPrice)])
  }

  function CreatePosition(s: State, position: Position): State {
    s.(positions := s.positions + [position.(updated := s.clock + 1)], clock := s.clock + 1)
  }

  function ClosePosition(s: State, p: nat): State
    requires p < |s.positions|
  {
    if !s.positions[p].isOpen then s
    else s.(positions := s.positions[p := s.positions[p].(isOpen := false, updated := s.clock + 1)],
            clock := s.clock + 1)
  }

  function UpdateEntryPrice(s: State, p: nat, price: real): State
    requires p < |s.positions|
  {
    if !s.positions[p].isOpen then s
    else s.(positions := s.positions[p := s.positions[p].(entryPrice := price, updated := s.clock + 1)],
            clock := s.clock + 1)
  }

  /** `_position_payload_from_order` as stored by `create_open_position`. */
  function PositionFrom(a: Answer, o: LocalOrder, mode: Mode): Position {
    Position(a.brokerId, mode, Upper(if a.symbol != "" then a.symbol else o.symbol),
             Upper(if a.side != "" then a.side else o.side), if a.quantity != 0 then a.quantity else o.quantity,
             if a.price.Some? && a.price.value != 0.0 then a.price.value else o.price, true, 0)
  }

  /** `record_broker_evidence` from the loop: only a missing legacy intent may refuse it. */
  function RecordEvidence(s: State, o: LocalOrder, status: Word): State {
    var (table, error) := Apply(s.intents, Evidence(o.localId, o.brokerId, status));
    if error.None? then s.(intents := table)
    else if error == Some(NotAwaitingReconciliation) && o.localId !in s.intents then s
    else Abort(s)
  }

  function Abs(x: real): real { if x >= 0.0 then x else -x }

  /** The quantity and price the broker expects of a position; 0 when it does not say. */
  function ExpectedQuantity(position: Position, a: Answer, index: PositionIndex): int {
    if BackedByBroker(position, index) then index[PositionKey(position.symbol, position.side)].quantity else a.quantity
  }

  function ExpectedPrice(position: Position, a: Answer, index: PositionIndex): real {
    var key := PositionKey(position.symbol, position.side);
    if key in index && index[key].price != 0.0 then index[key].price
    else if a.price.Some? && a.price.value != 0.0 then a.price.value
    else position.entryPrice
  }

  /** `_fix_position_differences`: a differing quantity goes to review, a differing price alone is fixed. */
  function FixDifferences(s: State, p: nat, a: Answer, index: PositionIndex): State
    requires p < |s.positions|
  {
    var position := s.positions[p];
    var quantity, price := ExpectedQuantity(position, a, index), ExpectedPrice(position, a, index);
    var quantityChanged := quantity != 0 && position.quantity != quantity;
    var priceChanged := price != 0.0 && Abs(position.entryPrice - price) > 0.01;
    if quantityChanged then Review(s)
    else if priceChanged then UpdateEntryPrice(Fix(s), p, price)
    else s
  }

  // ----- one order

  /** The quantity of a position while it is open. */
  function Exposure(positions: seq<Position>, position: Option<nat>): int
    requires position.Some? ==> position.value < |positions|
  {
    if position.Some? && positions[position.value].isOpen then positions[position.value].quantity else 0
  }

  function Max(x: int, y: int): int { if x >= y then x else y }

  /** An authoritative, active stop of this very order covers the required quantity. */
  predicate StopCovers(look: ProtectionLookup, brokerId: string, required: int) {
    && look.Protected?
    && Strip(look.protection.brokerId) == brokerId
    && look.protection.confirmed
    && look.protection.isProtected && look.protection.stopPresent && look.protection.stopActive
    && look.protection.stopStatus in {Open, PartiallyFilled}
    && look.protection.stopRemaining >= required
  }

  /** The answer is about this order, and neither regresses the durable row nor is an unconfirmed terminal one. */
  predicate Accepted(t: Table, o: LocalOrder, a: Answer) {
    && Strip(a.brokerId) == o.brokerId
    && (o.localId != "" && o.localId in t ==>
          && !IdentityConflict(t[o.localId], o.brokerId)
          && !Regresses(t[o.localId].status, Observed(NormalStatus(a.status))))
    && (NormalStatus(a.status) in {Rejected, Cancelled, Failed, Expired, Filled} ==> a.confirmed)
  }

  /** What a stop has to cover: the reported fill or the open local position, whichever is larger. */
  function AtStake(positions: seq<Position>, mode: Mode, o: LocalOrder, a: Answer): int {
    Max(a.filled, Exposure(positions, FindPosition(positions, o.brokerId, mode)))
  }

  /** The live gate lets the answer pass. */
  predicate GateOpen(positions: seq<Position>, mode: Mode, o: LocalOrder, a: Answer, look: ProtectionLookup) {
    var atStake := AtStake(positions, mode, o, a);
    mode == Live && atStake > 0 ==> StopCovers(look, o.brokerId, atStake)
  }

  /** The intent and the order row of a rejected order. */
  function MarkRejected(s: State, o: LocalOrder, a: Answer): State {
    var status := NormalStatus(a.status);
    var s1 := if status in {Rejected, Cancelled} && o.localId != "" then RecordEvidence(s, o, status) else s;
    if s1.aborted then s1 else Transition(Fix(s1), o, RejectedOrderStatus(a.status), a.status, a.price)
  }

  /** A rejecting answer to an order that was submitted. */
  function SettleRejected(s: State, mode: Mode, o: LocalOrder, a: Answer, position: Option<nat>): State
    requires position.Some? ==> position.value < |s.positions|
  {
    var s1 := MarkRejected(s, o, a);
    if s1.aborted || position.None? || !s.positions[position.value].isOpen then s1
    else if mode == Live then Transition(Review(s1), o, ReconciliationRequired, a.status, None)
    else ClosePosition(s1, position.value)
  }

  /** A partial fill; a position with another quantity makes the update call raise. */
  function SettlePartial(s: State, mode: Mode, o: LocalOrder, a: Answer, position: Option<nat>): State
    requires position.Some? ==> position.value < |s.positions|
  {
    var s1 := if o.localId != "" then RecordEvidence(s, o, PartiallyFilled) else s;
    if s1.aborted then s1
    else
      var s2 := Transition(s1, o, PartiallyFilled, a.status, a.price);
      if s2.aborted || a.filled <= 0 then s2
      else if position.None? then CreatePosition(s2, PositionFrom(a, o, mode).(quantity := a.filled))
      else if s.positions[position.value].quantity != a.filled then Abort(s2)
      else s2
  }

  /** The intent and the order row of a filled order. */
  function MarkFilled(s: State, o: LocalOrder, a: Answer): State {
    var s1 := if o.localId != "" then RecordEvidence(s, o, Filled) else s;
    if s1.aborted || o.localId == "" || NormalStatus(o.status) == Filled then s1
    else Transition(Fix(s1), o, Filled, a.status, a.price)
  }

  /** Filled, open and all other answers. */
  function SettleOther(s: State, mode: Mode, index: PositionIndex, o: LocalOrder, a: Answer,
                       position: Option<nat>): State
    requires position.Some? ==> position.value < |s.positions|
  {
    var filled := FilledStatus(NormalStatus(a.status));
    var s1 := if filled then MarkFilled(s, o, a) else s;
    if s1.aborted then s1
    else if filled && position.None? then CreatePosition(Fix(s1), PositionFrom(a, o, mode))
    else if position.Some? then FixDifferences(s1, position.value, a, index)
    else s1
  }

  function Settle(s: State, mode: Mode, index: PositionIndex, o: LocalOrder, a: Answer, look: ProtectionLookup): State {
    var position := FindPosition(s.positions, o.brokerId, mode);
    var status := NormalStatus(a.status);
    if !GateOpen(s.positions, mode, o, a, look) then
      Transition(Review(if look.ProtectionRaised? then Error(s) else s), o, ReconciliationRequired, a.status, a.price)
    else if status == NotFound then Transition(Review(s), o, ReconciliationRequired, a.status, None)
    else if SubmittedStatus(o.status) && RejectedStatus(status) then SettleRejected(s, mode, o, a, position)
    else if status == PartiallyFilled then SettlePartial(s, mode, o, a, position)
    else SettleOther(s, mode, index, o, a, position)
  }

  function Commit(s: State, calls: seq<Call>): State { s.(intents := Run(s.intents, calls)) }

  function Counted(s: State): State { s.(summary := s.summary.(checkedOrders := s.summary.checkedOrders + 1)) }

  /** One turn of the order loop. `before` commits before the durable row is read, `during` after. */
  function OrderStep(s: State, mode: Mode, index: PositionIndex, o: LocalOrder, look: Lookup, stop: ProtectionLookup,
                     before: seq<Call>, during: seq<Call>): State {
    var read := Commit(s, before);
    if o.brokerId == "" then read
    else if look.Raised? then Error(Counted(read))
    else if !Accepted(read.intents, o, look.answer) then Review(Error(Counted(read)))
    else Settle(Commit(Counted(read), during), mode, index, o, look.answer, stop)
  }

  /** The turn gets an answer it may act on. */
  predicate Heard(s: State, o: LocalOrder, look: Lookup, before: seq<Call>) {
    o.brokerId != "" && look.Answered? && Accepted(Run(s.intents, before), o, look.answer)
  }

  /** The state an accepted answer is applied to. */
  function Seen(s: State, before: seq<Call>, during: seq<Call>): (r: State)
    ensures r == s.(intents := Run(Run(s.intents, before), during), summary := r.summary)
    ensures r.summary == s.summary.(checkedOrders := s.summary.checkedOrders + 1)
  {
    Commit(Counted(Commit(s, before)), during)
  }

  lemma HeardTurn(s: State, mode: Mode, index: PositionIndex, o: LocalOrder, look: Lookup, stop: ProtectionLookup,
                  before: seq<Call>, during: seq<Call>)
    requires Heard(s, o, look, before)
    ensures OrderStep(s, mode, index, o, look, stop, before, during)
            == Settle(Seen(s, before, during), mode, index, o, look.answer, stop)
  {
    hide Settle, Accepted, Run;
  }

  /**
   A lookup that raises, answers for another order, contradicts the durable row or is terminal
   without confirmation changes no intent, order or position.
   */
  lemma UnheardTurn(s: State, mode: Mode, index: PositionIndex, o: LocalOrder, look: Lookup, stop: ProtectionLookup,
                    before: seq<Call>, during: seq<Call>)
    requires !Heard(s, o, look, before)
    ensures var r := OrderStep(s, mode, index, o, look, stop, before, during);
            r == s.(intents := Run(s.intents, before), summary := r.summary)
            && r.summary.mismatches - r.summary.fixed - r.summary.needsReview
               == s.summary.mismatches - s.summary.fixed - s.summary.needsReview
  {
    hide Settle, Accepted, Run;
  }

  function OrderLoop(s: State, mode: Mode, index: PositionIndex, orders: seq<LocalOrder>, broker: Broker,
                     others: Others, n: nat): State
    requires n <= |orders|
  {
    if n == 0 then s
    else
      var s1 := OrderLoop(s, mode, index, orders, broker, others, n - 1);
      if s1.aborted then s1
      else OrderStep(s1, mode, index, orders[n - 1], broker.order(n - 1), broker.protection(n - 1),
                     others.before(n - 1), others.during(n - 1))
  }

  // ----- the position pass

  /** The second lookup keeps the position open. */
  predicate LookupKeepsOpen(position: Position, look: Lookup) {
    && position.brokerId != ""
    && look.Answered?
    && var status := NormalStatus(look.answer.status);
       OpenStatus(status) || FilledStatus(status) || status == NotFound
  }

  function PositionStep(s: State, index: PositionIndex, p: nat, look: Lookup): State
    requires p < |s.positions|
  {
    if BackedByBroker(s.positions[p], index) || LookupKeepsOpen(s.positions[p], look) then s
    else ClosePosition(Fix(s), p)
  }

  function PositionLoop(s: State, index: PositionIndex, ids: seq<nat>, broker: Broker): (r: State)
    requires forall k :: 0 <= k < |ids| ==> ids[k] < |s.positions|
    ensures |r.positions| == |s.positions|
  {
    if ids == [] then s
    else
      var p := ids[|ids| - 1];
      PositionStep(PositionLoop(s, index, ids[..|ids| - 1], broker), index, p, broker.position(p))
  }

  /** The keys of open local positions. */
  function LocalKeys(positions: seq<Position>, ids: seq<nat>): set<string>
    requires forall k :: 0 <= k < |ids| ==> ids[k] < |positions|
  {
    set k | 0 <= k < |ids| :: PositionKey(positions[ids[k]].symbol, positions[ids[k]].side)
  }

  /** The broker holdings with no open local position. */
  function Unmatched(index: PositionIndex, localKeys: set<string>): set<string> {
    set key | key in index && index[key].quantity > 0 && key !in localKeys
  }

  function Reviews(s: State, count: nat): State {
    s.(summary := s.summary.(mismatches := s.summary.mismatches + count, needsReview := s.summary.needsReview + count))
  }

  function PositionPass(s: State, mode: Mode, index: PositionIndex, broker: Broker): State {
    var ids := ListOpen(s.positions, mode);
    var raws := if broker.positions.Some? then |broker.positions.value| else 0;
    var s1 := s.(summary := s.summary.(checkedPositions := |ids| + raws));
    if broker.positions.None? then s1
    else
      PositionLoop(Reviews(s1, |Unmatched(index, LocalKeys(s.positions, ids))|), index, ids, broker)
  }

  function IndexFor(broker: Broker): PositionIndex {
    if broker.positions.Some? then IndexOf(broker.positions.value) else map[]
  }

  /** The run's state once the holdings have been asked for. */
  function Start(s: State, broker: Broker): State { if broker.positions.None? then Error(s) else s }

  function ReconcileRun(s: State, mode: Mode, orders: seq<LocalOrder>, broker: Broker, others: Others): State {
    var s1 := OrderLoop(Start(s, broker), mode, IndexFor(broker), orders, broker, others, |orders|);
    if s1.aborted then s1 else PositionPass(s1, mode, IndexFor(broker), broker)
  }
}
