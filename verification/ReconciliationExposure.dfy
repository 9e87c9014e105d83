/** Which exposure a reconciliation run records, whether a stop covers it, and whether the next run records it again. */
module ReconciliationExposure {
  import opened Wrappers
  import opened StatusWords
  import opened SubmissionIntents
  import opened Reconciliation
  import opened ReconciliationIntents
  import opened ReconciliationPositions
  import opened ReconciliationOrders
  import opened ReconciliationFills
  import opened ReconciliationAborts
  import opened ReconciliationClosing

  /** A fill that no local position records yet. */
  predicate Unrecorded(positions: seq<Position>, mode: Mode, o: LocalOrder, a: Answer) {
    var status := NormalStatus(a.status);
    && FindPosition(positions, o.brokerId, mode).None?
    && (status == Filled || (status == PartiallyFilled && a.filled > 0))
  }

  /** The quantity it is recorded with. */
  function RecordedQuantity(o: LocalOrder, a: Answer): int {
    if NormalStatus(a.status) == PartiallyFilled then a.filled else OrderedQuantity(o, a)
  }

  lemma PartialRecords(s: State, mode: Mode, o: LocalOrder, a: Answer)
    requires !s.aborted && o.brokerId != "" && NormalStatus(a.status) == PartiallyFilled
    ensures var r := SettlePartial(s, mode, o, a, FindPosition(s.positions, o.brokerId, mode));
            if !r.aborted && Unrecorded(s.positions, mode, o, a)
            then r.positions == s.positions + [PositionFrom(a, o, mode).(quantity := a.filled, updated := s.clock + 1)]
            else |r.positions| == |s.positions|
  {
    hide RecordEvidence, Transition, FindPosition, PositionFrom;
    EvidenceKeeps(s, o, PartiallyFilled);
    var s1 := if o.localId != "" then RecordEvidence(s, o, PartiallyFilled) else s;
    TransitionMovesOwnRow(s1, o, PartiallyFilled, a.status, a.price);
  }

  lemma OtherRecords(s: State, mode: Mode, index: PositionIndex, o: LocalOrder, a: Answer)
    requires !s.aborted && o.brokerId != "" && NormalStatus(a.status) != PartiallyFilled
    ensures var r := SettleOther(s, mode, index, o, a, FindPosition(s.positions, o.brokerId, mode));
            if !r.aborted && Unrecorded(s.positions, mode, o, a)
            then r.positions == s.positions + [PositionFrom(a, o, mode).(updated := s.clock + 1)]
            else |r.positions| == |s.positions|
  {
    hide MarkFilled, FixDifferences, FindPosition, PositionFrom;
    MarkFilledMovesOwnRow(s, o, a);
    var position := FindPosition(s.positions, o.brokerId, mode);
    if position.Some? {
      DifferencesKeepHoldings(s, position.value, a, index);
      DifferencesKeepHoldings(MarkFilled(s, o, a), position.value, a, index);
    }
    StatusOfFill(a);
  }

  lemma StatusOfFill(a: Answer)
    ensures FilledStatus(NormalStatus(a.status)) <==> NormalStatus(a.status) == Filled
    ensures RejectedStatus(NormalStatus(a.status)) ==> NormalStatus(a.status) !in {Filled, PartiallyFilled}
  {
  }

  lemma QuantityOfPayload(a: Answer, o: LocalOrder, mode: Mode)
    ensures PositionFrom(a, o, mode).quantity == OrderedQuantity(o, a)
  {
  }

  /** The new position of an unrecorded fill. */
  function NewPosition(s: State, mode: Mode, o: LocalOrder, a: Answer): Position {
    PositionFrom(a, o, mode).(quantity := RecordedQuantity(o, a), updated := s.clock + 1)
  }

  /**
   An answer adds a position exactly when it reports an unrecorded fill, passes the live
   gate and does not raise; all of this can be told before it is applied.
   */
  lemma RecordsIff(s: State, mode: Mode, index: PositionIndex, o: LocalOrder, a: Answer, stop: ProtectionLookup)
    requires !s.aborted && o.brokerId != ""
    ensures var r := Settle(s, mode, index, o, a, stop);
            if && Unrecorded(s.positions, mode, o, a) && GateOpen(s.positions, mode, o, a, stop)
                && !Aborts(s, mode, o, a, stop)
            then r.positions == s.positions + [NewPosition(s, mode, o, a)]
            else |r.positions| == |s.positions|
  {
    hide SettleRejected, SettlePartial, SettleOther, GateOpen, FindPosition, Transition, Aborts, NormalStatus,
        SubmittedStatus, FilledStatus, RejectedStatus, PositionFrom, OrderedQuantity;
    SettleAbortsIff(s, mode, index, o, a, stop);
    SuspensionMovesOwnRow(s, o, a, stop);
    StatusOfFill(a);
    QuantityOfPayload(a, o, mode);
    var status := NormalStatus(a.status);
    var position := FindPosition(s.positions, o.brokerId, mode);
    if GateOpen(s.positions, mode, o, a, stop) && status != NotFound {
      if SubmittedStatus(o.status) && RejectedStatus(status) {
        RejectedAdds(s, mode, o, a, position);
      } else if status == PartiallyFilled {
        PartialRecords(s, mode, o, a);
      } else {
        OtherRecords(s, mode, index, o, a);
      }
    }
  }

  // ----- how much of it a stop covers

  /** A stop that covers exactly this quantity of the order. */
  function JustEnough(brokerId: string, quantity: int): ProtectionLookup {
    Protected(Protection(brokerId, true, true, true, true, Open, quantity))
  }

  /**
   The gate guarantees a stop for the whole of a newly recorded live position exactly when
   the broker reports a positive fill of at least the quantity to be recorded. A filled answer
   with fill count zero, or below the order quantity, records more than any stop was asked to
   cover; a partial fill never does.
   */
  lemma NewExposureIsCoveredIff(positions: seq<Position>, o: LocalOrder, a: Answer)
    requires Unrecorded(positions, Live, o, a) && Strip(a.brokerId) == o.brokerId
    ensures (forall stop :: GateOpen(positions, Live, o, a, stop) ==>
             StopCovers(stop, o.brokerId, RecordedQuantity(o, a)))
            <==> 0 < a.filled && RecordedQuantity(o, a) <= a.filled
  {
    hide Strip, FindPosition, NormalStatus, OrderedQuantity;
    var least := if a.filled <= 0 then NoProtection else JustEnough(a.brokerId, a.filled);
    assert GateOpen(positions, Live, o, a, least);
    assert StopCovers(least, o.brokerId, RecordedQuantity(o, a))
        <==> 0 < a.filled && RecordedQuantity(o, a) <= a.filled;
  }

  function Quiet(): Others { Others(_ => [], _ => []) }

  lemma NameIsStripped()
    ensures Strip("B1") == "B1" && Strip("B1 ") == "B1"
  {
    assert StripRight("B1") == "B1" && StripLeft("B1") == "B1";
    assert "B1 "[..2] == "B1";
    assert StripRight("B1 ") == StripRight("B1");
  }

  function EmptyStores(): State { State(map[], map[], [], 0, Summary(0, 0, 0, 0, 0, 0), false) }

  function UnfilledEntry(): LocalOrder { LocalOrder("", "B1", Open, "NIFTY", "BUY", 10, 100.0) }

  /** Filled, with a fill count of zero. */
  function UncountedFill(): Answer { Answer("B1", Filled, true, "NIFTY", "BUY", 10, 0, None) }

  function UncountedFillBroker(): Broker {
    Broker(_ => Answered(UncountedFill()), _ => NoProtection, None, _ => Raised)
  }

  /** With no stop at all, that answer records a live position of the whole order quantity. */
  lemma UncountedFillIsUncovered()
    ensures var r := ReconcileRun(EmptyStores(), Live, [UnfilledEntry()], UncountedFillBroker(), Quiet());
            !r.aborted && |r.positions| == 1 && r.positions[0].isOpen && r.positions[0].mode == Live
                && r.positions[0].quantity == 10
    ensures !StopCovers(NoProtection, "B1", 10)
  {
    var s := Start(EmptyStores(), UncountedFillBroker());
    var o, a, index := UnfilledEntry(), UncountedFill(), IndexFor(UncountedFillBroker());
    NameIsStripped();
    OneEntryRun(EmptyStores(), Live, o, UncountedFillBroker());
    QuietTurn(s, Live, index, o, Answered(a), NoProtection);
    RecordsIff(Counted(s), Live, index, o, a, NoProtection);
    SettleAbortsIff(Counted(s), Live, index, o, a, NoProtection);
    hide ReconcileRun, OrderStep, Settle, Accepted;
  }

  // ----- runs over one entry

  lemma OneEntryRun(s: State, mode: Mode, o: LocalOrder, broker: Broker)
    requires !s.aborted
    ensures var r := OrderStep(Start(s, broker), mode, IndexFor(broker), o, broker.order(0), broker.protection(0), [],
                               []);
            ReconcileRun(s, mode, [o], broker, Quiet()) == if r.aborted then r
                else PositionPass(r, mode, IndexFor(broker), broker)
  {
    var s1 := Start(s, broker);
    assert OrderLoop(s1, mode, IndexFor(broker), [o], broker, Quiet(), 0) == s1;
    hide OrderStep, PositionPass, IndexFor;
  }

  lemma QuietTurn(s: State, mode: Mode, index: PositionIndex, o: LocalOrder, look: Lookup, stop: ProtectionLookup)
    requires o.brokerId != "" && look.Answered?
    ensures OrderStep(s, mode, index, o, look, stop, [], [])
            == if Accepted(s.intents, o, look.answer) then Settle(Counted(s), mode, index, o, look.answer, stop)
               else Review(Error(Counted(s)))
  {
    var none: seq<Call> := [];
    assert Run(s.intents, none) == s.intents;
    hide Settle, Accepted, Run;
  }

  // ----- witness: a grown fill

  /** A live order with its intent and row, and the position of 3 that an earlier run recorded. */
  function GrownFillState(): State {
    State(map["L1" := Row("KEY", "QG-1", Some("B1"), PartiallyFilled)],
          map["L1" := OrderRow(PartiallyFilled, Some("B1"), PartiallyFilled, None)],
          [Position("B1", Live, "NIFTY", "BUY", 3, 100.0, true, 0)], 0, Summary(0, 0, 0, 0, 0, 0), false)
  }

  function GrownFillEntry(): LocalOrder { LocalOrder("L1", "B1", PartiallyFilled, "NIFTY", "BUY", 3, 100.0) }

  function GrownFillAnswer(): Answer { Answer("B1", PartiallyFilled, true, "NIFTY", "BUY", 10, 5, None) }

  /** By now 5 of 10 are filled, and an active stop covers 5. */
  function GrownFillBroker(): Broker {
    Broker(_ => Answered(GrownFillAnswer()), _ => JustEnough("B1", 5), None, _ => Raised)
  }

  lemma GrownFillDiffers()
    ensures FillDiffers(GrownFillState().positions, Live, GrownFillEntry(), GrownFillAnswer())
    ensures AtStake(GrownFillState().positions, Live, GrownFillEntry(), GrownFillAnswer()) == 5
  {
    assert GrownFillState().positions[..0] == [];
    assert FindPosition(GrownFillState().positions, "B1", Live) == Some(0);
  }

  /** A live partial fill that has grown since it was recorded ends the run, although a stop covers all of it. */
  lemma GrownFillAborts()
    ensures ReconcileRun(GrownFillState(), Live, [GrownFillEntry()], GrownFillBroker(), Quiet()).aborted
  {
    var s, o, a, stop := GrownFillState(), GrownFillEntry(), GrownFillAnswer(), JustEnough("B1", 5);
    var start, index := Start(s, GrownFillBroker()), IndexFor(GrownFillBroker());
    NameIsStripped();
    GrownFillDiffers();
    OneEntryRun(s, Live, o, GrownFillBroker());
    QuietTurn(start, Live, index, o, Answered(a), stop);
    assert Accepted(start.intents, o, a);
    hide ReconcileRun, OrderStep, Settle, AtStake, FillDiffers, Strip;
    SettleAbortsIff(Counted(start), Live, index, o, a, stop);
  }
}
