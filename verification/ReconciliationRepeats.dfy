/** When a fill that one reconciliation run records is recorded again by the next. */
module ReconciliationRepeats {
  import opened Wrappers
  import opened StatusWords
  import opened SubmissionIntents
  import opened Reconciliation
  import opened ReconciliationIntents
  import opened ReconciliationPositions
  import opened ReconciliationOrders
  import opened ReconciliationFills
  import opened ReconciliationAborts
  import opened ReconciliationClosing
  import opened ReconciliationExposure

  lemma FindsAlike(xs: seq<Position>, ys: seq<Position>, brokerId: string, mode: Mode)
    requires |xs| == |ys| && forall p :: 0 <= p < |xs| ==> xs[p].brokerId == ys[p].brokerId && xs[p].mode == ys[p].mode
    ensures FindPosition(xs, brokerId, mode).None? <==> FindPosition(ys, brokerId, mode).None?
  {
  }

  lemma FindsNewIff(positions: seq<Position>, q: Position, brokerId: string, mode: Mode)
    requires FindPosition(positions, brokerId, mode).None? && q.mode == mode
    ensures FindPosition(positions + [q], brokerId, mode).None? <==> q.brokerId != brokerId
  {
    assert (positions + [q])[..|positions|] == positions;
  }

  /** Evidence that was accepted once is accepted again. */
  lemma EvidenceHoldsAgain(t: Table, o: LocalOrder, status: Word)
    requires o.brokerId != "" && IsEvidence(status) && !EvidenceRefused(t, o, status)
    ensures var r := Run(t, [Evidence(o.localId, o.brokerId, status)]);
            && !EvidenceRefused(r, o, status)
            && (o.localId in r ==> r[o.localId].brokerId == Some(o.brokerId) && r[o.localId].status == status)
  {
    RunOne(t, Evidence(o.localId, o.brokerId, status));
    hide Run;
  }

  /** What the first run leaves for the second: the same fill, accepted and refused by nobody. */
  ghost predicate Repeatable(s: State, r: State, mode: Mode, o: LocalOrder, a: Answer) {
    && !r.aborted && r.orders.Keys == s.orders.Keys
    && (o.localId in r.intents ==> r.intents[o.localId].brokerId == Some(o.brokerId)
                                   && r.intents[o.localId].status == NormalStatus(a.status))
    && (o.localId != "" ==> !EvidenceRefused(r.intents, o, NormalStatus(a.status)))
    && |r.positions| == |s.positions| + 1
    && (FindPosition(r.positions, o.brokerId, mode).None? <==> a.brokerId != o.brokerId)
  }

  lemma FirstTurnIsRepeatable(s: State, mode: Mode, index: PositionIndex, o: LocalOrder, a: Answer,
                              stop: ProtectionLookup)
    requires !s.aborted && o.brokerId != "" && !RowMissing(s, o) && Accepted(s.intents, o, a)
    requires o.localId == "" ==> "" !in s.intents
    ensures var r := Settle(s, mode, index, o, a, stop);
            |r.positions| > |s.positions| ==> Repeatable(s, r, mode, o, a)
  {
    var r := Settle(s, mode, index, o, a, stop);
    if |r.positions| <= |s.positions| {
      return;
    }
    var status := NormalStatus(a.status);
    RecordsIff(s, mode, index, o, a, stop);
    SettleAbortsIff(s, mode, index, o, a, stop);
    SettleIntents(s, mode, index, o, a, stop);
    SettleOrders(s, s.intents, mode, index, o, a, stop);
    StatusOfFill(a);
    hide Settle, GateOpen, Accepted, EvidenceRefused, Run, FindPosition;
    FindsNewIff(s.positions, NewPosition(s, mode, o, a), o.brokerId, mode);
    if o.localId != "" {
      assert EvidenceDue(o, a) == Some(status);
      assert EvidenceOf(s.positions, mode, o, a, stop) == [Evidence(o.localId, o.brokerId, status)];
      EvidenceHoldsAgain(s.intents, o, status);
    } else {
      RunNone(s.intents);
    }
  }

  lemma PassKeepsRepeatable(s: State, r: State, mode: Mode, index: PositionIndex, broker: Broker, o: LocalOrder,
                            a: Answer)
    requires Repeatable(s, r, mode, o, a)
    ensures Repeatable(s, PositionPass(r, mode, index, broker), mode, o, a)
  {
    var r1 := PositionPass(r, mode, index, broker);
    PassKeepsIntents(r, mode, index, broker);
    PassKeepsCount(r, mode, index, broker);
    forall p: nat | p < |r.positions|
      ensures p < |r1.positions| && r1.positions[p].brokerId == r.positions[p].brokerId
              && r1.positions[p].mode == r.positions[p].mode {
      PassClosesExactly(r, mode, index, broker, p);
    }
    hide PositionPass, FindPosition, EvidenceRefused;
    FindsAlike(r.positions, r1.positions, o.brokerId, mode);
  }

  /** A repeated answer adds a second position exactly when its broker id is padded. */
  lemma RepeatedTurnRecordsIff(s: State, r: State, mode: Mode, index: PositionIndex, o: LocalOrder, o': LocalOrder,
                               a: Answer, stop: ProtectionLookup)
    requires Repeatable(s, r, mode, o, a) && o.brokerId != "" && !RowMissing(s, o)
    requires o'.localId == o.localId && o'.brokerId == o.brokerId
    requires Unrecorded(s.positions, mode, o, a) && GateOpen(s.positions, mode, o, a, stop)
    ensures |Settle(r, mode, index, o', a, stop).positions| > |r.positions| <==> a.brokerId != o.brokerId
  {
    RecordsIff(r, mode, index, o', a, stop);
    StatusOfFill(a);
    hide Settle, EvidenceRefused, StopCovers, FindPosition;
    if FindPosition(r.positions, o.brokerId, mode).None? {
      assert AtStake(r.positions, mode, o', a) == AtStake(s.positions, mode, o, a);
    }
  }

  lemma AcceptedAgain(s: State, r: State, mode: Mode, o: LocalOrder, o': LocalOrder, a: Answer)
    requires Repeatable(s, r, mode, o, a) && Accepted(s.intents, o, a)
    requires NormalStatus(a.status) in {Filled, PartiallyFilled}
    requires o'.localId == o.localId && o'.brokerId == o.brokerId
    ensures Accepted(r.intents, o', a)
  {
    hide EvidenceRefused, FindPosition, Strip;
  }

  lemma CountedIsRepeatable(s: State, r: State, mode: Mode, o: LocalOrder, a: Answer, broker: Broker)
    requires Repeatable(s, r, mode, o, a)
    ensures Repeatable(s, Counted(Start(r, broker)), mode, o, a)
  {
    hide FindPosition, EvidenceRefused;
  }

  /** One entry's run that adds a position: its one turn was accepted and settled. */
  lemma AddingRun(s: State, mode: Mode, o: LocalOrder, broker: Broker)
    requires !s.aborted && broker.order(0).Answered? && !ReconcileRun(s, mode, [o], broker, Quiet()).aborted
    requires |ReconcileRun(s, mode, [o], broker, Quiet()).positions| > |s.positions|
    ensures o.brokerId != "" && Accepted(s.intents, o, broker.order(0).answer)
    ensures var start, a, index := Start(s, broker), broker.order(0).answer, IndexFor(broker);
            var t := Settle(Counted(start), mode, index, o, a, broker.protection(0));
            && ReconcileRun(s, mode, [o], broker, Quiet()) == PositionPass(t, mode, index, broker)
            && |t.positions| > |s.positions| && !t.aborted
  {
    hide ReconcileRun, PositionPass, Settle, Accepted, IndexFor;
    var start, index := Start(s, broker), IndexFor(broker);
    OneEntryRun(s, mode, o, broker);
    PassKeepsCount(OrderStep(start, mode, index, o, broker.order(0), broker.protection(0), [], []), mode, index,
                   broker);
    if o.brokerId != "" {
      QuietTurn(start, mode, index, o, broker.order(0), broker.protection(0));
    }
  }

  lemma TurnOfRun(s: State, mode: Mode, o: LocalOrder, broker: Broker)
    requires !s.aborted && broker.order(0).Answered? && o.brokerId != ""
            && Accepted(s.intents, o, broker.order(0).answer)
    ensures |ReconcileRun(s, mode, [o], broker, Quiet()).positions|
            == |Settle(Counted(Start(s, broker)), mode, IndexFor(broker), o, broker.order(0).answer,
                       broker.protection(0)).positions|
  {
    hide ReconcileRun, PositionPass, Settle, Accepted, IndexFor;
    var start, index := Start(s, broker), IndexFor(broker);
    OneEntryRun(s, mode, o, broker);
    PassKeepsCount(OrderStep(start, mode, index, o, broker.order(0), broker.protection(0), [], []), mode, index,
                   broker);
    QuietTurn(start, mode, index, o, broker.order(0), broker.protection(0));
  }

  /**
   A fill that one run records is recorded again by the next run, as another position, exactly
   when the broker returns the order's id padded: answers are matched on the stripped id,
   positions are stored and looked up with the one returned.
   */
  lemma NextRunRecordsAgainIff(s: State, mode: Mode, o: LocalOrder, o': LocalOrder, broker: Broker)
    requires !s.aborted && !RowMissing(s, o) && "" !in s.intents && broker.order(0).Answered?
    requires o'.localId == o.localId && o'.brokerId == o.brokerId
    ensures var r := ReconcileRun(s, mode, [o], broker, Quiet());
            !r.aborted && |r.positions| > |s.positions| ==>
              (|ReconcileRun(r, mode, [o'], broker, Quiet()).positions| > |r.positions|
               <==> broker.order(0).answer.brokerId != o.brokerId)
  {
    var r := ReconcileRun(s, mode, [o], broker, Quiet());
    if r.aborted || |r.positions| <= |s.positions| {
      return;
    }
    hide ReconcileRun, PositionPass, Settle, Accepted, GateOpen, IndexFor, FindPosition, Aborts, EvidenceRefused,
        NormalStatus, Repeatable, NewPosition;
    var a, stop, index := broker.order(0).answer, broker.protection(0), IndexFor(broker);
    var first := Counted(Start(s, broker));
    AddingRun(s, mode, o, broker);
    var t := Settle(first, mode, index, o, a, stop);
    RecordsIff(first, mode, index, o, a, stop);
    FirstTurnIsRepeatable(first, mode, index, o, a, stop);
    PassKeepsRepeatable(first, t, mode, index, broker, o, a);
    var second := Counted(Start(r, broker));
    CountedIsRepeatable(first, r, mode, o, a, broker);
    AcceptedAgain(first, r, mode, o, o', a);
    TurnOfRun(r, mode, o', broker);
    RepeatedTurnRecordsIff(first, second, mode, index, o, o', a, stop);
  }

  // ----- a broker that returns the id it was asked for

  /** The broker returns the id it was asked for, as the repository's own clients do. */
  ghost predicate Echoes(orders: seq<LocalOrder>, broker: Broker) {
    forall i: nat :: i < |orders| && broker.order(i).Answered? ==> broker.order(i).answer.brokerId == orders[i].brokerId
  }

  /** No broker order has two positions in one mode. */
  ghost predicate OneEach(positions: seq<Position>) {
    forall p, q :: 0 <= p < q < |positions| && positions[p].brokerId == positions[q].brokerId ==>
      positions[p].brokerId == "" || positions[p].mode != positions[q].mode
  }

  lemma TurnKeepsOneEach(s: State, mode: Mode, index: PositionIndex, o: LocalOrder, look: Lookup,
                         stop: ProtectionLookup, before: seq<Call>, during: seq<Call>)
    requires !s.aborted && OneEach(s.positions) && (look.Answered? ==> look.answer.brokerId == o.brokerId)
    ensures OneEach(OrderStep(s, mode, index, o, look, stop, before, during).positions)
  {
    hide Run, Accepted, OrderStep, Settle, RecordsFill, StopCovers, RejectsSubmitted, GateOpen;
    var r := OrderStep(s, mode, index, o, look, stop, before, during);
    TurnAdds(s, mode, index, o, look, stop, before, during);
    forall p: nat | p < |s.positions|
      ensures r.positions[p].brokerId == s.positions[p].brokerId && r.positions[p].mode == s.positions[p].mode
    {
      TurnKeepsPosition(s, mode, index, o, look, stop, before, during, p);
    }
    if Heard(s, o, look, before) {
      HeardTurn(s, mode, index, o, look, stop, before, during);
      RecordsIff(Seen(s, before, during), mode, index, o, look.answer, stop);
      hide FindPosition;
      if |r.positions| > |s.positions| {
        assert r.positions[|s.positions|].brokerId == o.brokerId && r.positions[|s.positions|].mode == mode;
        assert FindPosition(s.positions, o.brokerId, mode).None?;
      }
    } else {
      UnheardTurn(s, mode, index, o, look, stop, before, during);
    }
  }

  lemma {:induction false} LoopKeepsOneEach(s: State, mode: Mode, index: PositionIndex, orders: seq<LocalOrder>,
                                            broker: Broker, others: Others, n: nat)
    requires !s.aborted && n <= |orders| && OneEach(s.positions) && Echoes(orders, broker)
    ensures OneEach(OrderLoop(s, mode, index, orders, broker, others, n).positions)
  {
    hide OrderStep, OneEach;
    if n > 0 {
      var i: nat := n - 1;
      LoopKeepsOneEach(s, mode, index, orders, broker, others, i);
      var s1 := OrderLoop(s, mode, index, orders, broker, others, i);
      if !s1.aborted {
        TurnKeepsOneEach(s1, mode, index, orders[i], broker.order(i), broker.protection(i), others.before(i),
                         others.during(i));
      }
    }
  }

  /**
   With a broker that returns the id it was asked for, no fill is recorded twice: over every
   run, whatever else it answers and other workers do, each broker order keeps at most one
   position a mode.
   */
  lemma EchoedFillsAreRecordedOnce(s: State, mode: Mode, orders: seq<LocalOrder>, broker: Broker, others: Others)
    requires !s.aborted && OneEach(s.positions) && Echoes(orders, broker)
    ensures OneEach(ReconcileRun(s, mode, orders, broker, others).positions)
  {
    hide OrderLoop, PositionPass, Echoes;
    var index := IndexFor(broker);
    var s1 := OrderLoop(Start(s, broker), mode, index, orders, broker, others, |orders|);
    LoopKeepsOneEach(Start(s, broker), mode, index, orders, broker, others, |orders|);
    PassKeepsCount(s1, mode, index, broker);
    forall p: nat | p < |s1.positions|
      ensures PositionPass(s1, mode, index, broker).positions[p].brokerId == s1.positions[p].brokerId
      ensures PositionPass(s1, mode, index, broker).positions[p].mode == s1.positions[p].mode
    {
      PassClosesExactly(s1, mode, index, broker, p);
    }
  }

  lemma RunAddsAtMostOne(s: State, mode: Mode, o: LocalOrder, broker: Broker)
    requires !s.aborted
    ensures |ReconcileRun(s, mode, [o], broker, Quiet()).positions| <= |s.positions| + 1
  {
    hide ReconcileRun, OrderStep, PositionPass, RecordsFill, IndexFor;
    var start, index := Start(s, broker), IndexFor(broker);
    OneEntryRun(s, mode, o, broker);
    TurnAdds(start, mode, index, o, broker.order(0), broker.protection(0), [], []);
    PassKeepsCount(OrderStep(start, mode, index, o, broker.order(0), broker.protection(0), [], []), mode, index,
                   broker);
  }

  lemma RunRecordsOne(s: State, mode: Mode, o: LocalOrder, broker: Broker)
    requires !s.aborted && o.brokerId != "" && broker.order(0).Answered?
    requires var a := broker.order(0).answer;
             && Accepted(s.intents, o, a) && Unrecorded(s.positions, mode, o, a)
             && GateOpen(s.positions, mode, o, a, broker.protection(0))
             && !Aborts(Counted(Start(s, broker)), mode, o, a, broker.protection(0))
    ensures var r := ReconcileRun(s, mode, [o], broker, Quiet()); !r.aborted && |r.positions| == |s.positions| + 1
  {
    hide ReconcileRun, OrderStep, PositionPass, IndexFor, Settle, Accepted, Unrecorded, GateOpen, Aborts;
    var first, index := Counted(Start(s, broker)), IndexFor(broker);
    OneEntryRun(s, mode, o, broker);
    QuietTurn(Start(s, broker), mode, index, o, broker.order(0), broker.protection(0));
    RecordsIff(first, mode, index, o, broker.order(0).answer, broker.protection(0));
    SettleAbortsIff(first, mode, index, o, broker.order(0).answer, broker.protection(0));
    TurnOfRun(s, mode, o, broker);
    PassKeepsIntents(Settle(first, mode, index, o, broker.order(0).answer, broker.protection(0)), mode, index, broker);
  }

  /** A confirmed fill of 10 under the id "B1 ". */
  function PaddedFillBroker(): Broker {
    Broker(_ => Answered(Answer("B1 ", Filled, true, "NIFTY", "BUY", 10, 10, None)), _ => NoProtection, None,
           _ => Raised)
  }

  /** With a broker that pads the id, two runs record one fill of 10 as two positions. */
  lemma PaddedFillIsRecordedTwice()
    ensures var r := ReconcileRun(EmptyStores(), Paper, [UnfilledEntry()], PaddedFillBroker(), Quiet());
            |r.positions| == 1
                && |ReconcileRun(r, Paper, [UnfilledEntry()], PaddedFillBroker(), Quiet()).positions| == 2
  {
    var s, o, broker := EmptyStores(), UnfilledEntry(), PaddedFillBroker();
    NameIsStripped();
    RunRecordsOne(s, Paper, o, broker);
    NextRunRecordsAgainIff(s, Paper, o, o, broker);
    var r := ReconcileRun(s, Paper, [o], broker, Quiet());
    hide ReconcileRun, Accepted, Strip;
    RunAddsAtMostOne(r, Paper, o, broker);
  }
}
