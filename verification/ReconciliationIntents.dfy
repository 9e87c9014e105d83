/** What a reconciliation run may do to the durable intents. */
module ReconciliationIntents {
  import opened Wrappers
  import opened StatusWords
  import opened SubmissionIntents
  import opened Reconciliation

  // ----- the two encodings of the allowed moves

  /**
   On every row of a valid table the checks before the write (identity and transition
   table) accept an observation exactly when the statement's guard does, except that the
   guard also refuses a row that is still claimed.
   */
  lemma EncodingsAgree(row: Row, brokerId: string, status: Word)
    requires ValidRow(row) && IsEvidence(status)
    ensures EvidenceGuard(row, brokerId, status)
            <==> row.status != Claimed && !IdentityConflict(row, brokerId) && !Regresses(row.status, status)
  {
  }

  /**
   Without interference, evidence for an accepted answer fails, and aborts the run,
   exactly when the intent is still claimed or another intent owns the broker id.
   */
  lemma EvidenceFailsOnlyIf(s: State, o: LocalOrder, a: Answer, status: Word)
    requires Valid(s.intents) && !s.aborted && o.localId != "" && o.brokerId != ""
    requires Accepted(s.intents, o, a) && status == Observed(NormalStatus(a.status)) && IsEvidence(status)
    ensures RecordEvidence(s, o, status).aborted
            <==> o.localId in s.intents
                 && (s.intents[o.localId].status == Claimed
                     || exists other :: other in s.intents && other != o.localId
                                        && s.intents[other].brokerId == Some(o.brokerId))
  {
    if o.localId in s.intents {
      var row := s.intents[o.localId];
      EncodingsAgree(row, o.brokerId, status);
      if row.status != Claimed {
        EvidenceIntegrity(s.intents, o.localId, o.brokerId, status);
      }
    }
  }

  // ----- the evidence calls a run makes

  /** The evidence an accepted answer leads to. */
  function EvidenceOf(positions: seq<Position>, mode: Mode, o: LocalOrder, a: Answer,
                      stop: ProtectionLookup): seq<Call> {
    var status := NormalStatus(a.status);
    if o.localId == "" || !GateOpen(positions, mode, o, a, stop) then []
    else if status == Filled || status == PartiallyFilled
         || (SubmittedStatus(o.status) && status in {Rejected, Cancelled})
    then [Evidence(o.localId, o.brokerId, status)]
    else []
  }

  lemma RunOne(t: Table, c: Call)
    ensures Run(t, [c]) == Apply(t, c).0
  {
    assert [c][..0] == [];
    assert Run(t, []) == t;
  }

  /** What the intents look like after a branch that may record evidence. */
  ghost predicate After(s: State, r: State, o: LocalOrder, status: Word, recorded: bool) {
    r.intents == if recorded then Apply(s.intents, Evidence(o.localId, o.brokerId, status)).0 else s.intents
  }

  lemma RejectedIntents(s: State, mode: Mode, o: LocalOrder, a: Answer, position: Option<nat>)
    requires position.Some? ==> position.value < |s.positions|
    ensures After(s, SettleRejected(s, mode, o, a, position), o, NormalStatus(a.status),
                  o.localId != "" && NormalStatus(a.status) in {Rejected, Cancelled})
  {
    EvidenceIntents(s, o, NormalStatus(a.status));
    hide Apply, RecordEvidence;
  }

  lemma PartialIntents(s: State, mode: Mode, o: LocalOrder, a: Answer, position: Option<nat>)
    requires position.Some? ==> position.value < |s.positions|
    ensures After(s, SettlePartial(s, mode, o, a, position), o, PartiallyFilled, o.localId != "")
  {
    EvidenceIntents(s, o, PartiallyFilled);
    hide Apply, RecordEvidence;
  }

  lemma OtherIntents(s: State, mode: Mode, index: PositionIndex, o: LocalOrder, a: Answer, position: Option<nat>)
    requires position.Some? ==> position.value < |s.positions|
    ensures After(s, SettleOther(s, mode, index, o, a, position), o, Filled,
                  o.localId != "" && FilledStatus(NormalStatus(a.status)))
  {
    EvidenceIntents(s, o, Filled);
    hide Apply, RecordEvidence, BackedByBroker;
  }

  /** Settling an answer performs at most that one evidence call on the intents. */
  lemma SettleIntents(s: State, mode: Mode, index: PositionIndex, o: LocalOrder, a: Answer, stop: ProtectionLookup)
    requires !s.aborted
    ensures Settle(s, mode, index, o, a, stop).intents == Run(s.intents, EvidenceOf(s.positions, mode, o, a, stop))
  {
    hide SettleRejected, SettlePartial, SettleOther, GateOpen, FindPosition, Apply, Run, SubmittedStatus, Transition;
    var position := FindPosition(s.positions, o.brokerId, mode);
    RunOne(s.intents, Evidence(o.localId, o.brokerId, NormalStatus(a.status)));
    RunNone(s.intents);
    SuspensionKeepsIntents(s, o, a, stop);
    RejectedIntents(s, mode, o, a, position);
    PartialIntents(s, mode, o, a, position);
    OtherIntents(s, mode, index, o, a, position);
  }

  lemma RunNone(t: Table)
    ensures Run(t, []) == t
  {
  }

  lemma SuspensionKeepsIntents(s: State, o: LocalOrder, a: Answer, stop: ProtectionLookup)
    ensures var s1 := Review(if stop.ProtectionRaised? then Error(s) else s);
            Transition(s1, o, ReconciliationRequired, a.status, a.price).intents == s.intents
    ensures Transition(Review(s), o, ReconciliationRequired, a.status, None).intents == s.intents
  {
  }

  lemma EvidenceIntents(s: State, o: LocalOrder, status: Word)
    ensures RecordEvidence(s, o, status).intents == Apply(s.intents, Evidence(o.localId, o.brokerId, status)).0
  {
  }

  /** All calls that reach the intents during one turn of the loop. */
  function StepCalls(s: State, mode: Mode, o: LocalOrder, look: Lookup, stop: ProtectionLookup,
                     before: seq<Call>, during: seq<Call>): seq<Call> {
    if !Heard(s, o, look, before) then before
    else before + during + EvidenceOf(s.positions, mode, o, look.answer, stop)
  }

  lemma RunConcat(t: Table, xs: seq<Call>, ys: seq<Call>)
    ensures Run(t, xs + ys) == Run(Run(t, xs), ys)
  {
    RunSplit(t, xs + ys, |xs|);
    assert (xs + ys)[..|xs|] == xs && (xs + ys)[|xs|..] == ys;
  }

  lemma StepIntents(s: State, mode: Mode, index: PositionIndex, o: LocalOrder, look: Lookup, stop: ProtectionLookup,
                    before: seq<Call>, during: seq<Call>)
    requires !s.aborted
    ensures OrderStep(s, mode, index, o, look, stop, before, during).intents
            == Run(s.intents, StepCalls(s, mode, o, look, stop, before, during))
  {
    hide Accepted, Settle, GateOpen, OrderStep, Run;
    if Heard(s, o, look, before) {
      HeardTurn(s, mode, index, o, look, stop, before, during);
      var seen := Seen(s, before, during);
      SettleIntents(seen, mode, index, o, look.answer, stop);
      var evidence := EvidenceOf(s.positions, mode, o, look.answer, stop);
      RunConcat(s.intents, before, during);
      RunConcat(s.intents, before + during, evidence);
    } else {
      UnheardTurn(s, mode, index, o, look, stop, before, during);
    }
  }

  /** All calls that reach the intents during the first n turns. */
  function LoopCalls(s: State, mode: Mode, index: PositionIndex, orders: seq<LocalOrder>, broker: Broker,
                     others: Others, n: nat): seq<Call>
    requires n <= |orders|
  {
    if n == 0 then []
    else
      var s1 := OrderLoop(s, mode, index, orders, broker, others, n - 1);
      LoopCalls(s, mode, index, orders, broker, others, n - 1)
      + (if s1.aborted then []
         else StepCalls(s1, mode, orders[n - 1], broker.order(n - 1), broker.protection(n - 1),
                        others.before(n - 1), others.during(n - 1)))
  }

  /** A run is one more worker of the intent protocol: it touches the table only through its calls. */
  lemma {:induction false} LoopIsProtocolRun(s: State, mode: Mode, index: PositionIndex, orders: seq<LocalOrder>,
                                             broker: Broker, others: Others, n: nat)
    requires n <= |orders| && !s.aborted
    ensures OrderLoop(s, mode, index, orders, broker, others, n).intents
            == Run(s.intents, LoopCalls(s, mode, index, orders, broker, others, n))
  {
    hide OrderStep, StepCalls, Run;
    if n == 0 {
      RunNone(s.intents);
    } else {
      LoopIsProtocolRun(s, mode, index, orders, broker, others, n - 1);
      var s1 := OrderLoop(s, mode, index, orders, broker, others, n - 1);
      var calls := LoopCalls(s, mode, index, orders, broker, others, n - 1);
      if s1.aborted {
        assert LoopCalls(s, mode, index, orders, broker, others, n) == calls;
      } else {
        StepIntents(s1, mode, index, orders[n - 1], broker.order(n - 1), broker.protection(n - 1),
                    others.before(n - 1), others.during(n - 1));
        RunConcat(s.intents, calls, StepCalls(s1, mode, orders[n - 1], broker.order(n - 1), broker.protection(n - 1),
                                              others.before(n - 1), others.during(n - 1)));
      }
    }
  }

  // ----- where evidence comes from

  /** The answer of turn i says w about this order row under the order's own broker id; terminal words are confirmed. */
  ghost predicate Supports(orders: seq<LocalOrder>, broker: Broker, i: nat, localId: string, brokerId: string,
                           w: Word) {
    && i < |orders|
    && orders[i].localId == localId && orders[i].brokerId == brokerId
    && broker.order(i).Answered?
    && Strip(broker.order(i).answer.brokerId) == brokerId
    && NormalStatus(broker.order(i).answer.status) == w
    && (Terminal(w) ==> broker.order(i).answer.confirmed)
  }

  /** Turn i acts on its answer: the live gate is open for it in the state the turn starts from. */
  ghost predicate Acts(s: State, mode: Mode, index: PositionIndex, orders: seq<LocalOrder>, broker: Broker,
                       others: Others, i: nat) {
    && i < |orders| && broker.order(i).Answered?
    && GateOpen(OrderLoop(s, mode, index, orders, broker, others, i).positions, mode, orders[i], broker.order(i).answer,
                broker.protection(i))
  }

  /** Another worker makes the call while the first n turns run. */
  ghost predicate ForeignCall(others: Others, c: Call, n: nat) {
    exists i: nat :: i < n && (c in others.before(i) || c in others.during(i))
  }

  lemma EvidenceOfAnswer(positions: seq<Position>, read: Table, mode: Mode, o: LocalOrder, a: Answer,
                         stop: ProtectionLookup, c: Call)
    requires c in EvidenceOf(positions, mode, o, a, stop) && Accepted(read, o, a)
    ensures c == Evidence(o.localId, o.brokerId, NormalStatus(a.status)) && Strip(a.brokerId) == o.brokerId
    ensures c.status in {PartiallyFilled, Filled, Cancelled, Rejected} && (Terminal(c.status) ==> a.confirmed)
  {
    hide GateOpen, Strip;
  }

  lemma EvidenceHasOpenGate(positions: seq<Position>, mode: Mode, o: LocalOrder, a: Answer, stop: ProtectionLookup,
                            c: Call)
    requires c in EvidenceOf(positions, mode, o, a, stop)
    ensures GateOpen(positions, mode, o, a, stop)
  {
  }

  /**
   Every call of the loop is another worker's, or evidence of a partial fill or a terminal word
   that an answer of the run supports; in live mode a verified stop then covers what is at stake.
   */
  lemma {:induction false} LoopCallsHaveOrigin(s: State, mode: Mode, index: PositionIndex, orders: seq<LocalOrder>,
                                               broker: Broker, others: Others, n: nat, c: Call)
    requires n <= |orders|
    ensures c in LoopCalls(s, mode, index, orders, broker, others, n) ==>
              || ForeignCall(others, c, n)
              || (&& c.Evidence? && c.status in {PartiallyFilled, Filled, Cancelled, Rejected}
                  && exists i: nat :: i < n && Supports(orders, broker, i, c.localId, c.brokerId, c.status)
                                      && Acts(s, mode, index, orders, broker, others, i))
  {
    hide OrderStep, EvidenceOf, Accepted, Run, Strip, GateOpen;
    if n > 0 && c in LoopCalls(s, mode, index, orders, broker, others, n) {
      var last: nat := n - 1;
      var s1 := OrderLoop(s, mode, index, orders, broker, others, last);
      if c in LoopCalls(s, mode, index, orders, broker, others, last) {
        LoopCallsHaveOrigin(s, mode, index, orders, broker, others, last, c);
      } else if c !in others.before(last) && c !in others.during(last) {
        EvidenceOfAnswer(s1.positions, Run(s1.intents, others.before(last)), mode, orders[last],
                         broker.order(last).answer, broker.protection(last), c);
        EvidenceHasOpenGate(s1.positions, mode, orders[last], broker.order(last).answer, broker.protection(last), c);
        assert Supports(orders, broker, last, c.localId, c.brokerId, c.status);
        assert Acts(s, mode, index, orders, broker, others, last);
      }
    }
  }

  /** A row turns terminal only through evidence of that very status. */
  lemma {:induction false} TerminalNeedsEvidence(t: Table, calls: seq<Call>, id: string)
    requires id in Run(t, calls) && Terminal(Run(t, calls)[id].status)
    requires id in t ==> t[id].status != Run(t, calls)[id].status
    ensures exists c :: c in calls && c.Evidence? && c.localId == id && c.status == Run(t, calls)[id].status
                        && Run(t, calls)[id].brokerId == Some(c.brokerId)
  {
    assert calls != [];
    var front, last := calls[..|calls| - 1], calls[|calls| - 1];
    var t1 := Run(t, front);
    if id in t1 && t1[id].status == Run(t, calls)[id].status {
      RowsEvolve(t1, [last], id);
      RunOne(t1, last);
      TerminalNeedsEvidence(t, front, id);
      var c :| c in front && c.Evidence? && c.localId == id && c.status == t1[id].status
          && t1[id].brokerId == Some(c.brokerId);
      assert c in calls;
    } else {
      assert last in calls;
    }
  }

  lemma PassKeepsIntents(s: State, mode: Mode, index: PositionIndex, broker: Broker)
    ensures PositionPass(s, mode, index, broker).intents == s.intents
    ensures PositionPass(s, mode, index, broker).orders == s.orders
    ensures PositionPass(s, mode, index, broker).aborted == s.aborted
  {
    if broker.positions.Some? {
      var ids := ListOpen(s.positions, mode);
      var raws := |broker.positions.value|;
      PositionLoopKeeps(Reviews(s.(summary := s.summary.(checkedPositions := |ids| + raws)),
                                |Unmatched(index, LocalKeys(s.positions, ids))|), index, ids, broker);
    }
  }

  lemma {:induction false} PositionLoopKeeps(s: State, index: PositionIndex, ids: seq<nat>, broker: Broker)
    requires forall k :: 0 <= k < |ids| ==> ids[k] < |s.positions|
    ensures PositionLoop(s, index, ids, broker).intents == s.intents
    ensures PositionLoop(s, index, ids, broker).orders == s.orders
    ensures PositionLoop(s, index, ids, broker).aborted == s.aborted
  {
    hide BackedByBroker, LookupKeepsOpen;
    if ids != [] {
      var front, p := ids[..|ids| - 1], ids[|ids| - 1];
      PositionLoopKeeps(s, index, front, broker);
      var r := PositionLoop(s, index, front, broker);
      assert PositionLoop(s, index, ids, broker) == PositionStep(r, index, p, broker.position(p));
    }
  }

  /**
   During a whole run, in the presence of other workers, an intent becomes filled,
   cancelled or rejected only by another worker's evidence of it or by a confirmed answer
   whose own id is the order's broker id and which passed the live gate; the row then
   carries exactly that id.
   */
  lemma TerminalOnlyIfConfirmed(s: State, mode: Mode, orders: seq<LocalOrder>, broker: Broker, others: Others,
                                id: string)
    requires !s.aborted
    requires var t := ReconcileRun(s, mode, orders, broker, others).intents;
             id in t && Terminal(t[id].status) && (id in s.intents ==> s.intents[id].status != t[id].status)
    ensures var row := ReconcileRun(s, mode, orders, broker, others).intents[id];
            && row.brokerId.Some?
            && (|| ForeignCall(others, Evidence(id, row.brokerId.value, row.status), |orders|)
                || exists i: nat :: Supports(orders, broker, i, id, row.brokerId.value, row.status)
                                    && Acts(Start(s, broker), mode, IndexFor(broker), orders, broker, others, i))
  {
    hide OrderLoop, PositionPass, LoopCalls, Run, Supports, Acts;
    var index := IndexFor(broker);
    var s1 := OrderLoop(Start(s, broker), mode, index, orders, broker, others, |orders|);
    PassKeepsIntents(s1, mode, index, broker);
    var calls := LoopCalls(Start(s, broker), mode, index, orders, broker, others, |orders|);
    LoopIsProtocolRun(Start(s, broker), mode, index, orders, broker, others, |orders|);
    TerminalNeedsEvidence(s.intents, calls, id);
    var row := s1.intents[id];
    var c :| c in calls && c.Evidence? && c.localId == id && c.status == row.status && row.brokerId == Some(c.brokerId);
    assert c == Evidence(id, row.brokerId.value, row.status);
    LoopCallsHaveOrigin(Start(s, broker), mode, index, orders, broker, others, |orders|, c);
  }

  /** A run keeps the table valid, whatever the broker answers and the other workers do. */
  lemma RunKeepsIntentsValid(s: State, mode: Mode, orders: seq<LocalOrder>, broker: Broker, others: Others)
    requires !s.aborted && Valid(s.intents)
    ensures Valid(ReconcileRun(s, mode, orders, broker, others).intents)
    ensures forall id :: id in s.intents ==>
              id in ReconcileRun(s, mode, orders, broker, others).intents
              && Evolves(s.intents[id], ReconcileRun(s, mode, orders, broker, others).intents[id])
  {
    hide OrderLoop, PositionPass, LoopCalls, Run, Valid, Evolves;
    var s1 := Start(s, broker);
    var index := IndexFor(broker);
    var s2 := OrderLoop(s1, mode, index, orders, broker, others, |orders|);
    PassKeepsIntents(s2, mode, index, broker);
    var calls := LoopCalls(s1, mode, index, orders, broker, others, |orders|);
    LoopIsProtocolRun(s1, mode, index, orders, broker, others, |orders|);
    RunKeepsValid(s.intents, calls);
    forall id | id in s.intents ensures id in s2.intents && Evolves(s.intents[id], s2.intents[id]) {
      RowsEvolve(s.intents, calls, id);
    }
  }

  /** No other worker calls on the intent while the loop runs. */
  ghost predicate NoForeignCalls(others: Others, localId: string, n: nat) {
    forall i: nat, c :: i < n && (c in others.before(i) || c in others.during(i)) ==> c.localId != localId
  }

  lemma {:induction false} OtherCallsKeepRow(t: Table, calls: seq<Call>, id: string)
    requires forall c :: c in calls ==> c.localId != id
    ensures id in Run(t, calls) <==> id in t
    ensures id in t ==> Run(t, calls)[id] == t[id]
  {
    if calls != [] {
      var front, last := calls[..|calls| - 1], calls[|calls| - 1];
      assert last in calls;
      OtherCallsKeepRow(t, front, id);
    }
  }

  /**
   Failed, expired, not_found, unconfirmed terminal and mismatching answers, and lookups
   that raise, make no call on an intent: all calls on it are other workers', and without
   any it is left exactly as it was.
   */
  lemma UnsupportedAnswersKeepIntent(s: State, mode: Mode, orders: seq<LocalOrder>, broker: Broker, others: Others,
                                     id: string)
    requires !s.aborted
    requires forall i: nat, brokerId, w :: w in {PartiallyFilled, Filled, Cancelled, Rejected}
                                           ==> !Supports(orders, broker, i, id, brokerId, w)
    ensures forall c :: c in LoopCalls(Start(s, broker), mode, IndexFor(broker), orders, broker, others, |orders|) ==>
              c.localId == id ==> ForeignCall(others, c, |orders|)
    ensures var t := ReconcileRun(s, mode, orders, broker, others).intents;
            NoForeignCalls(others, id, |orders|) ==>
                (id in t <==> id in s.intents) && (id in t ==> t[id] == s.intents[id])
  {
    hide OrderLoop, PositionPass, LoopCalls, Run, Supports, Acts;
    var index := IndexFor(broker);
    PassKeepsIntents(OrderLoop(Start(s, broker), mode, index, orders, broker, others, |orders|), mode, index, broker);
    var calls := LoopCalls(Start(s, broker), mode, index, orders, broker, others, |orders|);
    LoopIsProtocolRun(Start(s, broker), mode, index, orders, broker, others, |orders|);
    forall c | c in calls && c.localId == id ensures ForeignCall(others, c, |orders|) {
      LoopCallsHaveOrigin(Start(s, broker), mode, index, orders, broker, others, |orders|, c);
    }
    if NoForeignCalls(others, id, |orders|) {
      OtherCallsKeepRow(s.intents, calls, id);
    }
  }
}
