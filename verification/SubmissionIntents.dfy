/**
 The durable submission intents: one row a local order, moved by single guarded
 statements that any number of workers may interleave. The table's unique indexes are
 those of the migration that creates it.
 */
module SubmissionIntents {
  import opened Wrappers
  import opened StatusWords

  datatype Row = Row(key: string, correlation: string, brokerId: Option<string>, status: Word)

  /** By local order id, the primary key. */
  type Table = map<string, Row>

  datatype IntentError =
    | IdAndKeyRequired
    | DuplicateOrUnresolvedIntent
    | IntentNotClaimed
    | AuthoritativeEvidenceRequired
    | NotAwaitingReconciliation
    | IntegrityViolation

  /** The statuses the partial unique index on the logical key ranges over. */
  predicate Active(w: Word) {
    w in {Claimed, ReconciliationRequired, Submitted, Open, PartiallyFilled}
  }

  predicate Terminal(w: Word) { w in {Filled, Cancelled, Rejected} }

  predicate IsEvidence(w: Word) { w in {Submitted, Open, PartiallyFilled, Filled, Cancelled, Rejected} }

  function NormalKey(logicalKey: string): string { Upper(Strip(logicalKey)) }

  /** The status moves the evidence statement allows on a row that has its broker id. */
  predicate Move(from: Word, to: Word) {
    || (from == Submitted && to in {Submitted, Open, PartiallyFilled, Filled, Cancelled, Rejected})
    || (from == Open && to in {Open, PartiallyFilled, Filled, Cancelled, Rejected})
    || (from == PartiallyFilled && to in {PartiallyFilled, Filled, Cancelled})
    || (from in {Filled, Cancelled, Rejected} && from == to)
  }

  /** The WHERE clause of `record_broker_evidence`. */
  predicate EvidenceGuard(row: Row, brokerId: string, status: Word) {
    && (row.brokerId.None? || row.brokerId == Some(brokerId))
    && (row.status == ReconciliationRequired || (row.brokerId == Some(brokerId) && Move(row.status, status)))
  }

  /** No other row may hold the broker id, and no other active row the key. */
  predicate FitsIndexes(t: Table, localId: string, row: Row) {
    && (forall id :: id in t && id != localId ==> t[id].correlation != row.correlation)
    && (forall id :: id in t && id != localId ==> row.brokerId.None? || t[id].brokerId != row.brokerId)
    && (forall id :: id in t && id != localId ==> !(Active(row.status) && Active(t[id].status) && t[id].key == row.key))
  }

  /** One call by one worker; each is a single transaction. */
  datatype Call =
    | Claim(localId: string, logicalKey: string, correlation: string)
    | Mark(localId: string)
    | Evidence(localId: string, brokerId: string, status: Word)

  /** The table after a call, and the error it raised, if any. */
  function Apply(t: Table, c: Call): (Table, Option<IntentError>) {
    match c
    case Claim(id, logicalKey, correlation) =>
      var row := Row(NormalKey(logicalKey), correlation, None, Claimed);
      if id == "" || logicalKey == "" then (t, Some(IdAndKeyRequired))
      else if id in t || !FitsIndexes(t, id, row) then (t, Some(DuplicateOrUnresolvedIntent))
      else (t[id := row], None)
    case Mark(id) =>
      if id in t && t[id].status == Claimed then (t[id := t[id].(status := ReconciliationRequired)], None)
      else (t, Some(IntentNotClaimed))
    case Evidence(id, brokerId, status) =>
      if brokerId == "" || !IsEvidence(status) then (t, Some(AuthoritativeEvidenceRequired))
      else if !(id in t && EvidenceGuard(t[id], brokerId, status)) then (t, Some(NotAwaitingReconciliation))
      else
        var row := t[id].(brokerId := Some(brokerId), status := status);
        if FitsIndexes(t, id, row) then (t[id := row], None) else (t, Some(IntegrityViolation))
  }

  /** The table after a sequence of calls, in the order their transactions commit. */
  function Run(t: Table, calls: seq<Call>): Table {
    if calls == [] then t else Apply(Run(t, calls[..|calls| - 1]), calls[|calls| - 1]).0
  }

  predicate Succeeds(t: Table, calls: seq<Call>, i: nat)
    requires i < |calls|
  {
    Apply(Run(t, calls[..i]), calls[i]).1.None?
  }

  /** The three statements as operations on the stored table. */
  class IntentStore {
    var rows: Table

    constructor ()
      ensures rows == map[]
    {
      rows := map[];
    }

    method ClaimSubmission(localId: string, logicalKey: string,
                           correlation: string) returns (error: Option<IntentError>)
      modifies this
      ensures (rows, error) == Apply(old(rows), Claim(localId, logicalKey, correlation))
    {
      if localId == "" || logicalKey == "" {
        return Some(IdAndKeyRequired);
      }
      var row := Row(NormalKey(logicalKey), correlation, None, Claimed);
      if localId in rows || !FitsIndexes(rows, localId, row) {
        return Some(DuplicateOrUnresolvedIntent);
      }
      rows := rows[localId := row];
      return None;
    }

    method MarkSubmissionStarted(localId: string) returns (error: Option<IntentError>)
      modifies this
      ensures (rows, error) == Apply(old(rows), Mark(localId))
    {
      var rowcount := 0;
      if localId in rows && rows[localId].status == Claimed {
        rows := rows[localId := rows[localId].(status := ReconciliationRequired)];
        rowcount := 1;
      }
      if rowcount != 1 {
        return Some(IntentNotClaimed);
      }
      return None;
    }

    method RecordBrokerEvidence(localId: string, brokerId: string, status: Word) returns (error: Option<IntentError>)
      modifies this
      ensures (rows, error) == Apply(old(rows), Evidence(localId, brokerId, status))
    {
      if brokerId == "" || !IsEvidence(status) {
        return Some(AuthoritativeEvidenceRequired);
      }
      var rowcount := 0;
      if localId in rows && EvidenceGuard(rows[localId], brokerId, status) {
        var row := rows[localId].(brokerId := Some(brokerId), status := status);
        if !FitsIndexes(rows, localId, row) {
          return Some(IntegrityViolation);
        }
        rows := rows[localId := row];
        rowcount := 1;
      }
      if rowcount != 1 {
        return Some(NotAwaitingReconciliation);
      }
      return None;
    }
  }

  // ----- every reachable table

  predicate ValidRow(row: Row) {
    && (Active(row.status) || Terminal(row.status))
    && (row.brokerId.None? <==> row.status in {Claimed, ReconciliationRequired})
  }

  ghost predicate Valid(t: Table) {
    && (forall id :: id in t ==> ValidRow(t[id]))
    && (forall id :: id in t ==> FitsIndexes(t, id, t[id]))
  }

  lemma StoreKeepsValid(t: Table, id: string, row: Row)
    requires Valid(t) && ValidRow(row) && FitsIndexes(t, id, row)
    ensures Valid(t[id := row])
  {
    var t' := t[id := row];
    forall other | other in t' ensures FitsIndexes(t', other, t'[other]) {
      if other != id {
        assert FitsIndexes(t, other, t[other]);
      }
    }
  }

  lemma ApplyKeepsValid(t: Table, c: Call)
    requires Valid(t)
    ensures Valid(Apply(t, c).0)
  {
    var t' := Apply(t, c).0;
    if t' != t {
      var row := t'[c.localId];
      if c.Mark? {
        assert FitsIndexes(t, c.localId, t[c.localId]);
      }
      assert FitsIndexes(t, c.localId, row) && ValidRow(row) && t' == t[c.localId := row];
      hide FitsIndexes, Apply;
      StoreKeepsValid(t, c.localId, row);
    }
  }

  lemma {:induction false} RunKeepsValid(t: Table, calls: seq<Call>)
    requires Valid(t)
    ensures Valid(Run(t, calls))
  {
    if calls != [] {
      RunKeepsValid(t, calls[..|calls| - 1]);
      ApplyKeepsValid(Run(t, calls[..|calls| - 1]), calls[|calls| - 1]);
    }
  }

  /**
   Over every interleaving of calls: a broker id is set exactly on the rows past
   reconciliation_required, names one row only, and at most one row a key is active.
   */
  lemma EveryRunIsValid(calls: seq<Call>)
    ensures Valid(Run(map[], calls))
  {
    RunKeepsValid(map[], calls);
  }

  /** Evidence never meets a conflict on the active-key index: only another owner of the broker id stops it. */
  lemma EvidenceIntegrity(t: Table, id: string, brokerId: string, status: Word)
    requires Valid(t) && id in t
    requires brokerId != "" && IsEvidence(status) && EvidenceGuard(t[id], brokerId, status)
    ensures Apply(t, Evidence(id, brokerId, status)).1
            == if exists other :: other in t && other != id && t[other].brokerId == Some(brokerId)
               then Some(IntegrityViolation) else None
  {
    assert FitsIndexes(t, id, t[id]);
  }

  // ----- what never changes along a run

  function Rank(w: Word): nat {
    match w
    case Claimed => 0
    case ReconciliationRequired => 1
    case Submitted => 2
    case Open => 3
    case PartiallyFilled => 4
    case _ => 5
  }

  /** How a row may look later. */
  predicate Evolves(now: Row, later: Row) {
    && later.key == now.key && later.correlation == now.correlation
    && Rank(now.status) <= Rank(later.status)
    && (now.brokerId.Some? ==> later.brokerId == now.brokerId)
    && (Terminal(now.status) ==> later.status == now.status)
    && (IsEvidence(now.status) ==> Move(now.status, later.status))
  }

  /** Identity is fixed, a broker id never changes once set, statuses only advance and terminal ones are absorbing. */
  lemma {:induction false} RowsEvolve(t: Table, calls: seq<Call>, id: string)
    requires id in t
    ensures id in Run(t, calls) && Evolves(t[id], Run(t, calls)[id])
  {
    if calls != [] {
      hide FitsIndexes;
      RowsEvolve(t, calls[..|calls| - 1], id);
    }
  }

  lemma {:induction false} RunSplit(t: Table, calls: seq<Call>, i: nat)
    requires i <= |calls|
    ensures Run(t, calls) == Run(Run(t, calls[..i]), calls[i..])
    decreases |calls| - i
  {
    if i == |calls| {
      assert calls[..i] == calls;
    } else {
      var front := calls[..|calls| - 1];
      RunSplit(t, front, i);
      assert front[..i] == calls[..i] && calls[i..][..|calls| - 1 - i] == front[i..];
    }
  }

  /** Between two points of a run every row only evolves. */
  lemma EvolvesBetween(t: Table, calls: seq<Call>, i: nat, j: nat, id: string)
    requires i <= j <= |calls| && id in Run(t, calls[..i])
    ensures id in Run(t, calls[..j]) && Evolves(Run(t, calls[..i])[id], Run(t, calls[..j])[id])
  {
    RunSplit(t, calls[..j], i);
    assert calls[..j][..i] == calls[..i];
    RowsEvolve(Run(t, calls[..i]), calls[..j][i..], id);
  }

  lemma RunStep(t: Table, calls: seq<Call>, i: nat)
    requires i < |calls|
    ensures Run(t, calls[..i + 1]) == Apply(Run(t, calls[..i]), calls[i]).0
  {
    assert calls[..i + 1][..i] == calls[..i];
  }

  /** A local order crosses the ambiguous send boundary at most once, whatever the workers do. */
  lemma SendsAtMostOnce(t: Table, calls: seq<Call>, i: nat, j: nat)
    requires i < j < |calls|
    requires calls[i].Mark? && calls[j] == calls[i] && Succeeds(t, calls, i)
    ensures !Succeeds(t, calls, j)
  {
    RunStep(t, calls, i);
    EvolvesBetween(t, calls, i + 1, j, calls[i].localId);
  }

  ghost predicate SameKey(t: Table, a: string, b: string) {
    a in t && b in t && t[a].key == t[b].key
  }

  /**
   No duplicate exposure: when a second order of the same logical key is sent, the
   first one has already been resolved by terminal evidence.
   */
  lemma SecondSendNeedsTerminalEvidence(calls: seq<Call>, i: nat, j: nat)
    requires i < j < |calls|
    requires calls[i].Mark? && calls[j].Mark? && Succeeds(map[], calls, i) && Succeeds(map[], calls, j)
    requires SameKey(Run(map[], calls[..j]), calls[i].localId, calls[j].localId)
    ensures var t := Run(map[], calls[..j]);
            && calls[i].localId in t && Terminal(t[calls[i].localId].status)
            && t[calls[i].localId].brokerId.Some?
  {
    var first, second := calls[i].localId, calls[j].localId;
    RunStep(map[], calls, i);
    EvolvesBetween(map[], calls, i + 1, j, first);
    EveryRunIsValid(calls[..j]);
    var t := Run(map[], calls[..j]);
    assert FitsIndexes(t, second, t[second]);
    assert ValidRow(t[first]);
  }
}
