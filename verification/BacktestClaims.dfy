/** `claim_recoverable_backtest_jobs`: leases on unfinished job records, oldest first. */
module BacktestClaims {
  import opened Wrappers
  import opened BacktestJobs
  import opened BacktestLaws

  type Records = map<string, Job>

  /** The SELECT: the first `limit` unfinished rows in order of creation. Leases are not looked at. */
  function Selected(records: Records, order: seq<string>, limit: nat): (r: seq<string>)
    ensures |r| <= limit
    ensures forall id :: id in r ==> id in order && id in records && Unfinished(records[id].status)
  {
    if order == [] || limit == 0 then []
    else if order[0] in records && Unfinished(records[order[0]].status)
    then [order[0]] + Selected(records, order[1..], limit - 1)
    else Selected(records, order[1..], limit)
  }

  /** Those of the ids whose lease is available. */
  function Available(records: Records, ids: seq<string>, now: int): (r: seq<string>)
    requires forall id :: id in ids ==> id in records
    ensures forall id :: id in r <==> id in ids && LeaseAvailable(records[id], now)
  {
    if ids == [] then []
    else
      var n := |ids| - 1;
      Available(records, ids[..n], now) + (if LeaseAvailable(records[ids[n]], now) then [ids[n]] else [])
  }

  lemma AvailableStep(records: Records, ids: seq<string>, n: nat, now: int)
    requires n < |ids| && forall id :: id in ids ==> id in records
    ensures Available(records, ids[..n + 1], now)
            == Available(records, ids[..n], now) + if LeaseAvailable(records[ids[n]], now) then [ids[n]] else []
  {
    assert ids[..n + 1][..n] == ids[..n];
  }

  function Claims(records: Records, order: seq<string>, now: int, limit: nat): seq<string> {
    Available(records, Selected(records, order, limit), now)
  }

  /** The claimed rows carry a new lease, the others are as before. */
  predicate Stamped(before: Records, after: Records, claimed: seq<string>, process: string, now: int) {
    && after.Keys == before.Keys
    && forall id :: id in before ==> after[id] == if id in claimed then Leased(before[id], process, now) else before[id]
  }

  lemma StampOne(before: Records, after: Records, claimed: seq<string>, process: string, now: int, id: string)
    requires Stamped(before, after, claimed, process, now) && id in before && id !in claimed
    ensures Stamped(before, after[id := Leased(after[id], process, now)], claimed + [id], process, now)
  {
    hide Leased;
  }

  function Bounded(limit: int): (r: nat)
    ensures 1 <= r <= 100 && (1 <= limit <= 100 ==> r == limit)
    ensures (limit <= 0 ==> r == 1) && (100 < limit ==> r == 100)
  {
    if limit < 1 then 1 else if limit > 100 then 100 else limit
  }

  /** How many unfinished rows are older than the k-th. */
  function Older(records: Records, order: seq<string>, k: nat): nat
    requires k <= |order|
  {
    if k == 0 then 0
    else Older(records, order, k - 1)
         + if order[k - 1] in records && Unfinished(records[order[k - 1]].status) then 1 else 0
  }

  lemma {:induction false} OlderOfTail(records: Records, order: seq<string>, k: nat)
    requires 0 < k <= |order|
    ensures Older(records, order, k)
            == Older(records, order[1..], k - 1) + if order[0] in records && Unfinished(records[order[0]].status) then 1
                else 0
  {
    if k > 1 {
      OlderOfTail(records, order, k - 1);
      assert order[k - 1] == order[1..][k - 2];
    }
  }

  lemma {:induction false} SelectedIff(records: Records, order: seq<string>, limit: nat, k: nat)
    requires NoDuplicates(order) && k < |order|
    ensures order[k] in Selected(records, order, limit)
            <==> order[k] in records && Unfinished(records[order[k]].status) && Older(records, order, k) < limit
    decreases k, limit
  {
    hide Unfinished;
    if k == 0 {
      assert order[0] !in order[1..];
    } else {
      OlderOfTail(records, order, k);
      assert order[1..][k - 1] == order[k] && order[0] != order[k];
      if limit > 0 {
        var first := order[0] in records && Unfinished(records[order[0]].status);
        SelectedIff(records, order[1..], if first then limit - 1 else limit, k - 1);
      }
    }
  }

  /**
   A row is claimed exactly when it is unfinished, its lease is free and fewer than `limit`
   unfinished rows are older.
   */
  lemma ClaimedIff(records: Records, order: seq<string>, now: int, limit: nat, k: nat)
    requires NoDuplicates(order) && k < |order| && order[k] in records
    ensures order[k] in Claims(records, order, now, limit)
            <==> Claimable(records[order[k]], now) && Older(records, order, k) < limit
  {
    SelectedIff(records, order, limit, k);
  }

  /**
   A row of a table that stays as it is gets claimed sooner or later iff unfinished, not cancelled
   and inside the limit.
   */
  lemma EverClaimedIff(records: Records, order: seq<string>, limit: nat, k: nat)
    requires NoDuplicates(order) && k < |order| && order[k] in records
    ensures (exists now :: order[k] in Claims(records, order, now, limit))
            <==> && Unfinished(records[order[k]].status) && !records[order[k]].cancelRequested
                 && Older(records, order, k) < limit
  {
    var record := records[order[k]];
    var free := if record.leaseUntil.Some? then record.leaseUntil.value else 0;
    ClaimedIff(records, order, free, limit, k);
    forall now ensures order[k] in Claims(records, order, now, limit)
                       <==> Claimable(record, now) && Older(records, order, k) < limit {
      ClaimedIff(records, order, now, limit, k);
    }
    hide Claims;
  }

  /** Two claims within one lease hand no row to both claimers. */
  lemma ClaimsAreDisjoint(records: Records, after: Records, order: seq<string>, order': seq<string>, process: string,
                          now: int, now': int, limit: nat, limit': nat, id: string)
    requires Stamped(records, after, Claims(records, order, now, limit), process, now)
    requires now <= now' < now + LEASE_SECONDS
    requires id in Claims(records, order, now, limit)
    ensures id !in Claims(after, order', now', limit')
  {
  }
}
