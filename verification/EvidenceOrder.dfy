/** The evidence statuses under the allowed moves, and why delivery order does not matter on a chain. */
module EvidenceOrder {
  import opened Wrappers
  import opened StatusWords
  import opened SubmissionIntents

  /** The allowed moves are a partial order on the evidence statuses, and incomparable statuses share no successor. */
  lemma MovesArePartialOrder(a: Word, b: Word, c: Word)
    requires IsEvidence(a) && IsEvidence(b) && IsEvidence(c)
    ensures Move(a, a)
    ensures Move(a, b) && Move(b, a) ==> a == b
    ensures Move(a, b) && Move(b, c) ==> Move(a, c)
    ensures Move(a, c) && Move(b, c) ==> Move(a, b) || Move(b, a)
  {
  }

  ghost predicate AllEvidence(xs: seq<Word>) {
    forall i :: 0 <= i < |xs| ==> IsEvidence(xs[i])
  }

  /** The status after delivering xs to a row that awaits reconciliation; a refused delivery changes nothing. */
  function Settle(xs: seq<Word>): Option<Word> {
    if xs == [] then None
    else
      var now, x := Settle(xs[..|xs| - 1]), xs[|xs| - 1];
      if now.None? || Move(now.value, x) then Some(x) else now
  }

  function Deliveries(id: string, brokerId: string, xs: seq<Word>): (calls: seq<Call>)
    ensures |calls| == |xs|
    ensures forall i :: 0 <= i < |xs| ==> calls[i] == Evidence(id, brokerId, xs[i])
  {
    seq(|xs|, i requires 0 <= i < |xs| => Evidence(id, brokerId, xs[i]))
  }

  ghost predicate SoleOwner(t: Table, id: string, brokerId: string) {
    forall other :: other in t && other != id ==> t[other].brokerId != Some(brokerId)
  }

  /** One delivery to an intent that awaits reconciliation or carries this broker id already. */
  lemma DeliverOne(t: Table, id: string, brokerId: string, x: Word)
    requires Valid(t) && id in t && brokerId != "" && SoleOwner(t, id, brokerId) && IsEvidence(x)
    requires t[id].status == ReconciliationRequired || (t[id].brokerId == Some(brokerId) && IsEvidence(t[id].status))
    ensures Apply(t, Evidence(id, brokerId, x)).0
            == if t[id].status == ReconciliationRequired || Move(t[id].status, x)
               then t[id := t[id].(brokerId := Some(brokerId), status := x)] else t
  {
    if EvidenceGuard(t[id], brokerId, x) {
      EvidenceIntegrity(t, id, brokerId, x);
    }
    hide FitsIndexes;
  }

  /** Delivering evidence for one broker id to an awaiting intent computes Settle and touches no other row. */
  lemma {:induction false} DeliveriesSettle(t: Table, id: string, brokerId: string, xs: seq<Word>)
    requires Valid(t) && id in t && t[id].status == ReconciliationRequired
    requires brokerId != "" && SoleOwner(t, id, brokerId) && AllEvidence(xs)
    ensures xs != [] ==> Settle(xs).Some? && IsEvidence(Settle(xs).value)
    ensures Run(t, Deliveries(id, brokerId, xs))
            == if xs == [] then t else t[id := t[id].(brokerId := Some(brokerId), status := Settle(xs).value)]
  {
    hide Valid, Apply, Move;
    if xs != [] {
      var front, x := xs[..|xs| - 1], xs[|xs| - 1];
      DeliveriesSettle(t, id, brokerId, front);
      var calls := Deliveries(id, brokerId, xs);
      assert calls[..|front|] == Deliveries(id, brokerId, front);
      RunKeepsValid(t, Deliveries(id, brokerId, front));
      DeliverOne(Run(t, Deliveries(id, brokerId, front)), id, brokerId, x);
    }
  }

  // ----- chains

  ghost predicate Chain(s: set<Word>) {
    forall a, b :: a in s && b in s ==> Move(a, b) || Move(b, a)
  }

  /** xs lists exactly the statuses of s, in any order and with any repetitions. */
  ghost predicate Lists(xs: seq<Word>, s: set<Word>) {
    forall w :: w in xs <==> w in s
  }

  ghost predicate IsMaximum(s: set<Word>, top: Word) {
    top in s && forall w :: w in s ==> Move(w, top)
  }

  /** What has been delivered first is never lost: the final status is reachable from it. */
  lemma {:induction false} SettleAbove(xs: seq<Word>)
    requires xs != [] && AllEvidence(xs)
    ensures Settle(xs).Some? && Settle(xs).value in xs
    ensures Move(xs[0], Settle(xs).value)
  {
    if |xs| > 1 {
      var front := xs[..|xs| - 1];
      SettleAbove(front);
      var now := Settle(front).value;
      assert now in xs;
      if Move(now, xs[|xs| - 1]) {
        MovesArePartialOrder(xs[0], now, xs[|xs| - 1]);
      }
    }
  }

  lemma {:induction false} ChainSettles(xs: seq<Word>)
    requires xs != [] && AllEvidence(xs)
    requires forall a, b :: a in xs && b in xs ==> Move(a, b) || Move(b, a)
    ensures Settle(xs).Some? && Settle(xs).value in xs
    ensures forall w :: w in xs ==> Move(w, Settle(xs).value)
  {
    if |xs| > 1 {
      var front, x := xs[..|xs| - 1], xs[|xs| - 1];
      assert xs == front + [x];
      ChainSettles(front);
      var now := Settle(front).value;
      assert now in xs && x in xs;
      forall w | w in xs ensures Move(w, Settle(xs).value) {
        var i :| 0 <= i < |xs| && xs[i] == w;
        MovesArePartialOrder(w, now, x);
      }
    }
  }

  lemma {:induction false} SomeListing(s: set<Word>) returns (xs: seq<Word>)
    ensures Lists(xs, s)
  {
    if s == {} {
      xs := [];
    } else {
      var w :| w in s;
      var rest := SomeListing(s - {w});
      xs := rest + [w];
    }
  }

  ghost predicate OrderInsensitive(s: set<Word>) {
    forall xs, ys :: Lists(xs, s) && Lists(ys, s) ==> Settle(xs) == Settle(ys)
  }

  /**
   Every order, with any duplicates, of a set of evidence ends alike exactly when the
   set is a chain of the allowed moves; the end is then the maximum of the chain.
   */
  lemma OrderInsensitiveIffChain(s: set<Word>)
    requires forall w :: w in s ==> IsEvidence(w)
    ensures OrderInsensitive(s) <==> Chain(s)
    ensures Chain(s) ==> forall xs :: Lists(xs, s) && xs != [] ==> Settle(xs).Some? && IsMaximum(s, Settle(xs).value)
  {
    hide Move;
    if Chain(s) {
      forall xs | Lists(xs, s) && xs != []
        ensures Settle(xs).Some? && IsMaximum(s, Settle(xs).value)
      {
        ListsEvidence(xs, s);
        ChainSettles(xs);
      }
      forall xs, ys | Lists(xs, s) && Lists(ys, s) ensures Settle(xs) == Settle(ys) {
        SameEnd(xs, ys, s);
      }
    } else {
      var a, b :| a in s && b in s && !Move(a, b) && !Move(b, a);
      var rest := SomeListing(s);
      var xs, ys := [a, b] + rest, [b, a] + rest;
      ListsEvidence(xs, s);
      ListsEvidence(ys, s);
      SettleAbove(xs);
      SettleAbove(ys);
      MovesArePartialOrder(a, b, Settle(xs).value);
      assert Lists(xs, s) && Lists(ys, s) && Settle(xs) != Settle(ys);
    }
  }

  lemma ListsEvidence(xs: seq<Word>, s: set<Word>)
    requires Lists(xs, s) && forall w :: w in s ==> IsEvidence(w)
    ensures AllEvidence(xs)
  {
    forall i | 0 <= i < |xs| ensures IsEvidence(xs[i]) {
      assert xs[i] in xs;
    }
  }

  lemma SameEnd(xs: seq<Word>, ys: seq<Word>, s: set<Word>)
    requires Lists(xs, s) && Lists(ys, s) && Chain(s) && forall w :: w in s ==> IsEvidence(w)
    ensures Settle(xs) == Settle(ys)
  {
    ListsEvidence(xs, s);
    ListsEvidence(ys, s);
    if xs != [] {
      assert xs[0] in ys;
    }
    if ys != [] {
      assert ys[0] in xs;
    }
    if xs != [] {
      ChainSettles(xs);
      ChainSettles(ys);
      MovesArePartialOrder(Settle(xs).value, Settle(ys).value, Settle(ys).value);
    }
  }

  /**
   Delivered to an intent that awaits reconciliation, in any order and with any repetitions,
   a chain of evidence for one broker id leaves the row with that id and the chain's maximum.
   */
  lemma ChainEndsInMaximum(t: Table, id: string, brokerId: string, xs: seq<Word>, s: set<Word>)
    requires Valid(t) && id in t && t[id].status == ReconciliationRequired
    requires brokerId != "" && SoleOwner(t, id, brokerId)
    requires Chain(s) && xs != [] && Lists(xs, s) && forall w :: w in s ==> IsEvidence(w)
    ensures var r := Run(t, Deliveries(id, brokerId, xs));
            && id in r && r == t[id := t[id].(brokerId := Some(brokerId), status := r[id].status)]
            && IsMaximum(s, r[id].status)
  {
    hide Valid, Move, Apply;
    ListsEvidence(xs, s);
    DeliveriesSettle(t, id, brokerId, xs);
    OrderInsensitiveIffChain(s);
  }
}
