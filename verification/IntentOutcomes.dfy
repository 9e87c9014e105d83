/**
 What each of the three statements answers and leaves, on every table the protocol can reach, and
 which spellings of a logical key are one key.
 */
module IntentOutcomes {
  import opened Wrappers
  import opened StatusWords
  import opened SubmissionIntents

  // ----- spellings of a key

  predicate Blank(s: string) {
    forall i :: 0 <= i < |s| ==> s[i] == ' ' || s[i] == '\t' || s[i] == '\r' || s[i] == '\n'
  }

  /** Nothing, or text that neither begins nor ends with a blank. */
  predicate Trimmed(s: string) { s == "" || (!Blank(s[..1]) && !Blank(s[|s| - 1..])) }

  predicate SameLetter(x: char, y: char) {
    || x == y
    || ('a' <= x <= 'z' && y == x - 'a' + 'A')
    || ('a' <= y <= 'z' && x == y - 'a' + 'A')
  }

  /** Equal up to the case of their letters. */
  predicate SameLetters(a: string, b: string) {
    |a| == |b| && forall i :: 0 <= i < |a| ==> SameLetter(a[i], b[i])
  }

  lemma UpperIff(a: string, b: string)
    ensures Upper(a) == Upper(b) <==> SameLetters(a, b)
  {
    if Upper(a) == Upper(b) {
      forall i | 0 <= i < |a| ensures SameLetter(a[i], b[i]) {
        assert Upper(a)[i] == Upper(b)[i];
      }
    }
  }

  lemma {:induction false} StripLeftOf(pre: string, s: string)
    requires Blank(pre) && (s == "" || !Blank(s[..1]))
    ensures StripLeft(pre + s) == s
  {
    if pre == "" {
      assert pre + s == s;
      assert s != "" ==> s[..1][0] == s[0];
    } else {
      assert (pre + s)[1..] == pre[1..] + s;
      StripLeftOf(pre[1..], s);
    }
  }

  lemma {:induction false} StripRightOf(s: string, post: string)
    requires Blank(post) && (s == "" || !Blank(s[|s| - 1..]))
    ensures StripRight(s + post) == s
  {
    if post == "" {
      assert s + post == s;
      assert s != "" ==> s[|s| - 1..][0] == s[|s| - 1];
    } else {
      assert (s + post)[..|s + post| - 1] == s + post[..|post| - 1];
      StripRightOf(s, post[..|post| - 1]);
    }
  }

  lemma StripOf(pre: string, core: string, post: string)
    requires Blank(pre) && Blank(post) && Trimmed(core)
    ensures Strip(pre + core + post) == core
  {
    if core == "" {
      assert pre + core + post == "" + (pre + post);
      StripRightOf("", pre + post);
      StripLeftOf("", "");
    } else {
      assert (pre + core)[|pre + core| - 1..] == core[|core| - 1..];
      StripRightOf(pre + core, post);
      StripLeftOf(pre, core);
    }
  }

  /** Every key is some trimmed text between blanks. */
  lemma {:induction false} SpellingOf(s: string) returns (pre: string, core: string, post: string)
    ensures s == pre + core + post && Blank(pre) && Blank(post) && Trimmed(core)
    decreases |s|
  {
    if s == "" || Trimmed(s) {
      return "", s, "";
    }
    if Blank(s[..1]) {
      pre, core, post := SpellingOf(s[1..]);
      pre := s[..1] + pre;
    } else {
      pre, core, post := SpellingOf(s[..|s| - 1]);
      post := post + s[|s| - 1..];
    }
  }

  /** Two spellings are one key exactly when their trimmed texts are equal up to case. */
  lemma SpellingsCollideIff(pre: string, core: string, post: string, pre': string, core': string, post': string)
    requires Blank(pre) && Blank(post) && Trimmed(core) && Blank(pre') && Blank(post') && Trimmed(core')
    ensures NormalKey(pre + core + post) == NormalKey(pre' + core' + post') <==> SameLetters(core, core')
  {
    hide Strip, Upper;
    StripOf(pre, core, post);
    StripOf(pre', core', post');
    UpperIff(core, core');
  }

  // ----- the three statements

  /** An order that may still be at the broker. */
  predicate Unresolved(w: Word) {
    || w == Claimed || w == ReconciliationRequired || w == Submitted || w == Open || w == PartiallyFilled
  }

  /** Nothing goes back, a part fill can no longer be rejected, and an end is final. */
  predicate Follows(from: Word, to: Word) {
    || from == to
    || from == Submitted
    || (from == Open && to != Submitted)
    || (from == PartiallyFilled && (to == Filled || to == Cancelled))
  }

  /** A claim succeeds exactly for a new order whose correlation is unused and whose key no unresolved order has. */
  lemma ClaimIff(t: Table, id: string, logicalKey: string, correlation: string)
    ensures var (t', error) := Apply(t, Claim(id, logicalKey, correlation));
            && (error == Some(IdAndKeyRequired) <==> id == "" || logicalKey == "")
            && (error.None?
                <==> && id != "" && logicalKey != "" && id !in t
                     && (forall other :: other in t ==> t[other].correlation != correlation)
                     && (forall other :: other in t && Unresolved(t[other].status) ==>
                           t[other].key != NormalKey(logicalKey)))
            && (error.Some? ==> t' == t && error.value in {IdAndKeyRequired, DuplicateOrUnresolvedIntent})
            && (error.None? ==> t' == t[id := Row(NormalKey(logicalKey), correlation, None, Claimed)])
  {
    hide NormalKey;
  }

  /** The send boundary is crossed exactly from `claimed`, and nothing else of the row moves. */
  lemma MarkIff(t: Table, id: string)
    ensures var (t', error) := Apply(t, Mark(id));
            if id in t && t[id].status == Claimed
            then error.None? && t' == t[id := Row(t[id].key, t[id].correlation, t[id].brokerId, ReconciliationRequired)]
            else error == Some(IntentNotClaimed) && t' == t
  {
  }

  /** The row awaits its broker id, or has this one and the status may follow. */
  predicate Awaits(row: Row, brokerId: string, status: Word) {
    || row.status == ReconciliationRequired
    || (row.brokerId == Some(brokerId) && Follows(row.status, status))
  }

  /**
   Evidence is recorded exactly for a named broker order and a known status, on a row that awaits it, when no other
   row owns the broker id; the row then holds both, and every other row is as it was.
   */
  lemma EvidenceIff(t: Table, id: string, brokerId: string, status: Word)
    requires Valid(t)
    ensures var (t', error) := Apply(t, Evidence(id, brokerId, status));
            var known := status in {Submitted, Open, PartiallyFilled, Filled, Cancelled, Rejected};
            var owned := exists other :: other in t && other != id && t[other].brokerId == Some(brokerId);
            if brokerId == "" || !known then t' == t && error == Some(AuthoritativeEvidenceRequired)
            else if id !in t || !Awaits(t[id], brokerId, status)
                then t' == t && error == Some(NotAwaitingReconciliation)
            else if owned then t' == t && error == Some(IntegrityViolation)
            else error.None? && t' == t[id := Row(t[id].key, t[id].correlation, Some(brokerId), status)]
  {
    hide FitsIndexes;
    if id in t {
      assert ValidRow(t[id]);
      if brokerId != "" && IsEvidence(status) && EvidenceGuard(t[id], brokerId, status) {
        EvidenceIntegrity(t, id, brokerId, status);
      }
    }
  }

  // ----- one key over a run

  /** A row keeps the key it was claimed with. */
  lemma ClaimedKey(t: Table, calls: seq<Call>, i: nat, j: nat)
    requires i < j <= |calls| && calls[i].Claim? && Succeeds(t, calls, i)
    ensures var id := calls[i].localId;
            id in Run(t, calls[..j]) && Run(t, calls[..j])[id].key == NormalKey(calls[i].logicalKey)
  {
    hide NormalKey;
    RunStep(t, calls, i);
    ClaimIff(Run(t, calls[..i]), calls[i].localId, calls[i].logicalKey, calls[i].correlation);
    EvolvesBetween(t, calls, i + 1, j, calls[i].localId);
  }

  /**
   Whatever other calls come between, no second order of a key is claimed while the first is unresolved, however
   either of them spells the key.
   */
  lemma NoSecondClaim(t: Table, calls: seq<Call>, i: nat, j: nat, pre: string, core: string, post: string,
                      pre': string, core': string, post': string)
    requires i < j < |calls| && calls[i].Claim? && calls[j].Claim? && Succeeds(t, calls, i)
    requires Blank(pre) && Blank(post) && Trimmed(core) && Blank(pre') && Blank(post') && Trimmed(core')
    requires calls[i].logicalKey == pre + core + post && calls[j].logicalKey == pre' + core' + post'
    requires SameLetters(core, core')
    ensures calls[i].localId in Run(t, calls[..j])
    ensures Unresolved(Run(t, calls[..j])[calls[i].localId].status) ==>
              !Succeeds(t, calls, j) && Run(t, calls[..j + 1]) == Run(t, calls[..j])
  {
    hide NormalKey, Apply;
    ClaimedKey(t, calls, i, j);
    SpellingsCollideIff(pre, core, post, pre', core', post');
    ClaimIff(Run(t, calls[..j]), calls[j].localId, calls[j].logicalKey, calls[j].correlation);
    RunStep(t, calls, j);
  }
}
