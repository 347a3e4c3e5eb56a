/**
 * Which refund issuance belongs to which quote: the claim written before a refund is credited, the
 * mark written after, and the signatures merged in by whoever collected them meanwhile.
 */
module RefundClaims {
  import opened Options

  type QuoteId = nat
  type IssuanceHash = nat
  type Signatures = seq<nat>

  datatype Row = Row(signatures: Option<Signatures>, claimed: Option<IssuanceHash>, credited: Option<IssuanceHash>)

  datatype Journal = Journal(rows: map<QuoteId, Row>, claims: map<IssuanceHash, QuoteId>)

  const EMPTY := Journal(map[], map[])

  /** One committed database transaction. */
  datatype Op =
    | Fund(quote: QuoteId)
    | Guard(quote: QuoteId, hash: IssuanceHash)
    | RecordCredit(quote: QuoteId, hash: IssuanceHash)
    | PersistSignatures(quote: QuoteId, signatures: Signatures)

  /** Whether its checks pass; when one fails, nothing is written. */
  predicate Permitted(j: Journal, op: Op) {
    match op
    case Fund(quote) => quote !in j.rows
    case Guard(quote, hash) =>
      && (hash in j.claims ==> j.claims[hash] == quote)
      && quote in j.rows && (j.rows[quote].claimed.None? || j.rows[quote].claimed == Some(hash))
    case RecordCredit(quote, hash) =>
      && quote in j.rows && j.rows[quote].claimed == Some(hash)
      && (j.rows[quote].credited.None? || j.rows[quote].credited == Some(hash))
    case PersistSignatures(quote, signatures) =>
      quote in j.rows && (j.rows[quote].signatures.None? || j.rows[quote].signatures == Some(signatures))
  }

  /** The journal an operation leaves, written from scratch or on top of the newest row. */
  function After(j: Journal, op: Op): Journal {
    if !Permitted(j, op) then j
    else
      match op
      case Fund(quote) => j.(rows := j.rows[quote := Row(None, None, None)])
      case Guard(quote, hash) =>
        Journal(j.rows[quote := j.rows[quote].(claimed := Some(hash))], j.claims[hash := quote])
      case RecordCredit(quote, hash) =>
        j.(rows := j.rows[quote := j.rows[quote].(credited := Some(hash))])
      case PersistSignatures(quote, signatures) =>
        j.(rows := j.rows[quote := j.rows[quote].(signatures := Some(signatures))])
  }

  class RefundJournal {
    var rows: map<QuoteId, Row>
    var claims: map<IssuanceHash, QuoteId>

    ghost function View(): Journal
      reads this
    {
      Journal(rows, claims)
    }

    constructor ()
      ensures View() == EMPTY
    {
      rows := map[];
      claims := map[];
    }

    /** `guard_refund_settlement`: one transaction, rolled back as a whole when a check fails. */
    method GuardRefundSettlement(quote: QuoteId, hash: IssuanceHash) returns (ok: bool)
      modifies this
      ensures ok == Permitted(old(View()), Guard(quote, hash))
      ensures View() == After(old(View()), Guard(quote, hash))
    {
      var pendingClaims := claims;
      if hash in claims {
        if claims[hash] != quote {
          return false;
        }
      } else {
        pendingClaims := pendingClaims[hash := quote];
      }
      if quote !in rows {
        return false;
      }
      var row := rows[quote];
      if row.claimed.Some? && row.claimed.value != hash {
        return false;
      }
      claims := pendingClaims;
      rows := rows[quote := row.(claimed := Some(hash))];
      assert claims == old(claims)[hash := quote];
      return true;
    }

    method RecordRefundCreditCompleted(quote: QuoteId, hash: IssuanceHash) returns (ok: bool)
      modifies this
      ensures ok == Permitted(old(View()), RecordCredit(quote, hash))
      ensures View() == After(old(View()), RecordCredit(quote, hash))
    {
      if quote !in rows {
        return false;
      }
      var row := rows[quote];
      if row.claimed != Some(hash) {
        return false;
      }
      if row.credited.Some? {
        if row.credited.value != hash {
          return false;
        }
        assert rows == rows[quote := row.(credited := Some(hash))];
        return true;
      }
      rows := rows[quote := row.(credited := Some(hash))];
      return true;
    }

    /** `persist_journal_signatures` reads the row again and touches only its signatures. */
    method PersistJournalSignatures(quote: QuoteId, signatures: Signatures)
      modifies this
      ensures View() == After(old(View()), PersistSignatures(quote, signatures))
    {
      if quote !in rows {
        return;
      }
      var row := rows[quote];
      if row.signatures.Some? {
        // other signatures are left alone, the same ones need no write
        assert row.signatures == Some(signatures) ==> rows == rows[quote := row.(signatures := Some(signatures))];
        return;
      }
      rows := rows[quote := row.(signatures := Some(signatures))];
    }
  }

  // ---------------------------------------------------------------- whole histories

  /** The two tables name each other, and only what was claimed is ever marked credited. */
  ghost predicate Consistent(j: Journal) {
    && (forall h :: h in j.claims ==> j.claims[h] in j.rows && j.rows[j.claims[h]].claimed == Some(h))
    && (forall q :: q in j.rows && j.rows[q].claimed.Some? ==>
          j.rows[q].claimed.value in j.claims && j.claims[j.rows[q].claimed.value] == q)
    && (forall q :: q in j.rows && j.rows[q].credited.Some? ==> j.rows[q].credited == j.rows[q].claimed)
  }

  /** Claims, credit marks and signatures are permanent. */
  ghost predicate Extends(j: Journal, j': Journal) {
    && (forall h :: h in j.claims ==> h in j'.claims && j'.claims[h] == j.claims[h])
    && (forall q :: q in j.rows ==>
          && q in j'.rows
          && (j.rows[q].claimed.Some? ==> j'.rows[q].claimed == j.rows[q].claimed)
          && (j.rows[q].credited.Some? ==> j'.rows[q].credited == j.rows[q].credited)
          && (j.rows[q].signatures.Some? ==> j'.rows[q].signatures == j.rows[q].signatures))
  }

  lemma AfterKeeps(j: Journal, op: Op)
    requires Consistent(j)
    ensures Consistent(After(j, op)) && Extends(j, After(j, op))
  {
  }

  function Run(j: Journal, ops: seq<Op>): Journal
    decreases |ops|
  {
    if ops == [] then j else Run(After(j, ops[0]), ops[1..])
  }

  lemma {:induction false} RunKeeps(j: Journal, ops: seq<Op>)
    requires Consistent(j)
    ensures Consistent(Run(j, ops)) && Extends(j, Run(j, ops))
    decreases |ops|
  {
    hide After;
    if ops != [] {
      AfterKeeps(j, ops[0]);
      RunKeeps(After(j, ops[0]), ops[1..]);
    }
  }

  /**
   * Over any history of settlements, signature merges and crashes between them, one refund issuance
   * is credited under at most one quote, a quote credits at most one issuance, and neither the claim
   * nor the mark is ever lost: a settlement whose guard passed can always still be recorded.
   */
  lemma OneIssuancePerQuote(before: seq<Op>, more: seq<Op>, q: QuoteId, r: QuoteId, h: IssuanceHash)
    ensures var j, j' := Run(EMPTY, before), Run(Run(EMPTY, before), more);
      && (q in j.rows && r in j'.rows && j.rows[q].credited == Some(h) && j'.rows[r].credited == Some(h) ==> q == r)
      && (q in j.rows && j.rows[q].credited == Some(h) ==> q in j'.rows && j'.rows[q].credited == Some(h))
      && (q in j.rows && j.rows[q].claimed == Some(h) ==> Permitted(j', RecordCredit(q, h)))
  {
    RunKeeps(EMPTY, before);
    RunKeeps(Run(EMPTY, before), more);
  }

  /** After a guard passed for one quote, no other quote's guard passes for the same issuance, ever. */
  lemma GuardIsExclusive(before: seq<Op>, more: seq<Op>, q: QuoteId, r: QuoteId, h: IssuanceHash)
    requires Permitted(Run(EMPTY, before), Guard(q, h))
    ensures var j' := Run(After(Run(EMPTY, before), Guard(q, h)), more);
      Permitted(j', Guard(r, h)) <==> r == q
  {
    var j := Run(EMPTY, before);
    RunKeeps(EMPTY, before);
    AfterKeeps(j, Guard(q, h));
    var j1 := After(j, Guard(q, h));
    assert h in j1.claims && j1.claims[h] == q;
    RunKeeps(j1, more);
  }

  lemma {:induction false} RunConcat(j: Journal, a: seq<Op>, b: seq<Op>)
    ensures Run(j, a + b) == Run(Run(j, a), b)
    decreases |a|
  {
    hide After;
    if a == [] {
      assert a + b == b;
    } else {
      assert (a + b)[0] == a[0] && (a + b)[1..] == a[1..] + b;
      RunConcat(After(j, a[0]), a[1..], b);
    }
  }

  lemma RunLast(ops: seq<Op>)
    requires ops != []
    ensures Run(EMPTY, ops) == After(Run(EMPTY, ops[..|ops| - 1]), ops[|ops| - 1])
  {
    hide After;
    var front, last := ops[..|ops| - 1], ops[|ops| - 1];
    assert ops == front + [last] && [last][1..] == [];
    RunConcat(EMPTY, front, [last]);
    var j := Run(EMPTY, front);
    assert Run(j, [last]) == Run(After(j, last), []);
  }

  /** The `k`-th operation is the first guard that could claim `h` for `q`. */
  ghost predicate ClaimsAt(ops: seq<Op>, k: nat, q: QuoteId, h: IssuanceHash)
    requires k < |ops|
  {
    var j := Run(EMPTY, ops[..k]);
    ops[k] == Guard(q, h) && q in j.rows && j.rows[q].claimed.None? && h !in j.claims
  }

  /** It is the first mark of `h` under a `q` that has claimed it. */
  ghost predicate CreditsAt(ops: seq<Op>, k: nat, q: QuoteId, h: IssuanceHash)
    requires k < |ops|
  {
    var j := Run(EMPTY, ops[..k]);
    ops[k] == RecordCredit(q, h) && q in j.rows && j.rows[q].claimed == Some(h)
  }

  /** It brings the first signatures of a funded `q`. */
  ghost predicate SignsAt(ops: seq<Op>, k: nat, q: QuoteId, s: Signatures)
    requires k < |ops|
  {
    var j := Run(EMPTY, ops[..k]);
    ops[k] == PersistSignatures(q, s) && q in j.rows && j.rows[q].signatures.None?
  }

  /** How a row comes to be what it is in one operation. */
  lemma AfterMeans(j: Journal, op: Op, q: QuoteId)
    requires Consistent(j)
    ensures var j' := After(j, op);
      && (q in j'.rows <==> q in j.rows || op == Fund(q))
      && (q in j'.rows && q !in j.rows ==> j'.rows[q] == Row(None, None, None))
      && (q in j.rows ==>
            && (forall h: nat :: j'.rows[q].claimed == Some(h) <==>
                  j.rows[q].claimed == Some(h)
                    || (op == Guard(q, h) && j.rows[q].claimed.None? && h !in j.claims))
            && (forall h: nat :: j'.rows[q].credited == Some(h) <==>
                  j.rows[q].credited == Some(h) || (op == RecordCredit(q, h) && j.rows[q].claimed == Some(h)))
            && (forall s :: j'.rows[q].signatures == Some(s) <==>
                  j.rows[q].signatures == Some(s)
                    || (op == PersistSignatures(q, s) && j.rows[q].signatures.None?)))
  {
  }

  /** A quote has a row exactly when it was funded. */
  lemma {:induction false} FundedHasRow(ops: seq<Op>, q: QuoteId)
    ensures q in Run(EMPTY, ops).rows <==> exists k: nat :: k < |ops| && ops[k] == Fund(q)
    decreases |ops|
  {
    if ops != [] {
      hide Run;
      var n := |ops| - 1;
      var front := ops[..n];
      FundedHasRow(front, q);
      RunKeeps(EMPTY, front);
      RunLast(ops);
      AfterMeans(Run(EMPTY, front), ops[n], q);
      hide After;
      assert forall k: nat :: k < n ==> front[k] == ops[k];
      assert ops[n] == ops[|ops| - 1];
    }
  }

  /** A quote has claimed the issuance of the first guard that named one nobody had claimed. */
  lemma {:induction false} ClaimFollowsHistory(ops: seq<Op>, q: QuoteId, h: IssuanceHash)
    ensures var j := Run(EMPTY, ops);
      q in j.rows && j.rows[q].claimed == Some(h) <==> exists k: nat :: k < |ops| && ClaimsAt(ops, k, q, h)
    decreases |ops|
  {
    if ops != [] {
      hide Run;
      var n := |ops| - 1;
      var front := ops[..n];
      ClaimFollowsHistory(front, q, h);
      RunKeeps(EMPTY, front);
      RunLast(ops);
      AfterMeans(Run(EMPTY, front), ops[n], q);
      hide After;
      assert forall k: nat :: k < n ==> front[..k] == ops[..k] && front[k] == ops[k];
      assert forall k: nat :: k < n ==> ClaimsAt(front, k, q, h) == ClaimsAt(ops, k, q, h);
      var j := Run(EMPTY, front);
      assert ClaimsAt(ops, n, q, h)
        <==> ops[n] == Guard(q, h) && q in j.rows && j.rows[q].claimed.None? && h !in j.claims;
      hide ClaimsAt;
    }
  }

  /** An issuance is marked credited exactly when a mark named it after the quote had claimed it. */
  lemma {:induction false} CreditFollowsHistory(ops: seq<Op>, q: QuoteId, h: IssuanceHash)
    ensures var j := Run(EMPTY, ops);
      q in j.rows && j.rows[q].credited == Some(h) <==> exists k: nat :: k < |ops| && CreditsAt(ops, k, q, h)
    decreases |ops|
  {
    if ops != [] {
      hide Run;
      var n := |ops| - 1;
      var front := ops[..n];
      CreditFollowsHistory(front, q, h);
      RunKeeps(EMPTY, front);
      RunLast(ops);
      AfterMeans(Run(EMPTY, front), ops[n], q);
      hide After;
      assert forall k: nat :: k < n ==> front[..k] == ops[..k] && front[k] == ops[k];
      assert forall k: nat :: k < n ==> CreditsAt(front, k, q, h) == CreditsAt(ops, k, q, h);
      var j := Run(EMPTY, front);
      assert CreditsAt(ops, n, q, h)
        <==> ops[n] == RecordCredit(q, h) && q in j.rows && j.rows[q].claimed == Some(h);
      hide CreditsAt;
    }
  }

  /** A quote keeps the first signatures that were merged in after it was funded. */
  lemma {:induction false} SignaturesFollowHistory(ops: seq<Op>, q: QuoteId, s: Signatures)
    ensures var j := Run(EMPTY, ops);
      q in j.rows && j.rows[q].signatures == Some(s) <==> exists k: nat :: k < |ops| && SignsAt(ops, k, q, s)
    decreases |ops|
  {
    if ops != [] {
      hide Run;
      var n := |ops| - 1;
      var front := ops[..n];
      SignaturesFollowHistory(front, q, s);
      RunKeeps(EMPTY, front);
      RunLast(ops);
      AfterMeans(Run(EMPTY, front), ops[n], q);
      hide After;
      assert forall k: nat :: k < n ==> front[..k] == ops[..k] && front[k] == ops[k];
      assert forall k: nat :: k < n ==> SignsAt(front, k, q, s) == SignsAt(ops, k, q, s);
      var j := Run(EMPTY, front);
      assert SignsAt(ops, n, q, s)
        <==> ops[n] == PersistSignatures(q, s) && q in j.rows && j.rows[q].signatures.None?;
      hide SignsAt;
    }
  }

  /**
   * A settlement goes through: once its guard has claimed an unclaimed issuance for a funded quote, the
   * credit is marked whatever happened in between, and both stay.
   */
  lemma SettlementCompletes(before: seq<Op>, between: seq<Op>, more: seq<Op>, q: QuoteId, h: IssuanceHash)
    requires var j := Run(EMPTY, before); q in j.rows && j.rows[q].claimed.None? && h !in j.claims
    ensures var j := Run(EMPTY, before + [Guard(q, h)] + between + [RecordCredit(q, h)] + more);
      && q in j.rows && j.rows[q].claimed == Some(h) && j.rows[q].credited == Some(h)
      && h in j.claims && j.claims[h] == q
  {
    var a := before + [Guard(q, h)];
    var b := a + between;
    var c := b + [RecordCredit(q, h)];
    assert a[..|before|] == before && c[..|b|] == b;
    RunLast(a);
    RunKeeps(EMPTY, before);
    AfterMeans(Run(EMPTY, before), Guard(q, h), q);
    RunConcat(EMPTY, a, between);
    RunKeeps(EMPTY, a);
    RunKeeps(Run(EMPTY, a), between);
    RunLast(c);
    AfterMeans(Run(EMPTY, b), RecordCredit(q, h), q);
    RunConcat(EMPTY, c, more);
    hide After;
    hide Run;
    RunKeeps(EMPTY, c);
    RunKeeps(Run(EMPTY, c), more);
  }
}
