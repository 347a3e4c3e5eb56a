/**
 * The outbox that submits approved withdrawals: one pass takes a snapshot of the pending table,
 * submits every row and commits the removals only at the end.
 */
module Outbox {
  import opened Multispend

  /** The federation's transfer endpoint: what it answers is outside this model, what it is sent is not. */
  class Federations {
    ghost var submitted: seq<PendingRow>   // every transfer that was asked for, in order
    ghost var accepted: seq<PendingRow>    // those that were answered with an operation id

    constructor ()
      ensures submitted == [] && accepted == []
    {
      submitted, accepted := [], [];
    }

    /** `answer` is the federation's own decision. */
    method Transfer(row: PendingRow, answer: bool) returns (ok: bool)
      modifies this
      ensures ok == answer
      ensures submitted == old(submitted) + [row]
      ensures accepted == if ok then old(accepted) + [row] else old(accepted)
    {
      submitted := submitted + [row];
      if answer { accepted := accepted + [row]; }
      ok := answer;
    }
  }

  /** How many rows of a pass are submitted: up to and including the first refused one. */
  ghost function Attempted(answers: seq<bool>): (n: nat)
    ensures n <= |answers|
  {
    if answers == [] then 0
    else if answers[0] then 1 + Attempted(answers[1..])
    else 1
  }

  ghost predicate AllAccepted(answers: seq<bool>) {
    forall i :: 0 <= i < |answers| ==> answers[i]
  }

  lemma {:induction false} AttemptedAll(answers: seq<bool>)
    requires AllAccepted(answers)
    ensures Attempted(answers) == |answers|
  {
    if answers != [] {
      assert AllAccepted(answers[1..]);
      AttemptedAll(answers[1..]);
    }
  }

  lemma {:induction false} AttemptedUntilRefusal(answers: seq<bool>, k: nat)
    requires k < |answers| && !answers[k] && forall i :: 0 <= i < k ==> answers[i]
    ensures Attempted(answers) == k + 1
  {
    if k != 0 {
      AttemptedUntilRefusal(answers[1..], k - 1);
    }
  }

  /** The rows of the pass, each once, in the order the database returns them. */
  ghost predicate Lists(rows: seq<PendingRow>, table: set<PendingRow>) {
    && (forall r :: r in table <==> r in rows)
    && (forall i, j :: 0 <= i < j < |rows| ==> rows[i] != rows[j])
  }

  class WithdrawalService {
    var pending: set<PendingRow>   // the committed pending table

    constructor (stored: set<PendingRow>)
      ensures pending == stored
    {
      pending := stored;
    }

    /**
     * One pass over the rows in `order`; `answers` is what the federations would reply and `added`
     * is what the scanner commits to the table while the pass runs. A refusal ends the pass without
     * a commit, so the table then keeps every row; a full pass removes exactly the snapshot.
     */
    method RunOnce(federations: Federations, order: seq<PendingRow>, answers: seq<bool>, added: set<PendingRow>)
      returns (ok: bool)
      requires Lists(order, pending) && |answers| == |order| && added !! pending
      modifies this, federations
      ensures ok <==> AllAccepted(answers)
      ensures pending == if ok then added else old(pending) + added
      ensures federations.submitted == old(federations.submitted) + order[..Attempted(answers)]
      ensures ok ==> federations.accepted == old(federations.accepted) + order
      ensures !ok ==> federations.accepted == old(federations.accepted) + order[..Attempted(answers) - 1]
    {
      var snapshot := pending;
      var removed: set<PendingRow> := {};
      var before, acceptedBefore := federations.submitted, federations.accepted;
      pending := pending + added;
      var i := 0;
      while i < |order|
        invariant 0 <= i <= |order|
        invariant forall r :: r in removed <==> r in order[..i]
        invariant forall k :: 0 <= k < i ==> answers[k]
        invariant federations.submitted == before + order[..i]
        invariant federations.accepted == acceptedBefore + order[..i]
        invariant pending == snapshot + added
      {
        removed := removed + {order[i]};
        assert order[..i + 1] == order[..i] + [order[i]];
        var accepted := federations.Transfer(order[i], answers[i]);
        if !accepted {
          AttemptedUntilRefusal(answers, i);
          return false;
        }
        i := i + 1;
      }
      AttemptedAll(answers);
      assert order[..|order|] == order;
      pending := pending - removed;
      assert removed == snapshot;
      return true;
    }
  }

  // ---------------------------------------------------------------- over many passes

  /** One pass as a value: what it listed, what was answered, and what the scanner added meanwhile. */
  datatype Pass = Pass(order: seq<PendingRow>, answers: seq<bool>, added: set<PendingRow>)

  ghost predicate PassFits(pending: set<PendingRow>, p: Pass) {
    Lists(p.order, pending) && |p.answers| == |p.order| && p.added !! pending
  }

  ghost function AfterPass(pending: set<PendingRow>, p: Pass): set<PendingRow> {
    if AllAccepted(p.answers) then p.added else pending + p.added
  }

  ghost function AfterPasses(pending: set<PendingRow>, passes: seq<Pass>): set<PendingRow> {
    if passes == [] then pending
    else AfterPass(AfterPasses(pending, passes[..|passes| - 1]), passes[|passes| - 1])
  }

  ghost predicate PassesFit(pending: set<PendingRow>, passes: seq<Pass>) {
    passes == [] || (
      var front := passes[..|passes| - 1];
      PassesFit(pending, front) && PassFits(AfterPasses(pending, front), passes[|passes| - 1]))
  }

  /** `row` was in this pass's snapshot and every transfer of the pass was accepted. */
  ghost predicate Submits(p: Pass, row: PendingRow) {
    row in p.order && AllAccepted(p.answers)
  }

  /**
   * A row that was pending leaves the table if and only if some committed pass listed it with every
   * transfer of that pass accepted; so nothing is dropped unsubmitted.
   */
  lemma {:induction false} LeavesOnlyWhenSubmitted(pending: set<PendingRow>, passes: seq<Pass>, row: PendingRow)
    requires PassesFit(pending, passes) && row in pending
    requires forall k :: 0 <= k < |passes| ==> row !in passes[k].added
    ensures row !in AfterPasses(pending, passes) <==>
            exists k :: 0 <= k < |passes| && Submits(passes[k], row)
  {
    if passes != [] {
      var front, last := passes[..|passes| - 1], passes[|passes| - 1];
      assert forall k :: 0 <= k < |front| ==> front[k] == passes[k];
      LeavesOnlyWhenSubmitted(pending, front, row);
      var before := AfterPasses(pending, front);
      if row in before {
        assert row in last.order;
        if AllAccepted(last.answers) {
          assert Submits(passes[|passes| - 1], row);
        }
      } else {
        var k :| 0 <= k < |front| && Submits(front[k], row);
        assert Submits(passes[k], row);
      }
    }
  }
}
