/**
 * After a rejected seat payment: waiting on the stream of transaction updates until the automatic
 * refunds have restored every note the payment tried to spend. Updates repeat and arrive in any order.
 */
module RefundStream {
  import opened Options

  type TxId = nat
  type Note = nat
  type OperationId = nat

  datatype Input = Input(payer: bool, note: Note)

  /** `primary` says of each output whether it belongs to the payer's mint. */
  datatype Transaction = Transaction(id: TxId, inputs: seq<Input>, primary: seq<bool>)

  datatype State = Created(tx: Transaction) | Accepted(id: TxId) | Rejected(id: TxId) | Unretryable

  datatype Update = Update(operation: OperationId, state: State)

  datatype OutPoint = OutPoint(tx: TxId, index: nat)

  datatype Outcome = Restored(original: Transaction, refunds: seq<Transaction>, awaited: seq<OutPoint>) | Failed

  /** `count_payer_notes`: how often each note is spent; `None` for an input of another module. */
  function PayerNotes(inputs: seq<Input>): Option<multiset<Note>> {
    if inputs == [] then Some(multiset{})
    else
      var last := inputs[|inputs| - 1];
      match PayerNotes(inputs[..|inputs| - 1])
      case None => None
      case Some(notes) => if last.payer then Some(notes + multiset{last.note}) else None
  }

  /** A transaction that could refund part of the payment whose notes are `original`. */
  predicate IsRefundOf(tx: Transaction, original: multiset<Note>) {
    && PayerNotes(tx.inputs).Some? && PayerNotes(tx.inputs).value != multiset{}
    && PayerNotes(tx.inputs).value <= original
    && tx.primary != [] && forall i :: 0 <= i < |tx.primary| ==> tx.primary[i]
  }

  /** The notes that a transaction's inputs name. */
  function Spent(inputs: seq<Input>): multiset<Note> {
    multiset(seq(|inputs|, i requires 0 <= i < |inputs| => inputs[i].note))
  }

  /** Inputs can be counted exactly when all of them are the payer's; then each note counts as often as named. */
  lemma {:induction false} PayerNotesMeans(inputs: seq<Input>)
    ensures PayerNotes(inputs).Some? <==> forall i :: 0 <= i < |inputs| ==> inputs[i].payer
    ensures PayerNotes(inputs).Some? ==> PayerNotes(inputs).value == Spent(inputs)
  {
    if inputs != [] {
      var front, last := inputs[..|inputs| - 1], inputs[|inputs| - 1];
      PayerNotesMeans(front);
      var notes := seq(|front|, i requires 0 <= i < |front| => front[i].note);
      assert seq(|inputs|, i requires 0 <= i < |inputs| => inputs[i].note) == notes + [last.note];
    }
  }

  /** A transaction that only spends the payer's notes, and only into the payer's mint. */
  predicate ReturnsNotes(tx: Transaction) {
    && tx.inputs != [] && (forall i :: 0 <= i < |tx.inputs| ==> tx.inputs[i].payer)
    && tx.primary != [] && (forall i :: 0 <= i < |tx.primary| ==> tx.primary[i])
  }

  function Notes(tx: Transaction): multiset<Note> {
    match PayerNotes(tx.inputs)
    case Some(notes) => notes
    case None => multiset{}
  }

  function SumNotes(txs: seq<Transaction>): multiset<Note> {
    if txs == [] then multiset{} else SumNotes(txs[..|txs| - 1]) + Notes(txs[|txs| - 1])
  }

  function OutputsOf(tx: Transaction): seq<OutPoint> {
    seq(|tx.primary|, (i: nat) => OutPoint(tx.id, i))
  }

  function AllOutputs(txs: seq<Transaction>): seq<OutPoint> {
    if txs == [] then [] else AllOutputs(txs[..|txs| - 1]) + OutputsOf(txs[|txs| - 1])
  }

  predicate DistinctIds(txs: seq<Transaction>) {
    forall i, j :: 0 <= i < j < |txs| ==> txs[i].id != txs[j].id
  }

  ghost predicate Seen(updates: seq<Update>, upTo: nat, state: State)
    requires upTo <= |updates|
  {
    exists j :: 0 <= j < upTo && updates[j].state == state
  }

  /** The stream proves that these accepted transactions gave back exactly the original's notes. */
  ghost predicate Proves(updates: seq<Update>, upTo: nat, original: Transaction, refunds: seq<Transaction>)
    requires upTo <= |updates|
  {
    && Seen(updates, upTo, Created(original))
    && DistinctIds(refunds)
    && (forall k :: 0 <= k < |refunds| ==>
          && refunds[k].id != original.id && IsRefundOf(refunds[k], Notes(original))
          && Seen(updates, upTo, Created(refunds[k])) && Seen(updates, upTo, Accepted(refunds[k].id)))
    && SumNotes(refunds) <= Notes(original)
  }

  /** A stream that delivers `original` and all of `refunds`, in any order and with any repetition. */
  ghost predicate Delivers(updates: seq<Update>, operation: OperationId, original: Transaction,
                           refunds: seq<Transaction>)
  {
    && Genuine(original, refunds)
    && (forall j :: 0 <= j < |updates| ==>
          updates[j].operation == operation && Truthful(updates[j].state, original, refunds))
    && Seen(updates, |updates|, Created(original))
    && (forall k :: 0 <= k < |refunds| ==>
          Seen(updates, |updates|, Created(refunds[k])) && Seen(updates, |updates|, Accepted(refunds[k].id)))
  }

  /** The refunds between them spend every note of the original, once. */
  ghost predicate Genuine(original: Transaction, refunds: seq<Transaction>) {
    && PayerNotes(original.inputs).Some? && Notes(original) != multiset{} && DistinctIds(refunds)
    && (forall k :: 0 <= k < |refunds| ==> refunds[k].id != original.id && IsRefundOf(refunds[k], Notes(original)))
    && SumNotes(refunds) == Notes(original)
  }

  ghost predicate Truthful(state: State, original: Transaction, refunds: seq<Transaction>) {
    match state
    case Created(tx) =>
      && (tx.id == original.id ==> tx == original)
      && (forall k :: 0 <= k < |refunds| && refunds[k].id == tx.id ==> tx == refunds[k])
    case Accepted(id) => IsIdOf(id, refunds)
    case Rejected(id) => !IsIdOf(id, refunds)
    case Unretryable => true
  }

  ghost predicate IsIdOf(id: TxId, refunds: seq<Transaction>) {
    exists k :: 0 <= k < |refunds| && refunds[k].id == id
  }

  lemma SeenLater(updates: seq<Update>, i: nat, j: nat, state: State)
    requires i <= j <= |updates| && Seen(updates, i, state)
    ensures Seen(updates, j, state)
  {
  }

  /** The awaited outputs are all outputs of the refunds. */
  lemma {:induction false} AllOutputsMeans(txs: seq<Transaction>, o: OutPoint)
    ensures o in AllOutputs(txs) <==> exists k :: 0 <= k < |txs| && o.tx == txs[k].id && o.index < |txs[k].primary|
  {
    if txs != [] {
      var front, last := txs[..|txs| - 1], txs[|txs| - 1];
      AllOutputsMeans(front, o);
      assert o in OutputsOf(last) <==> o.tx == last.id && o.index < |last.primary| by {
        if o.tx == last.id && o.index < |last.primary| {
          assert OutputsOf(last)[o.index] == o;
        }
      }
      assert forall k :: 0 <= k < |front| ==> front[k] == txs[k];
    }
  }

  /** Counted refunds return the notes, as their fields say. */
  lemma ProvenReturns(updates: seq<Update>, upTo: nat, original: Transaction, refunds: seq<Transaction>)
    requires upTo <= |updates| && Proves(updates, upTo, original, refunds)
    ensures forall k :: 0 <= k < |refunds| ==>
              ReturnsNotes(refunds[k]) && Notes(refunds[k]) == Spent(refunds[k].inputs)
  {
    hide Seen;
    forall k | 0 <= k < |refunds| ensures ReturnsNotes(refunds[k]) && Notes(refunds[k]) == Spent(refunds[k].inputs) {
      assert IsRefundOf(refunds[k], Notes(original));
      PayerNotesMeans(refunds[k].inputs);
    }
  }

  lemma SumSnoc(txs: seq<Transaction>, tx: Transaction)
    ensures SumNotes(txs + [tx]) == SumNotes(txs) + Notes(tx)
    ensures AllOutputs(txs + [tx]) == AllOutputs(txs) + OutputsOf(tx)
  {
    assert (txs + [tx])[..|txs|] == txs;
  }

  /** The notes spent by those of the transactions whose id is in `ids`. */
  function SumOver(txs: seq<Transaction>, ids: set<TxId>): multiset<Note> {
    if txs == [] then multiset{}
    else
      var last := txs[|txs| - 1];
      SumOver(txs[..|txs| - 1], ids) + if last.id in ids then Notes(last) else multiset{}
  }

  lemma {:induction false} SumOverStranger(txs: seq<Transaction>, ids: set<TxId>, id: TxId)
    requires forall i :: 0 <= i < |txs| ==> txs[i].id != id
    ensures SumOver(txs, ids + {id}) == SumOver(txs, ids)
  {
    if txs != [] {
      SumOverStranger(txs[..|txs| - 1], ids, id);
    }
  }

  lemma {:induction false} SumOverAdd(txs: seq<Transaction>, ids: set<TxId>, k: nat)
    requires DistinctIds(txs) && k < |txs| && txs[k].id !in ids
    ensures SumOver(txs, ids + {txs[k].id}) == SumOver(txs, ids) + Notes(txs[k])
  {
    var front := txs[..|txs| - 1];
    if k == |txs| - 1 {
      SumOverStranger(front, ids, txs[k].id);
    } else {
      SumOverAdd(front, ids, k);
    }
  }

  lemma {:induction false} SumOverBounds(txs: seq<Transaction>, ids: set<TxId>)
    ensures SumOver(txs, ids) <= SumNotes(txs)
    ensures (forall k :: 0 <= k < |txs| ==> txs[k].id in ids) ==> SumOver(txs, ids) == SumNotes(txs)
  {
    if txs != [] {
      SumOverBounds(txs[..|txs| - 1], ids);
    }
  }

  /** Everything the loop has gathered from the first updates. */
  datatype Gathered = Gathered(
    transactions: map<TxId, Transaction>,
    accepted: set<TxId>,
    rejected: set<TxId>,
    counted: set<TxId>,
    original: Option<Transaction>,
    refunds: seq<Transaction>)

  /** It is backed by the updates, and every accepted refund that can be counted has been. */
  ghost predicate Backed(g: Gathered, updates: seq<Update>, upTo: nat, originalId: TxId)
    requires upTo <= |updates|
  {
    && (forall id :: id in g.transactions ==>
          g.transactions[id].id == id && Seen(updates, upTo, Created(g.transactions[id])))
    && (forall id :: id in g.accepted ==> Seen(updates, upTo, Accepted(id)))
    && (g.original.Some? ==>
          && g.original.value.id == originalId && PayerNotes(g.original.value.inputs).Some?
          && Notes(g.original.value) != multiset{} && Proves(updates, upTo, g.original.value, g.refunds))
    && (g.original.None? ==> g.refunds == [])
    && (forall id :: id in g.counted <==> IsIdOf(id, g.refunds))
    && originalId !in g.counted
  }

  /** On a stream that delivers `expected`, it is a correct part of it. */
  ghost predicate OnTrack(g: Gathered, updates: seq<Update>, upTo: nat, original: Transaction,
                          expected: seq<Transaction>)
    requires upTo <= |updates|
  {
    && (g.original.Some? ==> g.original.value == original)
    && (Seen(updates, upTo, Created(original)) ==> g.original.Some?)
    && (forall k :: 0 <= k < |expected| ==>
          && (expected[k].id in g.transactions ==> g.transactions[expected[k].id] == expected[k])
          && (Seen(updates, upTo, Created(expected[k])) ==> expected[k].id in g.transactions)
          && (Seen(updates, upTo, Accepted(expected[k].id)) ==> expected[k].id in g.accepted))
    && (forall id :: id in g.accepted ==> IsIdOf(id, expected))
    && (forall id :: id in g.rejected ==> !IsIdOf(id, expected))
    && SumNotes(g.refunds) == SumOver(expected, g.counted)
  }

  /** A transaction's id is its hash. */
  ghost predicate IdsAreHashes(updates: seq<Update>) {
    forall i, j :: 0 <= i < |updates| && 0 <= j < |updates| ==>
      updates[i].state.Created? && updates[j].state.Created? ==>
      updates[i].state.tx.id != updates[j].state.tx.id || updates[i].state.tx == updates[j].state.tx
  }

  /** Taking in one update of the stream. */
  function Record(g: Gathered, state: State, originalId: TxId): Option<Gathered> {
    match state
    case Created(tx) =>
      var g' := g.(transactions := g.transactions[tx.id := tx]);
      if tx.id != originalId then Some(g')
      else if PayerNotes(tx.inputs).None? || Notes(tx) == multiset{} then None
      else Some(g'.(original := Some(tx)))
    case Accepted(id) => if id in g.rejected then None else Some(g.(accepted := g.accepted + {id}))
    case Rejected(id) => if id in g.accepted then None else Some(g.(rejected := g.rejected + {id}))
    case Unretryable => Some(g)
  }

  /** The updates so far are of the operation, and every verdict in them is taken in. */
  ghost predicate TakenIn(g: Gathered, updates: seq<Update>, upTo: nat, operation: OperationId)
    requires upTo <= |updates|
  {
    && g.accepted !! g.rejected
    && forall j :: 0 <= j < upTo ==>
         && updates[j].operation == operation
         && (updates[j].state.Accepted? ==> updates[j].state.id in g.accepted)
         && (updates[j].state.Rejected? ==> updates[j].state.id in g.rejected)
  }

  /** No transaction has been both accepted and rejected, and nothing of another operation was seen. */
  ghost predicate Coherent(updates: seq<Update>, upTo: nat, operation: OperationId)
    requires upTo <= |updates|
  {
    && (forall j :: 0 <= j < upTo ==> updates[j].operation == operation)
    && forall i, j :: 0 <= i < upTo && 0 <= j < upTo && updates[i].state.Accepted? && updates[j].state.Rejected? ==>
         updates[i].state.id != updates[j].state.id
  }

  lemma RecordTakesIn(g: Gathered, updates: seq<Update>, i: nat, operation: OperationId, originalId: TxId)
    requires i < |updates| && TakenIn(g, updates, i, operation) && updates[i].operation == operation
    requires Record(g, updates[i].state, originalId).Some?
    ensures TakenIn(Record(g, updates[i].state, originalId).value, updates, i + 1, operation)
  {
    hide PayerNotes;
  }

  lemma TakenInIsCoherent(g: Gathered, updates: seq<Update>, i: nat, operation: OperationId)
    requires i <= |updates| && TakenIn(g, updates, i, operation)
    ensures Coherent(updates, i, operation)
  {
  }

  lemma CountedIsTakenIn(g: Gathered, g': Gathered, updates: seq<Update>, i: nat, operation: OperationId)
    requires i <= |updates| && TakenIn(g, updates, i, operation)
    requires g'.accepted == g.accepted && g'.rejected == g.rejected
    ensures TakenIn(g', updates, i, operation)
  {
  }

  lemma SeenNext(updates: seq<Update>, i: nat, state: State)
    requires i < |updates|
    ensures Seen(updates, i + 1, state) <==> Seen(updates, i, state) || updates[i].state == state
  {
  }

  lemma ProvesLater(updates: seq<Update>, i: nat, j: nat, original: Transaction, refunds: seq<Transaction>)
    requires i <= j <= |updates| && Proves(updates, i, original, refunds)
    ensures Proves(updates, j, original, refunds)
  {
    hide Seen;
    hide IsRefundOf;
    hide SumNotes;
    SeenLater(updates, i, j, Created(original));
    forall k | 0 <= k < |refunds|
      ensures Seen(updates, j, Created(refunds[k])) && Seen(updates, j, Accepted(refunds[k].id))
    {
      SeenLater(updates, i, j, Created(refunds[k]));
      SeenLater(updates, i, j, Accepted(refunds[k].id));
    }
  }

  lemma ProvesNothingYet(updates: seq<Update>, i: nat, original: Transaction)
    requires i < |updates| && updates[i].state == Created(original)
    ensures Proves(updates, i + 1, original, [])
  {
  }

  /** By its hash, a payment announced again is the payment announced before. */
  lemma OneOriginal(g: Gathered, updates: seq<Update>, i: nat, originalId: TxId)
    requires i < |updates| && Backed(g, updates, i, originalId) && IdsAreHashes(updates) && g.original.Some?
    requires updates[i].state.Created? && updates[i].state.tx.id == originalId
    ensures updates[i].state.tx == g.original.value
  {
    hide PayerNotes;
    hide IsRefundOf;
    var j :| 0 <= j < i && updates[j].state == Created(g.original.value);
  }

  lemma RecordKeepsBacked(g: Gathered, updates: seq<Update>, i: nat, originalId: TxId)
    requires i < |updates| && Backed(g, updates, i, originalId) && IdsAreHashes(updates)
    requires Record(g, updates[i].state, originalId).Some?
    ensures Backed(Record(g, updates[i].state, originalId).value, updates, i + 1, originalId)
  {
    hide PayerNotes;
    hide Proves;
    hide Seen;
    hide IdsAreHashes;
    var state := updates[i].state;
    SeenNext(updates, i, state);
    forall id | id in g.transactions ensures Seen(updates, i + 1, Created(g.transactions[id])) {
      SeenLater(updates, i, i + 1, Created(g.transactions[id]));
    }
    forall id | id in g.accepted ensures Seen(updates, i + 1, Accepted(id)) {
      SeenLater(updates, i, i + 1, Accepted(id));
    }
    if g.original.Some? {
      ProvesLater(updates, i, i + 1, g.original.value, g.refunds);
      if state.Created? && state.tx.id == originalId {
        OneOriginal(g, updates, i, originalId);
      }
    } else if state.Created? {
      ProvesNothingYet(updates, i, state.tx);
    }
  }

  lemma RecordKeepsOnTrack(g: Gathered, updates: seq<Update>, i: nat, operation: OperationId,
                           original: Transaction, expected: seq<Transaction>)
    requires i < |updates| && Delivers(updates, operation, original, expected)
    requires OnTrack(g, updates, i, original, expected)
    ensures Record(g, updates[i].state, original.id).Some?
    ensures OnTrack(Record(g, updates[i].state, original.id).value, updates, i + 1, original, expected)
  {
    hide PayerNotes;
    hide SumNotes;
    hide SumOver;
    hide Seen;
    var state := updates[i].state;
    assert updates[i].operation == operation && Truthful(state, original, expected);
    SeenNext(updates, i, Created(original));
    forall k | 0 <= k < |expected|
      ensures Seen(updates, i + 1, Created(expected[k])) <==>
                Seen(updates, i, Created(expected[k])) || state == Created(expected[k])
      ensures Seen(updates, i + 1, Accepted(expected[k].id)) <==>
                Seen(updates, i, Accepted(expected[k].id)) || state == Accepted(expected[k].id)
      ensures IsIdOf(expected[k].id, expected)
    {
      SeenNext(updates, i, Created(expected[k]));
      SeenNext(updates, i, Accepted(expected[k].id));
    }
  }

  /** Counting one accepted refund in. */
  function Count(g: Gathered, tx: Transaction): Gathered {
    g.(counted := g.counted + {tx.id}, refunds := g.refunds + [tx])
  }

  /** The checks an accepted sibling must pass, given what has been recovered so far. */
  predicate Counts(g: Gathered, tx: Transaction, recovered: multiset<Note>)
    requires g.original.Some?
  {
    IsRefundOf(tx, Notes(g.original.value)) && recovered + Notes(tx) <= Notes(g.original.value)
  }

  lemma CountKeepsBacked(g: Gathered, updates: seq<Update>, i: nat, originalId: TxId, id: TxId)
    requires i <= |updates| && Backed(g, updates, i, originalId) && g.original.Some?
    requires id in g.accepted && id in g.transactions && id != originalId && id !in g.counted
    requires Counts(g, g.transactions[id], SumNotes(g.refunds))
    ensures Backed(Count(g, g.transactions[id]), updates, i, originalId)
  {
    hide Seen;
    hide PayerNotes;
    hide IsRefundOf;
    var tx := g.transactions[id];
    var g' := Count(g, tx);
    SumSnoc(g.refunds, tx);
    forall k | 0 <= k < |g.refunds| ensures g.refunds[k].id in g.counted {
      assert IsIdOf(g.refunds[k].id, g.refunds);
    }
    forall x ensures x in g'.counted <==> IsIdOf(x, g'.refunds) {
      if IsIdOf(x, g.refunds) {
        var k :| 0 <= k < |g.refunds| && g.refunds[k].id == x;
        assert g'.refunds[k].id == x;
      }
      assert g'.refunds[|g.refunds|].id == id;
    }
  }

  lemma CountKeepsOnTrack(g: Gathered, updates: seq<Update>, i: nat, operation: OperationId,
                          original: Transaction, expected: seq<Transaction>, id: TxId)
    requires i <= |updates| && Delivers(updates, operation, original, expected)
    requires OnTrack(g, updates, i, original, expected) && g.original.Some?
    requires id in g.accepted && id in g.transactions && id !in g.counted
    ensures Counts(g, g.transactions[id], SumNotes(g.refunds))
    ensures OnTrack(Count(g, g.transactions[id]), updates, i, original, expected)
  {
    hide Seen;
    hide PayerNotes;
    hide Notes;
    hide Truthful;
    assert IsIdOf(id, expected);
    var k :| 0 <= k < |expected| && expected[k].id == id;
    assert g.transactions[id] == expected[k];
    SumSnoc(g.refunds, expected[k]);
    SumOverAdd(expected, g.counted, k);
    SumOverBounds(expected, g.counted + {id});
  }

  /** The accepted siblings of the payment that are known and not counted yet. */
  function Ready(g: Gathered, originalId: TxId): set<TxId> {
    set id | id in g.accepted && id in g.transactions && id != originalId && id !in g.counted
  }

  lemma CountShrinksReady(g: Gathered, originalId: TxId, id: TxId)
    requires id in Ready(g, originalId) && id in g.transactions && g.transactions[id].id == id
    ensures Ready(Count(g, g.transactions[id]), originalId) == Ready(g, originalId) - {id}
    ensures |Ready(Count(g, g.transactions[id]), originalId)| < |Ready(g, originalId)|
  {
    var g' := Count(g, g.transactions[id]);
    assert Ready(g', originalId) == Ready(g, originalId) - {id};
  }

  /** The stream delivers what the caller expects of it. */
  ghost predicate Promised(updates: seq<Update>, operation: OperationId, originalId: TxId, original: Transaction,
                           expected: seq<Transaction>)
  {
    original.id == originalId && Delivers(updates, operation, original, expected)
  }

  /** With everything delivered and counted, every note is back. */
  lemma AllCounted(g: Gathered, updates: seq<Update>, operation: OperationId, original: Transaction,
                   expected: seq<Transaction>)
    requires Delivers(updates, operation, original, expected)
    requires OnTrack(g, updates, |updates|, original, expected)
    ensures g.original == Some(original)
    ensures Ready(g, original.id) == {} ==> Complete(g)
  {
    if Ready(g, original.id) == {} {
      forall k | 0 <= k < |expected| ensures expected[k].id in g.counted {
        assert expected[k].id !in Ready(g, original.id);
      }
      SumOverBounds(expected, g.counted);
    }
  }

  predicate Complete(g: Gathered)
    requires g.original.Some?
  {
    SumNotes(g.refunds) == Notes(g.original.value)
  }

  /** Counting in every accepted refund that is ready, until nothing is missing. */
  method CountReady(g0: Gathered, updates: seq<Update>, i: nat, originalId: TxId, spendable: bool,
                    ghost operation: OperationId, ghost original: Transaction, ghost expected: seq<Transaction>)
    returns (g: Gathered, r: Option<Outcome>)
    requires i <= |updates| && Backed(g0, updates, i, originalId) && g0.original.Some? && !Complete(g0)
    ensures Backed(g, updates, i, originalId) && g.original == g0.original
    ensures g.accepted == g0.accepted && g.rejected == g0.rejected
    ensures r == None ==> !Complete(g) && Ready(g, originalId) == {}
    ensures r == None || r == Some(Failed)
            || (r == Some(Restored(g.original.value, g.refunds, AllOutputs(g.refunds))) && spendable && Complete(g))
    ensures (Promised(updates, operation, originalId, original, expected)
             && OnTrack(g0, updates, i, original, expected)) ==>
              OnTrack(g, updates, i, original, expected) && (spendable ==> r != Some(Failed))
  {
    hide Backed;
    hide OnTrack;
    hide Delivers;
    hide Counts;
    hide Ready;
    hide Complete;
    g := g0;
    while Ready(g, originalId) != {}
      invariant Backed(g, updates, i, originalId) && g.original == g0.original && !Complete(g)
      invariant g.accepted == g0.accepted && g.rejected == g0.rejected
      invariant (Promised(updates, operation, originalId, original, expected)
                 && OnTrack(g0, updates, i, original, expected)) ==> OnTrack(g, updates, i, original, expected)
      decreases |Ready(g, originalId)|
    {
      var id :| id in Ready(g, originalId);
      ReadyFacts(g, updates, i, originalId, id);
      var tx := g.transactions[id];
      if Promised(updates, operation, originalId, original, expected) && OnTrack(g0, updates, i, original, expected) {
        CountKeepsOnTrack(g, updates, i, operation, original, expected, id);
      }
      if !Counts(g, tx, SumNotes(g.refunds)) {
        return g, Some(Failed);
      }
      CountKeepsBacked(g, updates, i, originalId, id);
      CountShrinksReady(g, originalId, id);
      g := Count(g, tx);
      if Complete(g) {
        r := Some(if spendable then Restored(g.original.value, g.refunds, AllOutputs(g.refunds)) else Failed);
        return;
      }
    }
    r := None;
  }

  lemma ReadyFacts(g: Gathered, updates: seq<Update>, i: nat, originalId: TxId, id: TxId)
    requires i <= |updates| && Backed(g, updates, i, originalId) && id in Ready(g, originalId)
    ensures id in g.accepted && id in g.transactions && id != originalId && id !in g.counted
    ensures g.transactions[id].id == id
  {
  }

  lemma RecordKeepsIncomplete(g: Gathered, updates: seq<Update>, i: nat, originalId: TxId)
    requires i < |updates| && Backed(g, updates, i, originalId) && IdsAreHashes(updates)
    requires Record(g, updates[i].state, originalId).Some?
    requires g.original.Some? ==> !Complete(g)
    ensures var g' := Record(g, updates[i].state, originalId).value; g'.original.Some? ==> !Complete(g')
  {
    hide PayerNotes;
    hide Proves;
    if updates[i].state.Created? && g.original.Some? && updates[i].state.tx.id == originalId {
      OneOriginal(g, updates, i, originalId);
    }
  }

  /**
   * `await_rejected_input_refunds`. It reports success only on proof, in the updates it has read, that
   * accepted refunds spend exactly the rejected payment's notes, and after awaiting exactly their outputs;
   * none of those updates is of another operation or contradicts another. It succeeds on every stream that
   * delivers such refunds, however repeated and reordered.
   */
  method AwaitRejectedInputRefunds(operation: OperationId, originalId: TxId, updates: seq<Update>, spendable: bool,
                                   ghost original: Transaction, ghost expected: seq<Transaction>)
    returns (r: Outcome, ghost read: nat)
    requires IdsAreHashes(updates)
    ensures read <= |updates|
    ensures r.Restored? ==>
              && r.original.id == originalId && Proves(updates, read, r.original, r.refunds)
              && Coherent(updates, read, operation)
              && SumNotes(r.refunds) == Notes(r.original) && r.awaited == AllOutputs(r.refunds) && spendable
    ensures r.Restored? ==>
              forall k :: 0 <= k < |r.refunds| ==>
                ReturnsNotes(r.refunds[k]) && Notes(r.refunds[k]) == Spent(r.refunds[k].inputs)
    ensures spendable && Promised(updates, operation, originalId, original, expected) ==> r.Restored?
  {
    hide Record;
    hide Backed;
    hide OnTrack;
    hide IdsAreHashes;
    hide Ready;
    hide Complete;
    hide Delivers;
    hide TakenIn;
    hide Coherent;
    var g := Gathered(map[], {}, {}, {}, None, []);
    TrackStarts(g, updates, originalId, operation, original, expected);
    var i := 0;
    while i < |updates|
      invariant i <= |updates| && TakenIn(g, updates, i, operation)
      invariant i <= |updates| && Backed(g, updates, i, originalId)
      invariant g.original.Some? ==> !Complete(g) && Ready(g, originalId) == {}
      invariant Promised(updates, operation, originalId, original, expected) ==>
                  OnTrack(g, updates, i, original, expected)
    {
      if Promised(updates, operation, originalId, original, expected) {
        OperationMatches(updates, i, operation, original, expected);
        RecordKeepsOnTrack(g, updates, i, operation, original, expected);
      }
      if updates[i].operation != operation {
        return Failed, i;
      }
      var next := Record(g, updates[i].state, originalId);
      if next.None? {
        return Failed, i;
      }
      RecordTakesIn(g, updates, i, operation, originalId);
      RecordKeepsBacked(g, updates, i, originalId);
      RecordKeepsIncomplete(g, updates, i, originalId);
      g := next.value;
      i := i + 1;
      if g.original.Some? {
        ghost var before := g;
        var done;
        g, done := CountReady(g, updates, i, originalId, spendable, operation, original, expected);
        CountedIsTakenIn(before, g, updates, i, operation);
        if done.Some? {
          BackedProves(g, updates, i, originalId);
          TakenInIsCoherent(g, updates, i, operation);
          return done.value, i;
        }
      }
    }
    if Promised(updates, operation, originalId, original, expected) {
      AllCounted(g, updates, operation, original, expected);
    }
    return Failed, i;
  }

  lemma BackedProves(g: Gathered, updates: seq<Update>, i: nat, originalId: TxId)
    requires i <= |updates| && Backed(g, updates, i, originalId) && g.original.Some?
    ensures Proves(updates, i, g.original.value, g.refunds) && g.original.value.id == originalId
    ensures Complete(g) <==> SumNotes(g.refunds) == Notes(g.original.value)
    ensures forall k :: 0 <= k < |g.refunds| ==>
              ReturnsNotes(g.refunds[k]) && Notes(g.refunds[k]) == Spent(g.refunds[k].inputs)
  {
    hide PayerNotes;
    ProvenReturns(updates, i, g.original.value, g.refunds);
  }

  lemma OperationMatches(updates: seq<Update>, i: nat, operation: OperationId, original: Transaction,
                         expected: seq<Transaction>)
    requires i < |updates| && Delivers(updates, operation, original, expected)
    ensures updates[i].operation == operation
  {
  }

  lemma TrackStarts(g: Gathered, updates: seq<Update>, originalId: TxId, operation: OperationId,
                    original: Transaction, expected: seq<Transaction>)
    requires g == Gathered(map[], {}, {}, {}, None, [])
    ensures Backed(g, updates, 0, originalId) && OnTrack(g, updates, 0, original, expected)
    ensures TakenIn(g, updates, 0, operation)
  {
    SumOverNone(expected);
  }

  lemma {:induction false} SumOverNone(txs: seq<Transaction>)
    ensures SumOver(txs, {}) == multiset{}
  {
    if txs != [] {
      SumOverNone(txs[..|txs| - 1]);
    }
  }
}
