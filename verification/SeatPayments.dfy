/**
 * Paying for guardian seats under crashes: the payment journal, the funding transactions, consensus
 * verdicts and the calls that create and recover payments, interleaved at every await. The caller is
 * the Federation Initiator client: it makes one call at a time, for a seat's current quote, and
 * replaces a quote only when recovery has answered that it may.
 */
module SeatPayments {
  import opened Options

  type QuoteId = nat
  type TxId = nat
  type SeatId = nat

  /** What a quote asks for, fixed by its id: mint generation, number of outputs, issuance hash. */
  datatype Terms = Terms(generation: nat, outputs: nat, issuance: nat)

  /** A journal row, and the operation metadata written with it. */
  datatype Row = Row(txid: TxId, terms: Terms)
  datatype Meta = Meta(quote: QuoteId, txid: TxId, changeStart: nat)

  datatype Verdict = Undecided | Accepted | Refused

  /** A funding transaction: its quote, the verdict, and whether its inputs or change came back. */
  datatype Funding = Funding(quote: QuoteId, verdict: Verdict, inputsBack: bool, changeBack: bool)

  datatype Result = NotStarted | Prepared | Rejected | Failed(reason: Reason)

  datatype Reason = Mismatch | Pending | NotSubmitted | RefusedByConsensus | NotSpendable

  datatype Stage =
    | Reading                                  // the journal row is next
    | Submitting                               // no row: fund and journal in one commit
    | Probing(row: Row)
    | AwaitingChange(row: Row)
    | AwaitingInputs(row: Row)
    | Answered(answer: Result)

  datatype Call = Call(quote: QuoteId, create: bool, stage: Stage)

  /** What survives a crash: the journal, the operation log and the wallet's transactions. */
  datatype Ledger = Ledger(
    journal: map<QuoteId, Row>,
    operations: map<QuoteId, Meta>,        // keyed by the operation id, which the quote id determines
    fundings: map<TxId, Funding>)

  /** The client's seats, their quotes so far, and those recovery has cleared for replacement. */
  datatype Seats = Seats(owner: map<QuoteId, SeatId>, current: map<SeatId, QuoteId>, cleared: set<QuoteId>)

  datatype World = World(ledger: Ledger, seats: Seats, call: Option<Call>)

  const START := World(Ledger(map[], map[], map[]), Seats(map[], map[], {}), None)

  datatype Action =
    | NewSeat(seat: SeatId, quote: QuoteId)
    | ReplaceQuote(seat: SeatId, quote: QuoteId)
    | Begin(quote: QuoteId, create: bool)
    | ReadJournal
    | Submit(txid: TxId, committed: bool)
    | Probe(seen: Verdict)                 // Undecided: the wait timed out
    | AwaitSpendable(inTime: bool)
    | Answer
    | Crash                                // or the call is dropped
    | Decide(txid: TxId, accepted: bool)
    | Return(txid: TxId)

  // ---------------------------------------------------------------- the ledger

  /** `validate_journal` and `validate_payment_operation_meta`. */
  predicate Matches(l: Ledger, quote: QuoteId, row: Row, terms: QuoteId -> Terms) {
    && row.terms == terms(quote)
    && quote in l.operations
    && var meta := l.operations[quote];
       meta.quote == quote && meta.txid == row.txid && meta.changeStart == row.terms.outputs
  }

  /** `submit_seat_payment`: the operation, its transaction and the journal row in one commit. */
  function Commit(l: Ledger, quote: QuoteId, txid: TxId, terms: QuoteId -> Terms): Ledger {
    Ledger(l.journal[quote := Row(txid, terms(quote))],
           l.operations[quote := Meta(quote, txid, terms(quote).outputs)],
           l.fundings[txid := Funding(quote, Undecided, false, false)])
  }

  predicate HasVerdict(l: Ledger, txid: TxId, verdict: Verdict) {
    txid in l.fundings && l.fundings[txid].verdict == verdict
  }

  function Decided(l: Ledger, txid: TxId, accepted: bool): Ledger
    requires txid in l.fundings
  {
    l.(fundings := l.fundings[txid := l.fundings[txid].(verdict := if accepted then Accepted else Refused)])
  }

  /** The inputs of a refused transaction, or the change of an accepted one, are spendable again. */
  function Returned(l: Ledger, txid: TxId): Ledger
    requires txid in l.fundings
  {
    var f := l.fundings[txid];
    l.(fundings := l.fundings[txid := if f.verdict == Refused then f.(inputsBack := true) else f.(changeBack := true)])
  }

  // ---------------------------------------------------------------- the seats

  predicate IsCurrent(s: Seats, q: QuoteId) {
    q in s.owner && s.owner[q] in s.current && s.current[s.owner[q]] == q
  }

  function Assign(s: Seats, seat: SeatId, quote: QuoteId): Seats {
    s.(owner := s.owner[quote := seat], current := s.current[seat := quote])
  }

  // ---------------------------------------------------------------- steps

  function At(w: World, stage: Stage): World
    requires w.call.Some?
  {
    w.(call := Some(w.call.value.(stage := stage)))
  }

  /** One step; `None` when it cannot be taken. */
  function Apply(w: World, act: Action, terms: QuoteId -> Terms): Option<World> {
    match act
    case NewSeat(seat, quote) =>
      if seat in w.seats.current || quote in w.seats.owner then None
      else Some(w.(seats := Assign(w.seats, seat, quote)))
    case ReplaceQuote(seat, quote) =>
      if w.call.Some? || seat !in w.seats.current || w.seats.current[seat] !in w.seats.cleared
         || quote in w.seats.owner then None
      else Some(w.(seats := Assign(w.seats, seat, quote)))
    case Begin(quote, create) =>
      if w.call.Some? || !IsCurrent(w.seats, quote) then None
      else Some(w.(call := Some(Call(quote, create, Reading)),
                   seats := if create then w.seats.(cleared := w.seats.cleared - {quote}) else w.seats))
    case Decide(txid, accepted) =>
      if !HasVerdict(w.ledger, txid, Undecided) then None
      else Some(w.(ledger := Decided(w.ledger, txid, accepted)))
    case Return(txid) =>
      if txid !in w.ledger.fundings || w.ledger.fundings[txid].verdict == Undecided then None
      else Some(w.(ledger := Returned(w.ledger, txid)))
    case Crash => Some(w.(call := None))
    case _ => if w.call.None? then None else CallStep(w, act, w.call.value, terms)
  }

  predicate IsCallAction(act: Action) {
    act.ReadJournal? || act.Submit? || act.Probe? || act.AwaitSpendable? || act.Answer?
  }

  /** `recover_seat_payment` and `create_seat_payment`, from one await to the next. */
  function CallStep(w: World, act: Action, call: Call, terms: QuoteId -> Terms): Option<World>
    requires IsCallAction(act) && w.call == Some(call)
  {
    match act
    case ReadJournal =>
      if !call.stage.Reading? then None
      else if call.quote in w.ledger.journal then
        var row := w.ledger.journal[call.quote];
        Some(At(w, if Matches(w.ledger, call.quote, row, terms) then Probing(row) else Answered(Failed(Mismatch))))
      else Some(At(w, if call.create then Submitting else Answered(NotStarted)))
    case Submit(txid, committed) =>
      if !call.stage.Submitting? || txid in w.ledger.fundings then None
      else if !committed || call.quote in w.ledger.operations then Some(At(w, Answered(Failed(NotSubmitted))))
      else Some(At(w.(ledger := Commit(w.ledger, call.quote, txid, terms)), Probing(Row(txid, terms(call.quote)))))
    case Probe(seen) =>
      if !call.stage.Probing? then None
      else if seen == Undecided then Some(At(w, Answered(Failed(Pending))))
      else if !HasVerdict(w.ledger, call.stage.row.txid, seen) then None
      else if seen == Accepted then Some(At(w, AwaitingChange(call.stage.row)))
      else if call.create then Some(At(w, Answered(Failed(RefusedByConsensus))))
      else Some(At(w, AwaitingInputs(call.stage.row)))
    case AwaitSpendable(inTime) =>
      if !call.stage.AwaitingChange? && !call.stage.AwaitingInputs? then None
      else if !inTime then Some(At(w, Answered(Failed(NotSpendable))))
      else if call.stage.row.txid !in w.ledger.fundings then None
      else
        var f := w.ledger.fundings[call.stage.row.txid];
        if call.stage.AwaitingChange? then (if f.changeBack then Some(At(w, Answered(Prepared))) else None)
        else (if f.inputsBack then Some(At(w, Answered(Rejected))) else None)
    case Answer =>
      if !call.stage.Answered? then None
      else
        var clears := call.stage.answer.NotStarted? || call.stage.answer.Rejected?;
        Some(w.(call := None,
                seats := if clears then w.seats.(cleared := w.seats.cleared + {call.quote}) else w.seats))
  }

  // ---------------------------------------------------------------- what the ledger keeps

  /** Journal, operation log and transactions describe the same payments, one per quote. */
  ghost predicate LedgerMatches(l: Ledger, terms: QuoteId -> Terms) {
    && (forall q :: q in l.journal ==>
          && Matches(l, q, l.journal[q], terms)
          && l.journal[q].txid in l.fundings && l.fundings[l.journal[q].txid].quote == q)
    && (forall q :: q in l.operations ==> q in l.journal)
    && (forall t :: t in l.fundings ==>
          && l.fundings[t].quote in l.journal && l.journal[l.fundings[t].quote].txid == t
          && (l.fundings[t].inputsBack ==> l.fundings[t].verdict == Refused)
          && (l.fundings[t].changeBack ==> l.fundings[t].verdict == Accepted))
  }

  /** Nothing was ever spent on the quote, or it was refused and came back. */
  predicate Harmless(l: Ledger, q: QuoteId) {
    q in l.journal ==>
      && l.journal[q].txid in l.fundings
      && l.fundings[l.journal[q].txid].verdict == Refused && l.fundings[l.journal[q].txid].inputsBack
  }

  /** Rows never change, verdicts are final, and what came back stays back. */
  ghost predicate LedgerGrows(l: Ledger, l': Ledger) {
    && (forall q :: q in l.journal ==> q in l'.journal && l'.journal[q] == l.journal[q])
    && (forall t :: t in l.fundings ==>
          && t in l'.fundings && l'.fundings[t].quote == l.fundings[t].quote
          && (l.fundings[t].verdict != Undecided ==> l'.fundings[t].verdict == l.fundings[t].verdict)
          && (l.fundings[t].inputsBack ==> l'.fundings[t].inputsBack))
  }

  lemma CommitMoves(l: Ledger, quote: QuoteId, txid: TxId, terms: QuoteId -> Terms)
    requires LedgerMatches(l, terms) && quote !in l.operations && quote !in l.journal && txid !in l.fundings
    ensures LedgerMatches(Commit(l, quote, txid, terms), terms)
    ensures LedgerGrows(l, Commit(l, quote, txid, terms))
  {
  }

  lemma VerdictMoves(l: Ledger, txid: TxId, accepted: bool, terms: QuoteId -> Terms)
    requires LedgerMatches(l, terms) && HasVerdict(l, txid, Undecided)
    ensures LedgerMatches(Decided(l, txid, accepted), terms) && LedgerGrows(l, Decided(l, txid, accepted))
    ensures Decided(l, txid, accepted).journal == l.journal
  {
  }

  lemma ReturnMoves(l: Ledger, txid: TxId, terms: QuoteId -> Terms)
    requires LedgerMatches(l, terms) && txid in l.fundings && l.fundings[txid].verdict != Undecided
    ensures LedgerMatches(Returned(l, txid), terms) && LedgerGrows(l, Returned(l, txid))
    ensures Returned(l, txid).journal == l.journal
  {
  }

  // ---------------------------------------------------------------- what the seats keep

  ghost predicate SeatsMatch(s: Seats) {
    forall seat :: seat in s.current ==> s.current[seat] in s.owner && s.owner[s.current[seat]] == seat
  }

  /** A cleared quote is harmless, and so is every quote that has been replaced. */
  ghost predicate QuotesMatch(l: Ledger, s: Seats) {
    && (forall q :: q in s.cleared ==> Harmless(l, q))
    && (forall q :: q in s.owner ==> IsCurrent(s, q) || Harmless(l, q))
    && (forall q :: q in l.journal ==> q in s.owner)
  }

  lemma LedgerKeepsQuotes(l: Ledger, l': Ledger, s: Seats)
    requires QuotesMatch(l, s) && LedgerGrows(l, l') && l'.journal == l.journal
    ensures QuotesMatch(l', s)
  {
  }

  lemma CommitKeepsQuotes(l: Ledger, s: Seats, quote: QuoteId, txid: TxId, terms: QuoteId -> Terms)
    requires QuotesMatch(l, s) && IsCurrent(s, quote) && quote !in s.cleared && quote !in l.journal
    requires LedgerGrows(l, Commit(l, quote, txid, terms))
    ensures QuotesMatch(Commit(l, quote, txid, terms), s)
  {
  }

  lemma AssignKeepsQuotes(l: Ledger, s: Seats, seat: SeatId, quote: QuoteId)
    requires QuotesMatch(l, s) && SeatsMatch(s) && quote !in s.owner
    requires seat in s.current ==> s.current[seat] in s.cleared
    ensures QuotesMatch(l, Assign(s, seat, quote)) && SeatsMatch(Assign(s, seat, quote))
  {
  }

  // ---------------------------------------------------------------- what a call relies on

  predicate AnswerMatches(l: Ledger, call: Call, answer: Result) {
    match answer
    case NotStarted => !call.create && call.quote !in l.journal
    case Rejected => !call.create && call.quote in l.journal && Harmless(l, call.quote)
    case Prepared => call.quote in l.journal && HasVerdict(l, l.journal[call.quote].txid, Accepted)
    case Failed(reason) => reason != Mismatch
  }

  predicate CallMatches(l: Ledger, s: Seats, call: Call) {
    && IsCurrent(s, call.quote) && (call.create ==> call.quote !in s.cleared)
    && match call.stage
       case Reading => true
       case Submitting => call.create && call.quote !in l.journal
       case Answered(answer) => AnswerMatches(l, call, answer)
       case _ =>
         && call.quote in l.journal && call.stage.row == l.journal[call.quote]
         && (call.stage.AwaitingChange? ==> HasVerdict(l, call.stage.row.txid, Accepted))
         && (call.stage.AwaitingInputs? ==> !call.create && HasVerdict(l, call.stage.row.txid, Refused))
  }

  ghost predicate Inv(w: World, terms: QuoteId -> Terms) {
    && LedgerMatches(w.ledger, terms) && SeatsMatch(w.seats) && QuotesMatch(w.ledger, w.seats)
    && (w.call.Some? ==> CallMatches(w.ledger, w.seats, w.call.value))
  }

  lemma StartInv(terms: QuoteId -> Terms)
    ensures Inv(START, terms)
  {
  }

  /** A call is not disturbed by verdicts and returning money. */
  lemma LedgerKeepsCall(l: Ledger, l': Ledger, s: Seats, call: Call)
    requires CallMatches(l, s, call) && LedgerGrows(l, l') && l'.journal == l.journal
    ensures CallMatches(l', s, call)
  {
  }

  lemma SubmitKeepsInv(w: World, txid: TxId, committed: bool, terms: QuoteId -> Terms)
    requires Inv(w, terms) && Apply(w, Submit(txid, committed), terms).Some?
    ensures Inv(Apply(w, Submit(txid, committed), terms).value, terms)
  {
    hide SeatsMatch;
    var l, q := w.ledger, w.call.value.quote;
    if committed && q !in l.operations {
      CommitMoves(l, q, txid, terms);
      CommitKeepsQuotes(l, w.seats, q, txid, terms);
    }
    hide LedgerMatches;
    hide QuotesMatch;
  }

  lemma WaitKeepsInv(w: World, act: Action, terms: QuoteId -> Terms)
    requires Inv(w, terms) && (act.Probe? || act.AwaitSpendable?) && Apply(w, act, terms).Some?
    ensures Inv(Apply(w, act, terms).value, terms)
  {
    hide QuotesMatch;
    hide SeatsMatch;
    hide Matches;
  }

  lemma ReadKeepsInv(w: World, terms: QuoteId -> Terms)
    requires Inv(w, terms) && Apply(w, ReadJournal, terms).Some?
    ensures Inv(Apply(w, ReadJournal, terms).value, terms)
  {
    hide QuotesMatch;
    hide SeatsMatch;
    hide Matches;
  }

  lemma AnswerKeepsInv(w: World, terms: QuoteId -> Terms)
    requires Inv(w, terms) && Apply(w, Answer, terms).Some?
    ensures Inv(Apply(w, Answer, terms).value, terms)
  {
    hide LedgerMatches;
  }

  lemma OtherStepKeepsInv(w: World, act: Action, terms: QuoteId -> Terms)
    requires Inv(w, terms) && !IsCallAction(act) && Apply(w, act, terms).Some?
    ensures Inv(Apply(w, act, terms).value, terms)
  {
    hide LedgerMatches;
    hide QuotesMatch;
    hide SeatsMatch;
    hide Decided;
    hide Returned;
    match act {
      case NewSeat(seat, quote) => AssignKeepsQuotes(w.ledger, w.seats, seat, quote);
      case ReplaceQuote(seat, quote) => AssignKeepsQuotes(w.ledger, w.seats, seat, quote);
      case Begin(quote, create) => UnclearKeepsQuotes(w.ledger, w.seats, quote);
      case Decide(txid, accepted) =>
        VerdictMoves(w.ledger, txid, accepted, terms);
        LedgerKeepsQuotes(w.ledger, Decided(w.ledger, txid, accepted), w.seats);
        if w.call.Some? { LedgerKeepsCall(w.ledger, Decided(w.ledger, txid, accepted), w.seats, w.call.value); }
      case Return(txid) =>
        ReturnMoves(w.ledger, txid, terms);
        LedgerKeepsQuotes(w.ledger, Returned(w.ledger, txid), w.seats);
        if w.call.Some? { LedgerKeepsCall(w.ledger, Returned(w.ledger, txid), w.seats, w.call.value); }
      case Crash =>
    }
  }

  lemma UnclearKeepsQuotes(l: Ledger, s: Seats, quote: QuoteId)
    requires QuotesMatch(l, s) && SeatsMatch(s)
    ensures var s' := s.(cleared := s.cleared - {quote}); QuotesMatch(l, s') && SeatsMatch(s')
  {
  }

  // ---------------------------------------------------------------- whole runs

  function Run(w: World, acts: seq<Action>, terms: QuoteId -> Terms): Option<World>
    decreases |acts|
  {
    if acts == [] then Some(w)
    else
      match Apply(w, acts[0], terms)
      case None => None
      case Some(w') => Run(w', acts[1..], terms)
  }

  lemma ApplyKeepsInv(w: World, act: Action, terms: QuoteId -> Terms)
    requires Inv(w, terms) && Apply(w, act, terms).Some?
    ensures Inv(Apply(w, act, terms).value, terms)
  {
    hide Apply;
    hide Inv;
    if act.Submit? {
      SubmitKeepsInv(w, act.txid, act.committed, terms);
    } else if act.Probe? || act.AwaitSpendable? {
      WaitKeepsInv(w, act, terms);
    } else if act.ReadJournal? {
      ReadKeepsInv(w, terms);
    } else if act.Answer? {
      AnswerKeepsInv(w, terms);
    } else {
      OtherStepKeepsInv(w, act, terms);
    }
  }

  lemma {:induction false} RunKeepsInv(w: World, acts: seq<Action>, terms: QuoteId -> Terms)
    requires Inv(w, terms) && Run(w, acts, terms).Some?
    ensures Inv(Run(w, acts, terms).value, terms)
    decreases |acts|
  {
    hide Apply;
    hide Inv;
    if acts != [] {
      ApplyKeepsInv(w, acts[0], terms);
      RunKeepsInv(Apply(w, acts[0], terms).value, acts[1..], terms);
    }
  }

  /** Over all crashes, timeouts and verdicts, one quote gets at most one funding transaction. */
  lemma OneFundingPerQuote(acts: seq<Action>, terms: QuoteId -> Terms, t: TxId, u: TxId)
    requires Run(START, acts, terms).Some?
    ensures var fundings := Run(START, acts, terms).value.ledger.fundings;
      t in fundings && u in fundings && fundings[t].quote == fundings[u].quote ==> t == u
  {
    StartInv(terms);
    RunKeepsInv(START, acts, terms);
  }

  /** Whatever quotes a seat went through, at most one payment for it is ever accepted. */
  lemma OneAcceptedPerSeat(acts: seq<Action>, terms: QuoteId -> Terms, t: TxId, u: TxId)
    requires Run(START, acts, terms).Some?
    ensures var w := Run(START, acts, terms).value;
      var f := w.ledger.fundings;
      t in f && u in f && f[t].verdict == f[u].verdict == Accepted ==>
        && f[t].quote in w.seats.owner && f[u].quote in w.seats.owner
        && (w.seats.owner[f[t].quote] == w.seats.owner[f[u].quote] ==> t == u)
  {
    StartInv(terms);
    RunKeepsInv(START, acts, terms);
  }

  /**
   * What recovery's answers mean, in every run: NotStarted that no funding was ever committed for the
   * quote; Rejected that it was refused and its inputs are spendable again; Prepared that it was
   * accepted. The journal never disagrees with the quote or the operation log.
   */
  lemma AnswersAreTrue(acts: seq<Action>, terms: QuoteId -> Terms, t: TxId)
    requires Run(START, acts, terms).Some?
    requires Run(START, acts, terms).value.call.Some? && Run(START, acts, terms).value.call.value.stage.Answered?
    ensures var w := Run(START, acts, terms).value;
      var quote, f := w.call.value.quote, w.ledger.fundings;
      match w.call.value.stage.answer
      case NotStarted => t in f ==> f[t].quote != quote
      case Rejected =>
        && quote in w.ledger.journal && w.ledger.journal[quote].txid in f
        && (t in f && f[t].quote == quote ==> f[t].verdict == Refused && f[t].inputsBack)
      case Prepared =>
        && quote in w.ledger.journal && w.ledger.journal[quote].txid in f
        && (t in f && f[t].quote == quote ==> f[t].verdict == Accepted)
      case Failed(reason) => reason != Mismatch
  {
    StartInv(terms);
    RunKeepsInv(START, acts, terms);
  }

  // ---------------------------------------------------------------- calls that nothing interrupts

  lemma RunStep(w: World, act: Action, rest: seq<Action>, terms: QuoteId -> Terms)
    requires Apply(w, act, terms).Some?
    ensures Run(w, [act] + rest, terms) == Run(Apply(w, act, terms).value, rest, terms)
  {
    assert ([act] + rest)[1..] == rest;
  }

  lemma RunTwo(w: World, a: Action, w1: World, b: Action, terms: QuoteId -> Terms)
    requires Apply(w, a, terms) == Some(w1) && Apply(w1, b, terms).Some?
    ensures Run(w, [a, b], terms) == Apply(w1, b, terms)
  {
    hide Apply;
    assert [a, b] == [a] + [b] && [b] == [b] + [];
    RunStep(w, a, [b], terms);
    RunStep(w1, b, [], terms);
  }

  lemma RunThree(w: World, a: Action, w1: World, b: Action, w2: World, c: Action, terms: QuoteId -> Terms)
    requires Apply(w, a, terms) == Some(w1) && Apply(w1, b, terms) == Some(w2) && Apply(w2, c, terms).Some?
    ensures Run(w, [a, b, c], terms) == Apply(w2, c, terms)
  {
    hide Apply;
    assert [a, b, c] == [a] + [b, c];
    RunStep(w, a, [b, c], terms);
    RunTwo(w1, b, w2, c, terms);
  }

  lemma RunConcat(w: World, a: seq<Action>, b: seq<Action>, terms: QuoteId -> Terms)
    requires Run(w, a, terms).Some?
    ensures Run(w, a + b, terms) == Run(Run(w, a, terms).value, b, terms)
    decreases |a|
  {
    hide Apply;
    if a == [] {
      assert a + b == b;
    } else {
      assert (a + b)[0] == a[0] && (a + b)[1..] == a[1..] + b;
      RunConcat(Apply(w, a[0], terms).value, a[1..], b, terms);
    }
  }

  /** What a call for a journaled quote answers, by the fate of the funding it finds. */
  function AnswerFor(create: bool, f: Funding): Result {
    match f.verdict
    case Undecided => Failed(Pending)
    case Accepted => if f.changeBack then Prepared else Failed(NotSpendable)
    case Refused =>
      if create then Failed(RefusedByConsensus) else if f.inputsBack then Rejected else Failed(NotSpendable)
  }

  /** The awaits of such a call: the transaction's status, and then the money that should be back. */
  function Awaits(create: bool, f: Funding): seq<Action> {
    if f.verdict == Undecided || (create && f.verdict == Refused) then [ReadJournal, Probe(f.verdict)]
    else [ReadJournal, Probe(f.verdict), AwaitSpendable(f.changeBack || f.inputsBack)]
  }

  /**
   * A call for a quote that has been funded, create or recover, replays its journal row: undisturbed, it
   * gives the answer that the funding's fate calls for, and changes nothing in the ledger.
   */
  lemma JournaledCallAnswers(acts: seq<Action>, terms: QuoteId -> Terms, quote: QuoteId, create: bool)
    requires Run(START, acts, terms).Some?
    requires var w := Run(START, acts, terms).value;
      w.call == Some(Call(quote, create, Reading)) && quote in w.ledger.journal
    ensures var w := Run(START, acts, terms).value;
      && w.ledger.journal[quote].txid in w.ledger.fundings
      && var f := w.ledger.fundings[w.ledger.journal[quote].txid];
         f.quote == quote && Run(w, Awaits(create, f), terms) == Some(At(w, Answered(AnswerFor(create, f))))
  {
    StartInv(terms);
    RunKeepsInv(START, acts, terms);
    ReplaysJournal(Run(START, acts, terms).value, quote, create, terms);
  }

  lemma ReplaysJournal(w: World, quote: QuoteId, create: bool, terms: QuoteId -> Terms)
    requires Inv(w, terms) && w.call == Some(Call(quote, create, Reading)) && quote in w.ledger.journal
    ensures w.ledger.journal[quote].txid in w.ledger.fundings
    ensures var f := w.ledger.fundings[w.ledger.journal[quote].txid];
      f.quote == quote && Run(w, Awaits(create, f), terms) == Some(At(w, Answered(AnswerFor(create, f))))
  {
    hide QuotesMatch;
    hide SeatsMatch;
    var row := w.ledger.journal[quote];
    var f := w.ledger.fundings[row.txid];
    var probe, spendable := Probe(f.verdict), AwaitSpendable(f.changeBack || f.inputsBack);
    var w1 := At(w, Probing(row));
    assert Apply(w, ReadJournal, terms) == Some(w1);
    if f.verdict == Undecided || (create && f.verdict == Refused) {
      RunTwo(w, ReadJournal, w1, probe, terms);
    } else {
      var w2 := At(w, if f.verdict == Accepted then AwaitingChange(row) else AwaitingInputs(row));
      assert Apply(w1, probe, terms) == Some(w2);
      RunThree(w, ReadJournal, w1, probe, w2, spendable, terms);
    }
  }

  /** While no call is under way, any seat's current quote can be called for, and a new seat can be taken. */
  lemma IdleCanBegin(acts: seq<Action>, terms: QuoteId -> Terms, seat: SeatId, quote: QuoteId, create: bool)
    requires Run(START, acts, terms).Some? && Run(START, acts, terms).value.call.None?
    ensures var w := Run(START, acts, terms).value;
      && (IsCurrent(w.seats, quote) ==>
            var begun := Run(w, [Begin(quote, create)], terms);
            && begun.Some? && begun.value.call == Some(Call(quote, create, Reading))
            && begun.value.ledger == w.ledger && begun.value.seats.current == w.seats.current)
      && (seat !in w.seats.current && quote !in w.seats.owner ==>
            var taken := Run(w, [NewSeat(seat, quote)], terms);
            taken.Some? && IsCurrent(taken.value.seats, quote) && taken.value.seats.owner[quote] == seat)
  {
    var w := Run(START, acts, terms).value;
    assert [Begin(quote, create)] == [Begin(quote, create)] + [];
    assert [NewSeat(seat, quote)] == [NewSeat(seat, quote)] + [];
    if IsCurrent(w.seats, quote) {
      RunStep(w, Begin(quote, create), [], terms);
    }
    if seat !in w.seats.current && quote !in w.seats.owner {
      RunStep(w, NewSeat(seat, quote), [], terms);
    }
  }

  /** The ledger once a quote's funding has been decided, and its money has come back or not. */
  function Settled(l: Ledger, quote: QuoteId, txid: TxId, accepted: bool, back: bool, terms: QuoteId -> Terms): Ledger {
    var verdict := if accepted then Accepted else Refused;
    Ledger(l.journal[quote := Row(txid, terms(quote))],
           l.operations[quote := Meta(quote, txid, terms(quote).outputs)],
           l.fundings[txid := Funding(quote, verdict, back && !accepted, back && accepted)])
  }

  /**
   * A create call pays: for a quote without a journal row it funds exactly that quote, once the federation
   * accepts and the change is back it answers Prepared, and when the federation refuses it says so.
   */
  lemma CreatePays(acts: seq<Action>, terms: QuoteId -> Terms, quote: QuoteId, txid: TxId)
    requires Run(START, acts, terms).Some?
    requires var w := Run(START, acts, terms).value;
      && w.call == Some(Call(quote, true, Reading)) && quote !in w.ledger.journal && txid !in w.ledger.fundings
    ensures var w := Run(START, acts, terms).value;
      && Run(w, [ReadJournal, Submit(txid, true), Decide(txid, true), Probe(Accepted), Return(txid),
                 AwaitSpendable(true)], terms)
         == Some(At(w, Answered(Prepared)).(ledger := Settled(w.ledger, quote, txid, true, true, terms)))
      && Run(w, [ReadJournal, Submit(txid, true), Decide(txid, false), Probe(Refused)], terms)
         == Some(At(w, Answered(Failed(RefusedByConsensus)))
                 .(ledger := Settled(w.ledger, quote, txid, false, false, terms)))
      && Run(w, [ReadJournal, Submit(txid, false)], terms) == Some(At(w, Answered(Failed(NotSubmitted))))
  {
    StartInv(terms);
    RunKeepsInv(START, acts, terms);
    var w := Run(START, acts, terms).value;
    assert quote !in w.ledger.operations;
    FundsQuote(w, terms, quote, txid);
    AcceptedPays(w, terms, quote, txid);
    RefusedTells(w, terms, quote, txid);
    hide Apply;
    hide Inv;
    hide Settled;
    var funds, settles := [ReadJournal, Submit(txid, true), Decide(txid, true)],
                          [Probe(Accepted), Return(txid), AwaitSpendable(true)];
    assert [ReadJournal, Submit(txid, true), Decide(txid, true), Probe(Accepted), Return(txid), AwaitSpendable(true)]
        == funds + settles;
    RunConcat(w, funds, settles, terms);
    var fails := [ReadJournal, Submit(txid, true), Decide(txid, false)];
    assert [ReadJournal, Submit(txid, true), Decide(txid, false), Probe(Refused)] == fails + [Probe(Refused)];
    RunConcat(w, fails, [Probe(Refused)], terms);
  }

  /** A refused funding, and one that the wallet could not commit. */
  lemma RefusedTells(w: World, terms: QuoteId -> Terms, quote: QuoteId, txid: TxId)
    requires w.call == Some(Call(quote, true, Reading)) && quote !in w.ledger.journal && txid !in w.ledger.fundings
    ensures Run(SubmittedBy(w, quote, txid, false, terms), [Probe(Refused)], terms)
            == Some(At(w, Answered(Failed(RefusedByConsensus)))
                    .(ledger := Settled(w.ledger, quote, txid, false, false, terms)))
    ensures Run(w, [ReadJournal, Submit(txid, false)], terms) == Some(At(w, Answered(Failed(NotSubmitted))))
  {
    var w1 := SubmittedBy(w, quote, txid, false, terms);
    assert [Probe(Refused)] == [Probe(Refused)] + [];
    RunStep(w1, Probe(Refused), [], terms);
    RunTwo(w, ReadJournal, At(w, Submitting), Submit(txid, false), terms);
  }

  /** The world after a funding was committed and decided, the call waiting for the verdict. */
  function SubmittedBy(w: World, quote: QuoteId, txid: TxId, accepted: bool, terms: QuoteId -> Terms): World
    requires w.call.Some?
  {
    At(w, Probing(Row(txid, terms(quote)))).(ledger := Settled(w.ledger, quote, txid, accepted, false, terms))
  }

  lemma Overwritten<V>(m: map<TxId, V>, t: TxId, v: V, v': V)
    ensures m[t := v][t := v'] == m[t := v']
  {
  }

  lemma FundsQuote(w: World, terms: QuoteId -> Terms, quote: QuoteId, txid: TxId)
    requires w.call == Some(Call(quote, true, Reading)) && quote !in w.ledger.journal
    requires quote !in w.ledger.operations && txid !in w.ledger.fundings
    ensures forall accepted ::
      Run(w, [ReadJournal, Submit(txid, true), Decide(txid, accepted)], terms)
      == Some(SubmittedBy(w, quote, txid, accepted, terms))
  {
    var w1 := At(w, Submitting);
    var w2 := At(w, Probing(Row(txid, terms(quote)))).(ledger := Commit(w.ledger, quote, txid, terms));
    assert Apply(w, ReadJournal, terms) == Some(w1) && Apply(w1, Submit(txid, true), terms) == Some(w2);
    forall accepted
      ensures Run(w, [ReadJournal, Submit(txid, true), Decide(txid, accepted)], terms)
              == Some(SubmittedBy(w, quote, txid, accepted, terms))
    {
      Overwritten(w.ledger.fundings, txid, Funding(quote, Undecided, false, false),
                  Funding(quote, if accepted then Accepted else Refused, false, false));
      RunThree(w, ReadJournal, w1, Submit(txid, true), w2, Decide(txid, accepted), terms);
    }
  }

  lemma AcceptedPays(w: World, terms: QuoteId -> Terms, quote: QuoteId, txid: TxId)
    requires w.call == Some(Call(quote, true, Reading)) && txid !in w.ledger.fundings
    ensures Run(SubmittedBy(w, quote, txid, true, terms), [Probe(Accepted), Return(txid), AwaitSpendable(true)], terms)
            == Some(At(w, Answered(Prepared)).(ledger := Settled(w.ledger, quote, txid, true, true, terms)))
  {
    var row := Row(txid, terms(quote));
    var w1 := SubmittedBy(w, quote, txid, true, terms);
    var w2 := At(w1, AwaitingChange(row));
    var w3 := w2.(ledger := Settled(w.ledger, quote, txid, true, true, terms));
    Overwritten(w.ledger.fundings, txid, Funding(quote, Accepted, false, false), Funding(quote, Accepted, false, true));
    assert Apply(w1, Probe(Accepted), terms) == Some(w2) && Apply(w2, Return(txid), terms) == Some(w3);
    RunThree(w1, Probe(Accepted), w2, Return(txid), w3, AwaitSpendable(true), terms);
  }

  /** The awaits of a recovery that nothing interrupts, once the payment's fate is settled. */
  function Recovery(l: Ledger, quote: QuoteId): seq<Action> {
    if quote !in l.journal || l.journal[quote].txid !in l.fundings then [ReadJournal]
    else [ReadJournal, Probe(l.fundings[l.journal[quote].txid].verdict), AwaitSpendable(true)]
  }

  /**
   * A refused quote is released and replaced: once its inputs are back, recovery answers Rejected, and after
   * that answer, and after NotStarted for a quote never funded, the seat takes a new quote.
   */
  lemma ReleasedQuoteIsReplaced(acts: seq<Action>, terms: QuoteId -> Terms, quote: QuoteId, newer: QuoteId)
    requires Run(START, acts, terms).Some?
    requires var w := Run(START, acts, terms).value;
      && w.call.None? && IsCurrent(w.seats, quote) && Harmless(w.ledger, quote) && newer !in w.seats.owner
    ensures var w := Run(START, acts, terms).value;
      var seat := w.seats.owner[quote];
      var acts' := [Begin(quote, false)] + Recovery(w.ledger, quote) + [Answer, ReplaceQuote(seat, newer)];
      var released := Run(w, acts', terms);
      && released.Some? && released.value.ledger == w.ledger && released.value.call.None?
      && IsCurrent(released.value.seats, newer) && released.value.seats.owner[newer] == seat
  {
    var w := Run(START, acts, terms).value;
    var seat := w.seats.owner[quote];
    var begin, recovery, rest := [Begin(quote, false)], Recovery(w.ledger, quote), [Answer, ReplaceQuote(seat, newer)];
    var w1 := w.(call := Some(Call(quote, false, Reading)));
    StartInv(terms);
    RunKeepsInv(START, acts, terms);
    assert Apply(w, Begin(quote, false), terms) == Some(w1);
    RunStep(w, Begin(quote, false), recovery + rest, terms);
    assert begin + recovery + rest == begin + (recovery + rest);
    var answer := if quote in w.ledger.journal then Rejected else NotStarted;
    var w2 := At(w1, Answered(answer));
    ApplyKeepsInv(w, Begin(quote, false), terms);
    if quote in w.ledger.journal {
      ReplaysJournal(w1, quote, false, terms);
    } else {
      assert recovery == [ReadJournal] + [];
      RunStep(w1, ReadJournal, [], terms);
    }
    assert Run(w1, recovery, terms) == Some(w2);
    RunConcat(w1, recovery, rest, terms);
    var w3 := w2.(call := None, seats := w.seats.(cleared := w.seats.cleared + {quote}));
    assert Apply(w2, Answer, terms) == Some(w3);
    RunTwo(w2, Answer, w3, ReplaceQuote(seat, newer), terms);
  }

  /**
   * Recovery is definite: once the inputs or the change of a quote's payment are back, an undisturbed
   * recovery of it answers NotStarted, Rejected or Prepared, and the right one.
   */
  lemma RecoveryIsDefinite(acts: seq<Action>, terms: QuoteId -> Terms, quote: QuoteId)
    requires Run(START, acts, terms).Some?
    requires Run(START, acts, terms).value.call == Some(Call(quote, false, Reading))
    requires var l := Run(START, acts, terms).value.ledger;
      quote in l.journal && l.journal[quote].txid in l.fundings ==>
        l.fundings[l.journal[quote].txid].inputsBack || l.fundings[l.journal[quote].txid].changeBack
    ensures var w := Run(START, acts, terms).value;
      var answer := if quote !in w.ledger.journal then NotStarted
                    else if Harmless(w.ledger, quote) then Rejected else Prepared;
      Run(w, Recovery(w.ledger, quote), terms) == Some(At(w, Answered(answer)))
  {
    StartInv(terms);
    RunKeepsInv(START, acts, terms);
    var w := Run(START, acts, terms).value;
    var l := w.ledger;
    if quote !in l.journal {
      assert Recovery(l, quote) == [ReadJournal] + [];
      RunStep(w, ReadJournal, [], terms);
    } else {
      ReplaysJournal(w, quote, false, terms);
    }
  }
}
