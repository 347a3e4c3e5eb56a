/**
 * What the tables hold, told from the log alone: every request with the votes and the outcome its members
 * sent, every deposit, every invitation with its ballots, the group's status, and what was refused.
 */
module RoomHistory {
  import opened Options
  import opened Ordered
  import opened Multispend
  import opened GroupInvariants
  import opened Faults
  import opened LateJoiner
  import opened ChronoPaging
  import opened RoomTablesModule

  /** The tables before event `i`. */
  ghost function Before(env: Env, me: UserId, log: seq<LogEvent>, i: nat): Option<Tables>
    requires i <= |log|
  {
    Run(env, me, EMPTY, log[..i])
  }

  ghost predicate Grouped(env: Env, me: UserId, log: seq<LogEvent>, i: nat)
    requires i <= |log|
  {
    Before(env, me, log, i).Some? && FinalizedGroupOf(Before(env, me, log, i).value).Some?
  }

  lemma BeforeStays(env: Env, me: UserId, front: seq<LogEvent>, e: LogEvent, i: nat)
    requires i <= |front|
    ensures Before(env, me, front + [e], i) == Before(env, me, front, i)
    ensures Grouped(env, me, front + [e], i) <==> Grouped(env, me, front, i)
  {
    hide Run;
    assert (front + [e])[..i] == front[..i];
  }

  lemma BeforeLast(env: Env, me: UserId, front: seq<LogEvent>, e: LogEvent)
    ensures Before(env, me, front + [e], |front|) == Run(env, me, EMPTY, front)
    ensures Run(env, me, EMPTY, front + [e])
         == match Run(env, me, EMPTY, front) case None => None case Some(t) => Step(env, me, t, e)
  {
    hide Step;
    assert (front + [e])[..|front|] == front;
  }

  // ---------------------------------------------------------------- requests and their responses

  /** Event `i` is a withdrawal request under a finalized group. */
  ghost predicate RequestAt(env: Env, me: UserId, log: seq<LogEvent>, i: nat) {
    i < |log| && log[i].event.RequestWithdrawal? && Grouped(env, me, log, i)
  }

  predicate IsVote(e: LogEvent, r: EventId, user: UserId) {
    && e.event.RespondToWithdrawal? && e.event.target == r && e.sender == user
    && (e.event.response.Approve? || e.event.response.Reject?)
  }

  predicate IsReport(e: LogEvent, r: EventId, requester: UserId) {
    && e.event.RespondToWithdrawal? && e.event.target == r && e.sender == requester
    && (e.event.response.Complete? || e.event.response.TxRejected?)
  }

  /** The first response of this kind after event `i`. */
  ghost predicate IsFirst(log: seq<LogEvent>, i: nat, j: nat, kind: LogEvent -> bool) {
    i < j < |log| && kind(log[j]) && forall k :: i < k < j ==> !kind(log[k])
  }

  ghost function FirstAfter(log: seq<LogEvent>, i: nat, kind: LogEvent -> bool): (first: Option<nat>)
    ensures first.Some? ==> IsFirst(log, i, first.value, kind)
    ensures first.None? ==> forall k :: i < k < |log| ==> !kind(log[k])
  {
    if |log| <= i + 1 then None
    else
      var front := log[..|log| - 1];
      match FirstAfter(front, i, kind)
      case Some(j) => Some(j)
      case None => if kind(log[|log| - 1]) then Some(|log| - 1) else None
  }

  lemma FirstIsUnique(log: seq<LogEvent>, i: nat, j: nat, kind: LogEvent -> bool)
    requires IsFirst(log, i, j, kind)
    ensures FirstAfter(log, i, kind) == Some(j)
  {
    var first := FirstAfter(log, i, kind);
  }

  ghost function Vote(log: seq<LogEvent>, i: nat, user: UserId): Option<WithdrawalResponse>
    requires i < |log|
  {
    match FirstAfter(log, i, e => IsVote(e, log[i].id, user))
    case Some(j) => Some(log[j].event.response)
    case None => None
  }

  ghost function Report(log: seq<LogEvent>, i: nat): Submission
    requires i < |log|
  {
    match FirstAfter(log, i, e => IsReport(e, log[i].id, log[i].sender))
    case None => Unknown
    case Some(j) =>
      match log[j].event.response
      case Complete(txid) => Accepted(txid)
      case TxRejected(error) => TxRefused(error)
      case _ => Unknown
  }

  lemma VoteGrows(front: seq<LogEvent>, e: LogEvent, i: nat, user: UserId)
    requires i < |front|
    ensures Vote(front + [e], i, user)
         == if Vote(front, i, user).None? && IsVote(e, front[i].id, user) then Some(e.event.response)
            else Vote(front, i, user)
  {
    var log := front + [e];
    assert log[..|log| - 1] == front && log[i] == front[i];
    var kind := (x: LogEvent) => IsVote(x, log[i].id, user);
    FirstGrows(front, e, i, kind);
    SameKind(front, i, kind, (x: LogEvent) => IsVote(x, front[i].id, user));
  }

  lemma ReportGrows(front: seq<LogEvent>, e: LogEvent, i: nat)
    requires i < |front|
    ensures Report(front + [e], i)
         == if Report(front, i) == Unknown && IsReport(e, front[i].id, front[i].sender) then
              match e.event.response
              case Complete(txid) => Accepted(txid)
              case TxRejected(error) => TxRefused(error)
              case _ => Unknown
            else Report(front, i)
  {
    var log := front + [e];
    assert log[..|log| - 1] == front && log[i] == front[i];
    var kind := (x: LogEvent) => IsReport(x, log[i].id, log[i].sender);
    FirstGrows(front, e, i, kind);
    SameKind(front, i, kind, (x: LogEvent) => IsReport(x, front[i].id, front[i].sender));
  }

  lemma FirstGrows(front: seq<LogEvent>, e: LogEvent, i: nat, kind: LogEvent -> bool)
    requires i < |front|
    ensures FirstAfter(front + [e], i, kind)
         == match FirstAfter(front, i, kind)
            case Some(j) => Some(j)
            case None => if kind(e) then Some(|front|) else None
  {
    var log := front + [e];
    assert log[..|log| - 1] == front;
  }

  lemma {:induction false} SameKind(log: seq<LogEvent>, i: nat, kind: LogEvent -> bool, other: LogEvent -> bool)
    requires forall e :: kind(e) == other(e)
    ensures FirstAfter(log, i, kind) == FirstAfter(log, i, other)
  {
    if |log| > i + 1 {
      SameKind(log[..|log| - 1], i, kind, other);
    }
  }

  /** The stored request says what its event said, who voted how, and what its requester reported. */
  ghost predicate TellsRequest(t: Tables, log: seq<LogEvent>, i: nat)
    requires i < |log| && log[i].event.RequestWithdrawal?
  {
    && FinalizedGroupOf(t).Some? && log[i].id in t.withdrawals
    && var w, signers := t.withdrawals[log[i].id], FinalizedGroupOf(t).value.invitation.signers;
    && w.request == log[i].event.request && w.description == log[i].event.description && w.sender == log[i].sender
    && w.submission == Report(log, i)
    && forall u :: VotedAs(w, u, if u in signers then Vote(log, i, u) else None)
  }

  ghost predicate VotedAs(w: Withdrawal, u: UserId, vote: Option<WithdrawalResponse>) {
    match vote
    case Some(Approve(signature)) => u in w.signatures && w.signatures[u] == signature && u !in w.rejections
    case Some(Reject) => u !in w.signatures && u in w.rejections
    case _ => u !in w.signatures && u !in w.rejections
  }

  lemma NewRequestTells(t: Tables, front: seq<LogEvent>, e: LogEvent)
    requires e.event.RequestWithdrawal? && FinalizedGroupOf(t).Some? && e.id in t.withdrawals
    requires t.withdrawals[e.id] == Withdrawal(e.event.request, e.event.description, map[], {}, Unknown, e.sender)
    ensures TellsRequest(t, front + [e], |front|)
  {
  }

  /** A response changes the request it names as told. */
  lemma ResponseTells(w: Withdrawal, front: seq<LogEvent>, e: LogEvent, i: nat, group: FinalizedGroup)
    requires i < |front| && front[i].event.RequestWithdrawal? && w.sender == front[i].sender
    requires e.event.RespondToWithdrawal? && e.event.target == front[i].id
    requires w.submission == Report(front, i)
    requires forall u :: VotedAs(w, u, if u in group.invitation.signers then Vote(front, i, u) else None)
    ensures var result := WithResponse(w, e.sender, e.event.response, group);
            var w' := if result.Some? then result.value.0 else w;
            && w'.request == w.request && w'.description == w.description && w'.sender == w.sender
            && w'.submission == Report(front + [e], i)
            && forall u :: VotedAs(w', u, if u in group.invitation.signers then Vote(front + [e], i, u) else None)
  {
    hide Report;
    hide Vote;
    ReportGrows(front, e, i);
    var result := WithResponse(w, e.sender, e.event.response, group);
    var w' := if result.Some? then result.value.0 else w;
    assert VotedAs(w, e.sender, if e.sender in group.invitation.signers then Vote(front, i, e.sender) else None);
    VoteIsVote(front, i, e.sender);
    forall u ensures VotedAs(w', u, if u in group.invitation.signers then Vote(front + [e], i, u) else None) {
      assert VotedAs(w, u, if u in group.invitation.signers then Vote(front, i, u) else None);
      VoteGrows(front, e, i, u);
    }
  }

  lemma VoteIsVote(log: seq<LogEvent>, i: nat, user: UserId)
    requires i < |log|
    ensures Vote(log, i, user).Some? ==> Vote(log, i, user).value.Approve? || Vote(log, i, user).value.Reject?
  {
  }

  /** Another request, or another kind of event, leaves it as told. */
  lemma OtherEventTells(t: Tables, t': Tables, front: seq<LogEvent>, e: LogEvent, i: nat)
    requires i < |front| && front[i].event.RequestWithdrawal? && TellsRequest(t, front, i)
    requires t'.status == t.status && front[i].id in t'.withdrawals
    requires t'.withdrawals[front[i].id] == t.withdrawals[front[i].id]
    requires !(e.event.RespondToWithdrawal? && e.event.target == front[i].id)
    ensures TellsRequest(t', front + [e], i)
  {
    hide Report;
    hide Vote;
    ReportGrows(front, e, i);
    var w, signers := t.withdrawals[front[i].id], FinalizedGroupOf(t).value.invitation.signers;
    forall u ensures VotedAs(w, u, if u in signers then Vote(front + [e], i, u) else None) {
      assert VotedAs(w, u, if u in signers then Vote(front, i, u) else None);
      VoteGrows(front, e, i, u);
    }
  }

  lemma StepTellsRequest(env: Env, me: UserId, t: Tables, front: seq<LogEvent>, e: LogEvent, i: nat)
    requires i < |front| && front[i].event.RequestWithdrawal? && TellsRequest(t, front, i)
    requires Step(env, me, t, e).Some?
    ensures TellsRequest(Step(env, me, t, e).value, front + [e], i)
  {
    hide Step;
    hide Report;
    hide Vote;
    hide VotedAs;
    hide WithResponse;
    var t', r := Step(env, me, t, e).value, front[i].id;
    FinalizedStepIsPermanent(env, me, t, e);
    if e.event.RespondToWithdrawal? {
      ResponseTables(env, me, t, e);
      if e.event.target == r {
        ResponseTells(t.withdrawals[r], front, e, i, FinalizedGroupOf(t).value);
      } else {
        OtherEventTells(t, t', front, e, i);
      }
    } else if e.event.RequestWithdrawal? || e.event.NotifyDeposit? {
      RequestTables(env, me, t, e);
      if e.event.RequestWithdrawal? {
        NoDuplicates(env, me, t, e);
      }
      OtherEventTells(t, t', front, e, i);
    } else {
      GroupEventKeepsRequests(env, me, t, e);
      OtherEventTells(t, t', front, e, i);
    }
  }

  lemma NoDuplicates(env: Env, me: UserId, t: Tables, e: LogEvent)
    requires FinalizedGroupOf(t).Some? && Step(env, me, t, e).Some?
    ensures e.event.RequestWithdrawal? ==> e.id !in t.withdrawals
    ensures e.event.NotifyDeposit? ==> e.id !in t.deposits
  {
  }

  /**
   * Over any log that runs, every request made under a finalized group is stored with the terms its event
   * gave; each signer's vote on it is that signer's first response, approval with its signature or rejection;
   * its submission is what its requester first reported, and unknown until then; nobody else changes any of it.
   */
  lemma {:induction false} RequestsFollowLog(env: Env, me: UserId, log: seq<LogEvent>, i: nat)
    requires Run(env, me, EMPTY, log).Some? && RequestAt(env, me, log, i)
    ensures TellsRequest(Run(env, me, EMPTY, log).value, log, i)
  {
    hide Step;
    hide TellsRequest;
    hide Grouped;
    var front, e := log[..|log| - 1], log[|log| - 1];
    assert log == front + [e];
    BeforeLast(env, me, front, e);
    var t := Run(env, me, EMPTY, front).value;
    if i < |front| {
      BeforeStays(env, me, front, e, i);
      RequestsFollowLog(env, me, front, i);
      StepTellsRequest(env, me, t, front, e, i);
    } else {
      GroupedNow(env, me, log, i);
      NoDuplicates(env, me, t, e);
      RequestTables(env, me, t, e);
      NewRequestTells(Step(env, me, t, e).value, front, e);
    }
  }

  lemma GroupedNow(env: Env, me: UserId, log: seq<LogEvent>, i: nat)
    requires i <= |log| && Grouped(env, me, log, i)
    ensures Before(env, me, log, i).Some? && FinalizedGroupOf(Before(env, me, log, i).value).Some?
  {
  }

  /** How a request was settled, in so many words. */
  lemma SubmissionFollowsReports(env: Env, me: UserId, log: seq<LogEvent>, i: nat)
    requires Run(env, me, EMPTY, log).Some? && RequestAt(env, me, log, i)
    ensures var w := Run(env, me, EMPTY, log).value.withdrawals;
      var reports := (e: LogEvent) => IsReport(e, log[i].id, log[i].sender);
      && log[i].id in w
      && (forall x :: w[log[i].id].submission == Accepted(x) <==>
            exists j: nat :: IsFirst(log, i, j, reports) && log[j].event.response == Complete(x))
      && (forall x :: w[log[i].id].submission == TxRefused(x) <==>
            exists j: nat :: IsFirst(log, i, j, reports) && log[j].event.response == TxRejected(x))
      && (w[log[i].id].submission == Unknown <==> forall j :: i < j < |log| ==> !reports(log[j]))
  {
    hide Run;
    hide Grouped;
    RequestsFollowLog(env, me, log, i);
    hide VotedAs;
    var reports := (e: LogEvent) => IsReport(e, log[i].id, log[i].sender);
    SameKind(log, i, reports, (e: LogEvent) => IsReport(e, log[i].id, log[i].sender));
    forall j: nat | IsFirst(log, i, j, reports) ensures FirstAfter(log, i, reports) == Some(j) {
      FirstIsUnique(log, i, j, reports);
    }
  }

  /** And who approved or rejected it. */
  lemma VotesFollowResponses(env: Env, me: UserId, log: seq<LogEvent>, i: nat, user: UserId)
    requires Run(env, me, EMPTY, log).Some? && RequestAt(env, me, log, i)
    ensures var t := Run(env, me, EMPTY, log).value;
      var votes := (e: LogEvent) => IsVote(e, log[i].id, user);
      && FinalizedGroupOf(t).Some? && log[i].id in t.withdrawals
      && var w, signs := t.withdrawals[log[i].id], user in FinalizedGroupOf(t).value.invitation.signers;
      && (forall s :: user in w.signatures && w.signatures[user] == s <==>
            signs && exists j: nat :: IsFirst(log, i, j, votes) && log[j].event.response == Approve(s))
      && (user in w.rejections <==>
            signs && exists j: nat :: IsFirst(log, i, j, votes) && log[j].event.response == Reject)
  {
    hide Run;
    hide Grouped;
    hide Report;
    RequestsFollowLog(env, me, log, i);
    var t := Run(env, me, EMPTY, log).value;
    var signers := FinalizedGroupOf(t).value.invitation.signers;
    assert VotedAs(t.withdrawals[log[i].id], user, if user in signers then Vote(log, i, user) else None);
    var votes := (e: LogEvent) => IsVote(e, log[i].id, user);
    SameKind(log, i, votes, (e: LogEvent) => IsVote(e, log[i].id, user));
    forall j: nat | IsFirst(log, i, j, votes) ensures FirstAfter(log, i, votes) == Some(j) {
      FirstIsUnique(log, i, j, votes);
    }
  }

  // ---------------------------------------------------------------- deposits

  ghost predicate DepositAt(env: Env, me: UserId, log: seq<LogEvent>, i: nat) {
    i < |log| && log[i].event.NotifyDeposit? && Grouped(env, me, log, i)
  }

  function DepositOf(e: LogEvent): Deposit
    requires e.event.NotifyDeposit?
  {
    Deposit(e.sender, e.event.fiatAmount, e.event.txid, e.event.description)
  }

  lemma StepKeepsDeposit(env: Env, me: UserId, t: Tables, e: LogEvent, id: EventId)
    requires FinalizedGroupOf(t).Some? && id in t.deposits && Step(env, me, t, e).Some?
    ensures id in Step(env, me, t, e).value.deposits && Step(env, me, t, e).value.deposits[id] == t.deposits[id]
  {
    hide Step;
    if e.event.RespondToWithdrawal? {
      ResponseTables(env, me, t, e);
    } else if e.event.RequestWithdrawal? || e.event.NotifyDeposit? {
      NoDuplicates(env, me, t, e);
      RequestTables(env, me, t, e);
    } else {
      GroupEventKeepsRequests(env, me, t, e);
    }
  }

  /** Every deposit noted under a finalized group is stored as its event gave it. */
  lemma {:induction false} DepositsFollowLog(env: Env, me: UserId, log: seq<LogEvent>, i: nat)
    requires Run(env, me, EMPTY, log).Some? && DepositAt(env, me, log, i)
    ensures var t := Run(env, me, EMPTY, log).value;
      && FinalizedGroupOf(t).Some? && log[i].id in t.deposits && t.deposits[log[i].id] == DepositOf(log[i])
  {
    hide Step;
    hide Grouped;
    var front, e := log[..|log| - 1], log[|log| - 1];
    assert log == front + [e];
    BeforeLast(env, me, front, e);
    var t := Run(env, me, EMPTY, front).value;
    if i < |front| {
      BeforeStays(env, me, front, e, i);
      DepositsFollowLog(env, me, front, i);
      StepKeepsDeposit(env, me, t, e, log[i].id);
      FinalizedStepIsPermanent(env, me, t, e);
    } else {
      GroupedNow(env, me, log, i);
      RequestTables(env, me, t, e);
    }
  }

  lemma StepStoresOnly(env: Env, me: UserId, t: Tables, e: LogEvent)
    requires Step(env, me, t, e).Some?
    ensures var t' := Step(env, me, t, e).value;
      && (forall r :: r in t'.withdrawals && r !in t.withdrawals ==>
            e.id == r && e.event.RequestWithdrawal? && FinalizedGroupOf(t).Some?)
      && (forall r :: r in t'.deposits && r !in t.deposits ==>
            e.id == r && e.event.NotifyDeposit? && FinalizedGroupOf(t).Some?)
  {
    hide Step;
    hide WithResponse;
    if e.event.RespondToWithdrawal? {
      ResponseTables(env, me, t, e);
    } else if e.event.RequestWithdrawal? || e.event.NotifyDeposit? {
      RequestTables(env, me, t, e);
    } else {
      GroupEventKeepsRequests(env, me, t, e);
    }
  }

  /** Nothing else is stored. */
  lemma {:induction false} StoredFromLog(env: Env, me: UserId, log: seq<LogEvent>, r: EventId)
    requires Run(env, me, EMPTY, log).Some?
    ensures r in Run(env, me, EMPTY, log).value.withdrawals ==>
              exists i: nat :: RequestAt(env, me, log, i) && log[i].id == r
    ensures r in Run(env, me, EMPTY, log).value.deposits ==>
              exists i: nat :: DepositAt(env, me, log, i) && log[i].id == r
  {
    hide Step;
    if log != [] {
      var front, e := log[..|log| - 1], log[|log| - 1];
      assert log == front + [e];
      BeforeLast(env, me, front, e);
      StoredFromLog(env, me, front, r);
      var t, t' := Run(env, me, EMPTY, front).value, Run(env, me, EMPTY, log).value;
      StepStoresOnly(env, me, t, e);
      if r in t'.withdrawals {
        if r in t.withdrawals {
          var i: nat :| RequestAt(env, me, front, i) && front[i].id == r;
          BeforeStays(env, me, front, e, i);
          assert RequestAt(env, me, log, i) && log[i].id == r;
        } else {
          assert RequestAt(env, me, log, |front|) && log[|front|].id == r;
        }
      }
      if r in t'.deposits {
        if r in t.deposits {
          var i: nat :| DepositAt(env, me, front, i) && front[i].id == r;
          BeforeStays(env, me, front, e, i);
          assert DepositAt(env, me, log, i) && log[i].id == r;
        } else {
          assert DepositAt(env, me, log, |front|) && log[|front|].id == r;
        }
      }
    }
  }

  // ---------------------------------------------------------------- what a listing shows

  /** The index entry an event gets, and keeps. */
  lemma {:induction false} IndexFollowsLog(env: Env, me: UserId, log: seq<LogEvent>, i: nat) returns (c: nat)
    requires FreshLog({}, log) && Run(env, me, EMPTY, log).Some?
    requires RequestAt(env, me, log, i) || DepositAt(env, me, log, i)
    ensures var chrono := Run(env, me, EMPTY, log).value.chrono;
            c in chrono && chrono[c] == ChronoEntry(log[i].id, log[i].time)
  {
    hide Step;
    hide Grouped;
    hide Consistent;
    hide IndexMatchesEvents;
    var front, e := log[..|log| - 1], log[|log| - 1];
    assert log == front + [e];
    BeforeLast(env, me, front, e);
    var t := Run(env, me, EMPTY, front).value;
    EmptyIsStart(env);
    EmptyIsIndexed();
    RunKeepsConsistent(env, me, EMPTY, {}, front);
    RunKeepsIndex(env, me, EMPTY, {}, front);
    if i < |front| {
      BeforeStays(env, me, front, e, i);
      c := IndexFollowsLog(env, me, front, i);
      StepKeepsIndex(env, me, t, e);
    } else {
      GroupedNow(env, me, log, i);
      IndexAfterStep(env, me, t, e);
      c := ChronoCount(t.chrono);
    }
  }

  /** Under a finalized group an event's own identifier names no invitation. */
  lemma {:induction false} NotAnInvitation(env: Env, me: UserId, log: seq<LogEvent>, i: nat)
    requires FreshLog({}, log) && Run(env, me, EMPTY, log).Some? && i < |log| && Grouped(env, me, log, i)
    ensures FinalizedGroupOf(Run(env, me, EMPTY, log).value).Some?
    ensures log[i].id !in Run(env, me, EMPTY, log).value.invitations
  {
    hide Step;
    hide Consistent;
    hide Grouped;
    var front, e := log[..|log| - 1], log[|log| - 1];
    assert log == front + [e];
    BeforeLast(env, me, front, e);
    var t := Run(env, me, EMPTY, front).value;
    EmptyIsStart(env);
    RunKeepsConsistent(env, me, EMPTY, {}, front);
    if i < |front| {
      BeforeStays(env, me, front, e, i);
      NotAnInvitation(env, me, front, i);
    } else {
      GroupedNow(env, me, log, i);
    }
    FinalizedStepIsPermanent(env, me, t, e);
  }

  /** A withdrawal and a deposit never share an identifier. */
  lemma RequestIsNoDeposit(env: Env, me: UserId, log: seq<LogEvent>, i: nat)
    requires FreshLog({}, log) && Run(env, me, EMPTY, log).Some? && RequestAt(env, me, log, i)
    ensures log[i].id !in Run(env, me, EMPTY, log).value.deposits
  {
    hide Run;
    hide Grouped;
    StoredFromLog(env, me, log, log[i].id);
    if log[i].id in Run(env, me, EMPTY, log).value.deposits {
      var j: nat :| DepositAt(env, me, log, j) && log[j].id == log[i].id;
      IdsDiffer(log, i, j);
    }
  }

  lemma {:induction false} IdIsSeen(seen: set<EventId>, log: seq<LogEvent>, i: nat)
    requires i < |log|
    ensures log[i].id in Seen(seen, log)
  {
    if i < |log| - 1 {
      IdIsSeen(seen, log[..|log| - 1], i);
    }
  }

  lemma {:induction false} IdsDiffer(log: seq<LogEvent>, i: nat, j: nat)
    requires FreshLog({}, log) && i < |log| && j < |log| && i != j
    ensures log[i].id != log[j].id
    decreases |log|
  {
    var front := log[..|log| - 1];
    if i == |log| - 1 {
      IdIsSeen({}, front, j);
    } else if j == |log| - 1 {
      IdIsSeen({}, front, i);
    } else {
      IdsDiffer(front, i, j);
    }
  }

  /** What a reader sees of event `i`. */
  ghost predicate Shows(item: ListedEvent, t: Tables, e: LogEvent) {
    && item.eventId == e.id && item.time == e.time
    && (e.event.NotifyDeposit? ==> item.data == DepositData(DepositOf(e)))
    && (e.event.RequestWithdrawal? ==>
          && e.id in t.withdrawals && item.data == WithdrawalData(t.withdrawals[e.id])
          && item.data.withdrawal.request == e.event.request && item.data.withdrawal.sender == e.sender
          && item.data.withdrawal.description == e.event.description)
  }

  /** The data stored for an event is what is reported for it. */
  lemma DataFollowsLog(env: Env, me: UserId, log: seq<LogEvent>, i: nat)
    requires FreshLog({}, log) && Run(env, me, EMPTY, log).Some?
    ensures var t := Run(env, me, EMPTY, log).value;
      && (DepositAt(env, me, log, i) ==> DataOf(t, log[i].id) == Some(DepositData(DepositOf(log[i]))))
      && (RequestAt(env, me, log, i) ==>
            && log[i].id in t.withdrawals && DataOf(t, log[i].id) == Some(WithdrawalData(t.withdrawals[log[i].id]))
            && t.withdrawals[log[i].id].request == log[i].event.request
            && t.withdrawals[log[i].id].description == log[i].event.description
            && t.withdrawals[log[i].id].sender == log[i].sender)
  {
    hide Run;
    hide Grouped;
    hide FreshLog;
    hide Report;
    hide VotedAs;
    if DepositAt(env, me, log, i) {
      DepositsFollowLog(env, me, log, i);
      NotAnInvitation(env, me, log, i);
    }
    if RequestAt(env, me, log, i) {
      RequestsFollowLog(env, me, log, i);
      NotAnInvitation(env, me, log, i);
      RequestIsNoDeposit(env, me, log, i);
    }
  }

  /**
   * A full listing of a room shows every deposit and every request made under its group, with the data of its
   * event and the time the event was sent.
   */
  lemma ListingFollowsLog(env: Env, me: UserId, log: seq<LogEvent>, i: nat, limit: nat) returns (k: nat)
    requires FreshLog({}, log) && Run(env, me, EMPTY, log).Some?
    requires RequestAt(env, me, log, i) || DepositAt(env, me, log, i)
    requires limit >= Size(Run(env, me, EMPTY, log).value.chrono)
    ensures var t := Run(env, me, EMPTY, log).value;
            k < |Page(t, None, limit)| && Shows(Page(t, None, limit)[k], t, log[i])
  {
    hide Run;
    hide Grouped;
    hide FreshLog;
    hide DataOf;
    hide PageCounters;
    hide IndexMatchesEvents;
    var t := Run(env, me, EMPTY, log).value;
    EmptyIsStart(env);
    EmptyIsIndexed();
    RunKeepsIndex(env, me, EMPTY, {}, log);
    var c := IndexFollowsLog(env, me, log, i);
    var counters := PageCounters(t.chrono, None, limit);
    k := CounterIsListed(t, limit, c);
    PageIsComplete(t, counters, |counters|);
    assert Lists(t, Page(t, None, limit)[k], counters[k]);
    DataFollowsLog(env, me, log, i);
  }

  lemma CounterIsListed(t: Tables, limit: nat, c: nat) returns (k: nat)
    requires IndexMatchesEvents(t) && c in t.chrono && limit >= Size(t.chrono)
    ensures var counters := PageCounters(t.chrono, None, limit); k < |counters| && counters[k] == c
  {
    hide NamesOnly;
    hide NamesOnce;
    hide NamesAll;
    hide Descending;
    var all := CountersBelow(t.chrono, None);
    assert all == t.chrono.Keys;
    assert c in Descending(all);
    k :| 0 <= k < |Descending(all)| && Descending(all)[k] == c;
  }
}
