/**
 * What every run of the room's state machine keeps: records agree with the group status, a
 * finalized group is permanent, and it is complete exactly when its opening event named no key
 * holder outside the signers.
 */
module GroupInvariants {
  import opened Options
  import opened Ordered
  import opened Multispend

  // ---------------------------------------------------------------- fresh event identifiers

  /** Identifiers an event may store under: its own, and the invitation it reannounces. */
  function Names(e: LogEvent): set<EventId> {
    if e.event.Reannounce? then {e.id, e.event.invitationId} else {e.id}
  }

  function Seen(seen: set<EventId>, log: seq<LogEvent>): set<EventId> {
    if log == [] then seen else Seen(seen, log[..|log| - 1]) + Names(log[|log| - 1])
  }

  /** No event reuses an identifier that was named before it, or names its own. */
  ghost predicate FreshLog(seen: set<EventId>, log: seq<LogEvent>) {
    log == [] || (
      var front, e := log[..|log| - 1], log[|log| - 1];
      && FreshLog(seen, front)
      && e.id !in Seen(seen, front)
      && (e.event.Reannounce? ==> e.event.invitationId != e.id))
  }

  ghost predicate StoredIn(t: Tables, ids: set<EventId>) {
    t.invitations.Keys + t.withdrawals.Keys + t.deposits.Keys + t.invalid <= ids
  }

  // ---------------------------------------------------------------- consistency of the tables

  /** The status names a stored record, and a finalized group is what that record finalizes to. */
  ghost predicate StatusMatchesRecords(t: Tables) {
    match t.status
    case None => true
    case Some(ActiveInvitation(id)) => id in t.invitations
    case Some(Finalized(id, group)) =>
      id in t.invitations && ToFinalized(t.invitations[id]) == Some(group)
  }

  ghost predicate RecordsNameTheirFederation(env: Env, t: Tables) {
    forall id :: id in t.invitations ==>
      env.federationOf(t.invitations[id].invitation.inviteCode) == Some(t.invitations[id].federationId)
  }

  ghost predicate VotesAreFromSigners(w: Withdrawal, group: FinalizedGroup) {
    && w.signatures.Keys + w.rejections <= group.invitation.signers
    && w.signatures.Keys !! w.rejections
  }

  /** Withdrawals and deposits exist only under a finalized group, and only its signers voted. */
  ghost predicate WithdrawalsMatchGroup(t: Tables) {
    match FinalizedGroupOf(t)
    case None => t.withdrawals == map[] && t.deposits == map[] && t.chrono == map[] && t.pending == {}
    case Some(group) => forall r :: r in t.withdrawals ==> VotesAreFromSigners(t.withdrawals[r], group)
  }

  ghost predicate Consistent(env: Env, t: Tables) {
    && StatusMatchesRecords(t)
    && RecordsNameTheirFederation(env, t)
    && WithdrawalsMatchGroup(t)
  }

  lemma StepKeepsStatus(env: Env, me: UserId, t: Tables, e: LogEvent)
    requires StatusMatchesRecords(t) && Step(env, me, t, e).Some?
    ensures StatusMatchesRecords(Step(env, me, t, e).value)
  {
    hide RowFor;
    hide ChronoCount;
    hide WithResponse;
    hide WithVote;
  }

  lemma VoteKeepsTerms(record: GroupInvitation, sender: UserId, vote: GroupVote)
    requires WithVote(record, sender, vote).Some?
    ensures var after := WithVote(record, sender, vote).value;
            after.invitation == record.invitation && after.federationId == record.federationId
  {
  }

  lemma StepKeepsFederations(env: Env, me: UserId, t: Tables, e: LogEvent)
    requires RecordsNameTheirFederation(env, t) && Step(env, me, t, e).Some?
    ensures RecordsNameTheirFederation(env, Step(env, me, t, e).value)
  {
    hide RowFor;
    hide ToFinalized;
    hide WithVote;
    hide WithResponse;
    hide ChronoCount;
    if e.event.VoteOnInvitation? && e.event.target in t.invitations
       && WithVote(t.invitations[e.event.target], e.sender, e.event.vote).Some? {
      VoteKeepsTerms(t.invitations[e.event.target], e.sender, e.event.vote);
    }
  }

  lemma ResponseIsFromSigners(w: Withdrawal, sender: UserId, response: WithdrawalResponse, group: FinalizedGroup)
    requires VotesAreFromSigners(w, group) && WithResponse(w, sender, response, group).Some?
    ensures VotesAreFromSigners(WithResponse(w, sender, response, group).value.0, group)
  {
  }

  lemma StepKeepsWithdrawals(env: Env, me: UserId, t: Tables, e: LogEvent)
    requires WithdrawalsMatchGroup(t) && Step(env, me, t, e).Some?
    ensures WithdrawalsMatchGroup(Step(env, me, t, e).value)
  {
    hide RowFor;
    hide ChronoCount;
    hide ToFinalized;
    hide WithResponse;
    hide VotesAreFromSigners;
    match e.event {
      case RespondToWithdrawal(r, response) =>
        if FinalizedGroupOf(t).Some? && r in t.withdrawals {
          var group := FinalizedGroupOf(t).value;
          if WithResponse(t.withdrawals[r], e.sender, response, group).Some? {
            ResponseIsFromSigners(t.withdrawals[r], e.sender, response, group);
          }
        }
      case RequestWithdrawal(request, description) =>
        if FinalizedGroupOf(t).Some? {
          NewWithdrawalHasNoVotes(Withdrawal(request, description, map[], {}, Unknown, e.sender),
                                  FinalizedGroupOf(t).value);
        }
      case _ =>
    }
  }

  lemma NewWithdrawalHasNoVotes(w: Withdrawal, group: FinalizedGroup)
    requires w.signatures == map[] && w.rejections == {}
    ensures VotesAreFromSigners(w, group)
  {
  }

  lemma StepKeepsConsistent(env: Env, me: UserId, t: Tables, e: LogEvent)
    requires Consistent(env, t) && Step(env, me, t, e).Some?
    ensures Consistent(env, Step(env, me, t, e).value)
  {
    hide Step;
    StepKeepsStatus(env, me, t, e);
    StepKeepsFederations(env, me, t, e);
    StepKeepsWithdrawals(env, me, t, e);
  }

  /** Identifiers under which a step's tables hold data that the tables before it do not. */
  lemma StepStoresInvitations(env: Env, me: UserId, t: Tables, e: LogEvent)
    requires Step(env, me, t, e).Some?
    ensures Step(env, me, t, e).value.invitations.Keys <= t.invitations.Keys + Names(e)
    ensures Step(env, me, t, e).value.invalid <= t.invalid + Names(e)
  {
    hide ToFinalized;
    hide WithVote;
    hide WithResponse;
    hide RowFor;
    hide ChronoCount;
    hide NewInvitation;
  }

  lemma StepStoresRequests(env: Env, me: UserId, t: Tables, e: LogEvent)
    requires Step(env, me, t, e).Some?
    ensures Step(env, me, t, e).value.withdrawals.Keys <= t.withdrawals.Keys + Names(e)
    ensures Step(env, me, t, e).value.deposits.Keys <= t.deposits.Keys + Names(e)
  {
    hide ToFinalized;
    hide WithVote;
    hide WithResponse;
    hide RowFor;
    hide ChronoCount;
    hide NewInvitation;
  }

  lemma StepStores(env: Env, me: UserId, t: Tables, e: LogEvent, seen: set<EventId>)
    requires StoredIn(t, seen) && Step(env, me, t, e).Some?
    ensures StoredIn(Step(env, me, t, e).value, seen + Names(e))
  {
    hide Step;
    hide Names;
    StepStoresInvitations(env, me, t, e);
    StepStoresRequests(env, me, t, e);
  }

  lemma {:induction false} RunKeepsConsistent(env: Env, me: UserId, t: Tables, seen: set<EventId>, log: seq<LogEvent>)
    requires Consistent(env, t) && StoredIn(t, seen) && Run(env, me, t, log).Some?
    ensures Consistent(env, Run(env, me, t, log).value)
    ensures StoredIn(Run(env, me, t, log).value, Seen(seen, log))
  {
    hide Step;
    hide Consistent;
    hide StoredIn;
    if log != [] {
      var front, e := log[..|log| - 1], log[|log| - 1];
      RunKeepsConsistent(env, me, t, seen, front);
      var before := Run(env, me, t, front).value;
      StepKeepsConsistent(env, me, before, e);
      StepStores(env, me, before, e, Seen(seen, front));
    }
  }

  // ---------------------------------------------------------------- what one event does to requests

  ghost predicate IsGroupEvent(e: LogEvent) {
    e.event.InviteGroup? || e.event.Reannounce? || e.event.VoteOnInvitation? || e.event.CancelInvitation?
  }

  lemma GroupEventKeepsRequests(env: Env, me: UserId, t: Tables, e: LogEvent)
    requires IsGroupEvent(e) && Step(env, me, t, e).Some?
    ensures var t' := Step(env, me, t, e).value; t'.withdrawals == t.withdrawals && t'.deposits == t.deposits
  {
    hide ToFinalized;
    hide WithVote;
  }

  /** Requests and deposits after an event that names a new one. */
  lemma RequestTables(env: Env, me: UserId, t: Tables, e: LogEvent)
    requires e.event.RequestWithdrawal? || e.event.NotifyDeposit?
    requires Step(env, me, t, e).Some?
    ensures var t' := Step(env, me, t, e).value;
            && t'.status == t.status && t'.invitations == t.invitations
            && t'.withdrawals == (
              if FinalizedGroupOf(t).Some? && e.event.RequestWithdrawal? then
                t.withdrawals[e.id := Withdrawal(e.event.request, e.event.description, map[], {}, Unknown, e.sender)]
              else t.withdrawals)
            && t'.deposits == (
              if FinalizedGroupOf(t).Some? && e.event.NotifyDeposit? then
                t.deposits[e.id := Deposit(e.sender, e.event.fiatAmount, e.event.txid, e.event.description)]
              else t.deposits)
  {
    hide ChronoCount;
  }

  /** Requests and deposits after a response, whoever the device belongs to. */
  lemma ResponseTables(env: Env, me: UserId, t: Tables, e: LogEvent)
    requires e.event.RespondToWithdrawal? && Step(env, me, t, e).Some?
    ensures var t' := Step(env, me, t, e).value;
            && t'.status == t.status && t'.invitations == t.invitations && t'.deposits == t.deposits
            && t'.withdrawals == Responded(t, e)
  {
    hide WithResponse;
    hide RowFor;
  }

  ghost function Responded(t: Tables, e: LogEvent): map<EventId, Withdrawal>
    requires e.event.RespondToWithdrawal?
  {
    var r := e.event.target;
    if FinalizedGroupOf(t).None? || r !in t.withdrawals then t.withdrawals else
      match WithResponse(t.withdrawals[r], e.sender, e.event.response, FinalizedGroupOf(t).value)
      case None => t.withdrawals
      case Some((w, _)) => t.withdrawals[r := w]
  }

  // ---------------------------------------------------------------- finalized groups are permanent

  lemma FinalizedStepIsPermanent(env: Env, me: UserId, t: Tables, e: LogEvent)
    requires FinalizedGroupOf(t).Some? && Step(env, me, t, e).Some?
    ensures Step(env, me, t, e).value.status == t.status
    ensures Step(env, me, t, e).value.invitations == t.invitations
  {
  }

  /** No later log changes a finalized group, whoever sends what. */
  lemma {:induction false} FinalizedIsPermanent(env: Env, me: UserId, t: Tables, log: seq<LogEvent>)
    requires FinalizedGroupOf(t).Some? && Run(env, me, t, log).Some?
    ensures Run(env, me, t, log).value.status == t.status
    ensures Run(env, me, t, log).value.invitations == t.invitations
  {
    hide Step;
    if log != [] {
      var front := log[..|log| - 1];
      FinalizedIsPermanent(env, me, t, front);
      FinalizedStepIsPermanent(env, me, Run(env, me, t, front).value, log[|log| - 1]);
    }
  }

  // ---------------------------------------------------------------- completeness

  ghost predicate KeysComplete(group: FinalizedGroup) {
    group.pubkeys.Keys == group.invitation.signers
  }

  /** The event that opens invitation `id`, with the terms it opens it with. */
  ghost predicate Opens(e: LogEvent, id: EventId) {
    || (e.event.InviteGroup? && e.id == id)
    || (e.event.Reannounce? && e.event.invitationId == id)
  }

  function OpeningKeys(e: LogEvent): set<UserId> {
    match e.event
    case InviteGroup(_, _) => {e.sender}
    case Reannounce(_, _, _, pubkeys, _) => pubkeys.Keys
    case _ => {}
  }

  function OpeningRejections(e: LogEvent): set<UserId> {
    if e.event.Reannounce? then e.event.rejections else {}
  }

  function OpeningTerms(e: LogEvent): Option<Invitation> {
    match e.event
    case InviteGroup(invitation, _) => Some(invitation)
    case Reannounce(_, invitation, _, _, _) => Some(invitation)
    case _ => None
  }

  /** The record still has the opening terms, and only signers were added to its votes since. */
  ghost predicate GrewFrom(record: GroupInvitation, e: LogEvent) {
    && OpeningTerms(e) == Some(record.invitation)
    && OpeningKeys(e) <= record.pubkeys.Keys <= OpeningKeys(e) + record.invitation.signers
    && OpeningRejections(e) <= record.rejections <= OpeningRejections(e) + record.invitation.signers
    && (OpeningKeys(e) !! OpeningRejections(e) ==> record.pubkeys.Keys !! record.rejections)
  }

  ghost predicate HasOpener(record: GroupInvitation, id: EventId, log: seq<LogEvent>) {
    exists i :: 0 <= i < |log| && Opens(log[i], id) && GrewFrom(record, log[i])
  }

  ghost predicate EveryRecordHasOpener(t: Tables, log: seq<LogEvent>) {
    forall id :: id in t.invitations ==> HasOpener(t.invitations[id], id, log)
  }

  /** One step leaves each record alone, opens it, or adds one signer's vote. */
  lemma RecordAfterStep(env: Env, me: UserId, t: Tables, e: LogEvent, id: EventId, opener: LogEvent)
    requires Step(env, me, t, e).Some? && id in Step(env, me, t, e).value.invitations
    requires id in t.invitations ==> GrewFrom(t.invitations[id], opener)
    ensures var record := Step(env, me, t, e).value.invitations[id];
            if id in t.invitations then GrewFrom(record, opener) else Opens(e, id) && GrewFrom(record, e)
  {
    hide RowFor;
    hide ChronoCount;
    hide ToFinalized;
    var after := Step(env, me, t, e).value;
    match e.event {
      case VoteOnInvitation(target, vote) =>
        if after.invitations != t.invitations && target == id {
          VoteGrows(t.invitations[id], opener, e.sender, vote);
        }
      case InviteGroup(_, _) =>
      case Reannounce(_, _, _, _, _) =>
      case _ => assert after.invitations == t.invitations;
    }
  }

  lemma VoteGrows(record: GroupInvitation, opener: LogEvent, sender: UserId, vote: GroupVote)
    requires GrewFrom(record, opener) && WithVote(record, sender, vote).Some?
    ensures GrewFrom(WithVote(record, sender, vote).value, opener)
  {
  }

  lemma {:induction false} RecordsHaveOpeners(env: Env, me: UserId, log: seq<LogEvent>)
    requires Run(env, me, EMPTY, log).Some?
    ensures EveryRecordHasOpener(Run(env, me, EMPTY, log).value, log)
  {
    hide Step;
    hide GrewFrom;
    if log != [] {
      var front, e := log[..|log| - 1], log[|log| - 1];
      RecordsHaveOpeners(env, me, front);
      var before, after := Run(env, me, EMPTY, front).value, Run(env, me, EMPTY, log).value;
      forall id | id in after.invitations ensures HasOpener(after.invitations[id], id, log) {
        if id in before.invitations {
          var i :| 0 <= i < |front| && Opens(front[i], id) && GrewFrom(before.invitations[id], front[i]);
          RecordAfterStep(env, me, before, e, id, front[i]);
          assert Opens(log[i], id) && GrewFrom(after.invitations[id], log[i]);
        } else {
          RecordAfterStep(env, me, before, e, id, e);
          assert log[|log| - 1] == e;
        }
      }
    }
  }

  /**
   * Main result on completeness. A group finalized by any log has exactly one key per signer if and
   * only if the event that opened it named only signers as key holders; and then, if that event also
   * rejected nobody outside the signers and nobody it gave a key to, nobody has rejected the group.
   */
  lemma FinalizedIsCompleteIff(env: Env, me: UserId, log: seq<LogEvent>) returns (i: nat)
    requires Run(env, me, EMPTY, log).Some?
    requires FinalizedGroupOf(Run(env, me, EMPTY, log).value).Some?
    ensures var t := Run(env, me, EMPTY, log).value;
            var group := FinalizedGroupOf(t).value;
            && i < |log| && Opens(log[i], t.status.value.inviteId)
            && (KeysComplete(group) <==> OpeningKeys(log[i]) <= group.invitation.signers)
            && t.status.value.inviteId in t.invitations
            && (KeysComplete(group) && OpeningRejections(log[i]) <= group.invitation.signers
                && OpeningKeys(log[i]) !! OpeningRejections(log[i])
                ==> t.invitations[t.status.value.inviteId].rejections == {})
  {
    var t := Run(env, me, EMPTY, log).value;
    RunKeepsConsistent(env, me, EMPTY, {}, log);
    RecordsHaveOpeners(env, me, log);
    var id, group := t.status.value.inviteId, FinalizedGroupOf(t).value;
    var record := t.invitations[id];
    i :| 0 <= i < |log| && Opens(log[i], id) && GrewFrom(record, log[i]);
    assert |group.pubkeys.Keys| == |group.invitation.signers|;
    if OpeningKeys(log[i]) <= group.invitation.signers {
      SubsetSize(group.pubkeys.Keys, group.invitation.signers);
    }
  }
}
