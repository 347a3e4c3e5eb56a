/**
 * The group, told from the log alone: each invitation with the ballots cast on it while it was active, which
 * of them the status names, when it is final, and which events were refused or raised a flag.
 */
module GroupHistory {
  import opened Options
  import opened Ordered
  import opened Multispend
  import opened GroupInvariants
  import opened Approvals
  import opened Faults
  import opened LateJoiner
  import opened RoomHistory

  // ---------------------------------------------------------------- invitations and ballots

  /** The event opens an invitation, on these tables. */
  predicate OpensOn(env: Env, t: Tables, e: LogEvent, id: EventId) {
    match e.event
    case InviteGroup(invitation, _) =>
      id == e.id && FinalizedGroupOf(t).None? && env.federationOf(invitation.inviteCode).Some?
    case Reannounce(known, invitation, _, _, _) =>
      id == known && t.status.None? && id !in t.invitations && env.federationOf(invitation.inviteCode).Some?
    case _ => false
  }

  /** And this is what it opens it with. */
  predicate OpensWith(env: Env, e: LogEvent, record: GroupInvitation) {
    match e.event
    case InviteGroup(invitation, key) =>
      && record.invitation == invitation && record.proposer == e.sender
      && env.federationOf(invitation.inviteCode) == Some(record.federationId)
    case Reannounce(_, invitation, proposer, _, _) =>
      && record.invitation == invitation && record.proposer == proposer
      && env.federationOf(invitation.inviteCode) == Some(record.federationId)
    case _ => false
  }

  /** The ballot an opening brings along for a user. */
  function OpeningBallot(e: LogEvent, user: UserId): Option<GroupVote> {
    match e.event
    case InviteGroup(_, key) => if user == e.sender then Some(Accept(key)) else None
    case Reannounce(_, _, _, pubkeys, rejections) =>
      if user in pubkeys then Some(Accept(pubkeys[user]))
      else if user in rejections then Some(Decline) else None
    case _ => None
  }

  ghost predicate OpenedAt(env: Env, me: UserId, log: seq<LogEvent>, i: nat, id: EventId) {
    i < |log| && Before(env, me, log, i).Some? && OpensOn(env, Before(env, me, log, i).value, log[i], id)
  }

  /** Event `j` is the user's vote on the invitation while it is active. */
  ghost predicate BallotAt(env: Env, me: UserId, log: seq<LogEvent>, j: nat, id: EventId, user: UserId) {
    && j < |log| && log[j].event.VoteOnInvitation? && log[j].event.target == id && log[j].sender == user
    && Before(env, me, log, j).Some? && IsActive(Before(env, me, log, j).value, id)
  }

  ghost predicate IsFirstBallot(
      env: Env, me: UserId, log: seq<LogEvent>, i: nat, j: nat, id: EventId, user: UserId) {
    && i < j && BallotAt(env, me, log, j, id, user)
    && forall k: nat :: i < k < j ==> !BallotAt(env, me, log, k, id, user)
  }

  ghost function FirstBallot(env: Env, me: UserId, log: seq<LogEvent>, i: nat, id: EventId, user: UserId)
    : (first: Option<nat>)
    ensures first.Some? ==> IsFirstBallot(env, me, log, i, first.value, id, user)
    ensures first.None? ==> forall k: nat :: i < k ==> !BallotAt(env, me, log, k, id, user)
  {
    if k: nat :| i < k && BallotAt(env, me, log, k, id, user) then
      var j := LeastBallot(env, me, log, i, k, id, user);
      Some(j)
    else None
  }

  /** The first of the votes up to `k`. */
  ghost function LeastBallot(env: Env, me: UserId, log: seq<LogEvent>, i: nat, k: nat, id: EventId, user: UserId)
    : (j: nat)
    requires i < k && BallotAt(env, me, log, k, id, user)
    ensures IsFirstBallot(env, me, log, i, j, id, user)
    decreases k
  {
    if m: nat :| i < m < k && BallotAt(env, me, log, m, id, user) then LeastBallot(env, me, log, i, m, id, user)
    else k
  }

  lemma BallotIsInLog(env: Env, me: UserId, log: seq<LogEvent>, j: nat, id: EventId, user: UserId)
    requires BallotAt(env, me, log, j, id, user)
    ensures j < |log| && log[j].event.VoteOnInvitation?
  {
  }

  lemma FirstBallotIsUnique(
      env: Env, me: UserId, log: seq<LogEvent>, i: nat, j: nat, id: EventId, user: UserId)
    requires IsFirstBallot(env, me, log, i, j, id, user)
    ensures FirstBallot(env, me, log, i, id, user) == Some(j)
  {
    hide BallotAt;
    BallotIsInLog(env, me, log, j, id, user);
    var first := FirstBallot(env, me, log, i, id, user);
  }

  lemma BallotStays(env: Env, me: UserId, front: seq<LogEvent>, e: LogEvent, j: nat, id: EventId, user: UserId)
    requires j < |front|
    ensures BallotAt(env, me, front + [e], j, id, user) <==> BallotAt(env, me, front, j, id, user)
  {
    hide Before;
    BeforeStays(env, me, front, e, j);
  }

  lemma FirstBallotGrows(
      env: Env, me: UserId, front: seq<LogEvent>, e: LogEvent, i: nat, id: EventId, user: UserId)
    requires i < |front|
    ensures FirstBallot(env, me, front + [e], i, id, user)
         == match FirstBallot(env, me, front, i, id, user)
            case Some(j) => Some(j)
            case None => if BallotAt(env, me, front + [e], |front|, id, user) then Some(|front|) else None
  {
    hide BallotAt;
    var log := front + [e];
    forall j: nat | j < |front|
      ensures BallotAt(env, me, log, j, id, user) <==> BallotAt(env, me, front, j, id, user)
    {
      BallotStays(env, me, front, e, j, id, user);
    }
    var before := FirstBallot(env, me, front, i, id, user);
    if before.Some? {
      BallotIsInLog(env, me, front, before.value, id, user);
      assert IsFirstBallot(env, me, log, i, before.value, id, user);
      FirstBallotIsUnique(env, me, log, i, before.value, id, user);
    } else if BallotAt(env, me, log, |front|, id, user) {
      assert IsFirstBallot(env, me, log, i, |front|, id, user);
      FirstBallotIsUnique(env, me, log, i, |front|, id, user);
    } else {
      var after := FirstBallot(env, me, log, i, id, user);
      if after.Some? {
        BallotIsInLog(env, me, log, after.value, id, user);
      }
    }
  }

  /** How the user stands: by the opening, or else, for a signer, by the first vote while it was active. */
  ghost function Ballot(env: Env, me: UserId, log: seq<LogEvent>, i: nat, record: GroupInvitation, id: EventId,
                        user: UserId): Option<GroupVote>
    requires i < |log|
  {
    if OpeningBallot(log[i], user).Some? then OpeningBallot(log[i], user)
    else if user !in record.invitation.signers then None
    else
      match FirstBallot(env, me, log, i, id, user)
      case Some(j) => BallotIsInLog(env, me, log, j, id, user); Some(log[j].event.vote)
      case None => None
  }

  ghost predicate StandsAs(record: GroupInvitation, user: UserId, ballot: Option<GroupVote>) {
    match ballot
    case Some(Accept(key)) => user in record.pubkeys && record.pubkeys[user] == key
    case Some(Decline) => user !in record.pubkeys && user in record.rejections
    case None => user !in record.pubkeys && user !in record.rejections
  }

  /** The stored invitation says what its opening said and how everybody voted. */
  ghost predicate TellsInvitation(env: Env, me: UserId, t: Tables, log: seq<LogEvent>, i: nat, id: EventId)
    requires i < |log|
  {
    && id in t.invitations && OpensWith(env, log[i], t.invitations[id])
    && forall u :: StandsAs(t.invitations[id], u, Ballot(env, me, log, i, t.invitations[id], id, u))
  }

  /** An invitation as an event opens it. */
  function NewRecord(e: LogEvent, federation: FederationId): GroupInvitation
    requires e.event.InviteGroup? || e.event.Reannounce?
  {
    match e.event
    case InviteGroup(invitation, key) => GroupInvitation(invitation, e.sender, map[e.sender := key], {}, federation)
    case Reannounce(_, invitation, proposer, pubkeys, rejections) =>
      GroupInvitation(invitation, proposer, pubkeys, rejections, federation)
  }

  /** The invitations after an event: one opened, one voted on, or none changed. */
  lemma InvitationsAfter(env: Env, me: UserId, t: Tables, e: LogEvent)
    requires Step(env, me, t, e).Some?
    ensures var t' := Step(env, me, t, e).value;
      && (e.event.InviteGroup? || e.event.Reannounce? ==>
            var id := if e.event.InviteGroup? then e.id else e.event.invitationId;
            if OpensOn(env, t, e, id) then
              && id !in t.invitations
              && t'.invitations == t.invitations[id := NewRecord(e, env.federationOf(e.event.invitation.inviteCode).value)]
            else t'.invitations == t.invitations)
      && (e.event.VoteOnInvitation? ==>
            var id := e.event.target;
            if IsActive(t, id) && id in t.invitations
               && WithVote(t.invitations[id], e.sender, e.event.vote).Some? then
              t'.invitations == t.invitations[id := WithVote(t.invitations[id], e.sender, e.event.vote).value]
            else t'.invitations == t.invitations)
      && (!e.event.InviteGroup? && !e.event.Reannounce? && !e.event.VoteOnInvitation? ==>
            t'.invitations == t.invitations)
  {
    hide RowFor;
    hide ChronoCount;
    hide ToFinalized;
    hide WithVote;
    hide WithResponse;
  }

  lemma NewRecordTells(env: Env, me: UserId, t: Tables, front: seq<LogEvent>, e: LogEvent, id: EventId)
    requires e.event.InviteGroup? || e.event.Reannounce?
    requires env.federationOf(e.event.invitation.inviteCode).Some? && id in t.invitations
    requires t.invitations[id] == NewRecord(e, env.federationOf(e.event.invitation.inviteCode).value)
    ensures TellsInvitation(env, me, t, front + [e], |front|, id)
  {
    hide BallotAt;
    var log := front + [e];
    forall u ensures StandsAs(t.invitations[id], u, Ballot(env, me, log, |front|, t.invitations[id], id, u)) {
      var first := FirstBallot(env, me, log, |front|, id, u);
      if first.Some? {
        BallotIsInLog(env, me, log, first.value, id, u);
      }
    }
  }

  /** A vote changes the record it counts for as told. */
  lemma VoteTells(record: GroupInvitation, sender: UserId, vote: GroupVote, user: UserId, ballot: Option<GroupVote>,
                  mine: Option<GroupVote>)
    requires StandsAs(record, user, ballot) && StandsAs(record, sender, mine)
    requires user == sender ==> ballot == mine
    requires mine.Some? || sender !in record.invitation.signers || WithVote(record, sender, vote).Some?
    ensures var result := WithVote(record, sender, vote);
            var record' := if result.Some? then result.value else record;
            && record'.invitation == record.invitation && record'.proposer == record.proposer
            && record'.federationId == record.federationId
            && (mine.Some? || sender !in record.invitation.signers ==> result.None?)
            && StandsAs(record', user, if user == sender && ballot.None? && sender in record.invitation.signers
                                       then Some(vote) else ballot)
  {
  }

  lemma FreshVoteCounts(record: GroupInvitation, sender: UserId, vote: GroupVote)
    requires StandsAs(record, sender, None) && sender in record.invitation.signers
    ensures WithVote(record, sender, vote).Some?
  {
  }

  /** How a user stands changes only by that user's first counted vote. */
  lemma BallotGrows(env: Env, me: UserId, front: seq<LogEvent>, e: LogEvent, i: nat, record: GroupInvitation,
                    id: EventId, user: UserId)
    requires i < |front|
    ensures var before := Ballot(env, me, front, i, record, id, user);
            Ballot(env, me, front + [e], i, record, id, user)
            == if before.None? && user in record.invitation.signers
                  && BallotAt(env, me, front + [e], |front|, id, user) then Some(e.event.vote)
               else before
  {
    hide BallotAt;
    hide OpeningBallot;
    var log := front + [e];
    assert log[i] == front[i] && log[|front|] == e;
    FirstBallotGrows(env, me, front, e, i, id, user);
    var first := FirstBallot(env, me, front, i, id, user);
    if first.Some? {
      BallotIsInLog(env, me, front, first.value, id, user);
      assert log[first.value] == front[first.value];
    }
    if BallotAt(env, me, log, |front|, id, user) {
      BallotIsInLog(env, me, log, |front|, id, user);
    }
  }

  /** Only the terms of a record matter for how a user stands by the log. */
  lemma BallotOnTerms(env: Env, me: UserId, log: seq<LogEvent>, i: nat, record: GroupInvitation,
                      other: GroupInvitation, id: EventId, user: UserId)
    requires i < |log| && record.invitation == other.invitation
    ensures Ballot(env, me, log, i, record, id, user) == Ballot(env, me, log, i, other, id, user)
  {
  }

  lemma LastBallot(env: Env, me: UserId, t: Tables, front: seq<LogEvent>, e: LogEvent, id: EventId, user: UserId)
    requires Run(env, me, EMPTY, front) == Some(t)
    ensures BallotAt(env, me, front + [e], |front|, id, user) <==>
              e.event.VoteOnInvitation? && e.event.target == id && e.sender == user && IsActive(t, id)
  {
    hide Step;
    BeforeLast(env, me, front, e);
  }

  lemma StepTellsInvitation(env: Env, me: UserId, t: Tables, front: seq<LogEvent>, e: LogEvent, i: nat, id: EventId)
    requires Run(env, me, EMPTY, front) == Some(t) && Step(env, me, t, e).Some?
    requires i < |front| && TellsInvitation(env, me, t, front, i, id)
    ensures TellsInvitation(env, me, Step(env, me, t, e).value, front + [e], i, id)
  {
    hide Step;
    hide Run;
    hide Ballot;
    hide BallotAt;
    hide StandsAs;
    hide OpensOn;
    hide WithVote;
    InvitationsAfter(env, me, t, e);
    var t', record := Step(env, me, t, e).value, t.invitations[id];
    var voted := e.event.VoteOnInvitation? && e.event.target == id && IsActive(t, id);
    var result := if voted then WithVote(record, e.sender, e.event.vote) else None;
    assert id in t'.invitations && t'.invitations[id] == if result.Some? then result.value else record;
    assert (front + [e])[i] == front[i];
    var mine := Ballot(env, me, front, i, record, id, e.sender);
    assert StandsAs(record, e.sender, mine);
    if voted {
      if mine.None? && e.sender in record.invitation.signers {
        FreshVoteCounts(record, e.sender, e.event.vote);
      }
      VoteTells(record, e.sender, e.event.vote, e.sender, mine, mine);
    }
    forall u ensures StandsAs(t'.invitations[id], u, Ballot(env, me, front + [e], i, t'.invitations[id], id, u)) {
      var ballot := Ballot(env, me, front, i, record, id, u);
      assert StandsAs(record, u, ballot);
      BallotGrows(env, me, front, e, i, record, id, u);
      LastBallot(env, me, t, front, e, id, u);
      if voted {
        VoteTells(record, e.sender, e.event.vote, u, ballot, mine);
      }
      BallotOnTerms(env, me, front + [e], i, record, t'.invitations[id], id, u);
    }
  }

  /**
   * Over any log that runs, an invitation is stored with the terms its event opened it with; a user stands by
   * it as the opening says, or else, for a signer, as the first vote sent while it was active: with the key
   * given, or declined. Nothing else changes it.
   */
  lemma {:induction false} InvitationsFollowLog(env: Env, me: UserId, log: seq<LogEvent>, i: nat, id: EventId)
    requires Run(env, me, EMPTY, log).Some? && OpenedAt(env, me, log, i, id)
    ensures TellsInvitation(env, me, Run(env, me, EMPTY, log).value, log, i, id)
  {
    hide Step;
    hide TellsInvitation;
    hide OpensOn;
    var front, e := log[..|log| - 1], log[|log| - 1];
    assert log == front + [e];
    BeforeLast(env, me, front, e);
    var t := Run(env, me, EMPTY, front).value;
    if i < |front| {
      BeforeStays(env, me, front, e, i);
      InvitationsFollowLog(env, me, front, i, id);
      StepTellsInvitation(env, me, t, front, e, i, id);
    } else {
      InvitationsAfter(env, me, t, e);
      OpensIsOpening(env, t, e, id);
      NewRecordTells(env, me, Step(env, me, t, e).value, front, e, id);
    }
  }

  lemma OpensIsOpening(env: Env, t: Tables, e: LogEvent, id: EventId)
    requires OpensOn(env, t, e, id)
    ensures e.event.InviteGroup? || e.event.Reannounce?
    ensures env.federationOf(e.event.invitation.inviteCode).Some?
    ensures id == if e.event.InviteGroup? then e.id else e.event.invitationId
  {
  }

  /** Every stored invitation was opened by an event. */
  lemma {:induction false} InvitationFromLog(env: Env, me: UserId, log: seq<LogEvent>, id: EventId) returns (i: nat)
    requires Run(env, me, EMPTY, log).Some? && id in Run(env, me, EMPTY, log).value.invitations
    ensures OpenedAt(env, me, log, i, id)
  {
    hide Step;
    hide OpensOn;
    assert log != [];
    var front, e := log[..|log| - 1], log[|log| - 1];
    assert log == front + [e];
    BeforeLast(env, me, front, e);
    var t := Run(env, me, EMPTY, front).value;
    if id in t.invitations {
      i := InvitationFromLog(env, me, front, id);
      BeforeStays(env, me, front, e, i);
    } else {
      i := |front|;
      InvitationsAfter(env, me, t, e);
    }
  }

  // ---------------------------------------------------------------- the status

  /** The current invitation, and whether a reannouncement opened it or a ballot has been counted on it since. */
  datatype Standing = Standing(id: EventId, weighed: bool)

  /** An event makes another invitation the current one, weighs it, or cancels it. */
  ghost function Next(env: Env, t: Tables, e: LogEvent, current: Option<Standing>): Option<Standing> {
    match e.event
    case InviteGroup(_, _) => if OpensOn(env, t, e, e.id) then Some(Standing(e.id, false)) else current
    case Reannounce(id, _, _, _, _) => if OpensOn(env, t, e, id) then Some(Standing(id, true)) else current
    case VoteOnInvitation(id, _) => if Accepts(env, t, e) then Some(Standing(id, true)) else current
    case CancelInvitation(id) =>
      if current.Some? && current.value.id == id && FinalizedGroupOf(t).None? then None else current
    case _ => current
  }

  /** The invitation opened last, unless it was cancelled since; a finalized group stays. */
  ghost function Current(env: Env, me: UserId, log: seq<LogEvent>): Option<Standing> {
    if log == [] then None
    else
      var front := log[..|log| - 1];
      match Run(env, me, EMPTY, front)
      case None => None
      case Some(t) => Next(env, t, log[|log| - 1], Current(env, me, front))
  }

  /** One key from each of as many users as there are signers, and an account that can be built from them. */
  predicate Complete(record: GroupInvitation) {
    && |record.pubkeys| == |record.invitation.signers|
    && 0 < record.invitation.threshold <= |record.pubkeys.Values|
  }

  /**
   * The status names the current invitation; it is final, with that record's data, exactly when that is complete
   * and has been weighed.
   */
  ghost predicate TellsStatus(t: Tables, current: Option<Standing>) {
    match current
    case None => t.status.None?
    case Some(Standing(id, weighed)) =>
      && t.status.Some? && t.status.value.inviteId == id && id in t.invitations
      && var record := t.invitations[id];
         && (t.status.value.Finalized? <==> weighed && Complete(record))
         && (t.status.value.Finalized? ==>
               var group := t.status.value.group;
               && group.invitation == record.invitation && group.proposer == record.proposer
               && group.pubkeys == record.pubkeys && group.federationId == record.federationId
               && group.account.pubKeys == record.pubkeys.Values
               && group.account.threshold == record.invitation.threshold)
  }

  lemma FinalizedMeansComplete(record: GroupInvitation)
    ensures ToFinalized(record).Some? <==> Complete(record)
    ensures ToFinalized(record).Some? ==>
              var group := ToFinalized(record).value;
              && group.invitation == record.invitation && group.proposer == record.proposer
              && group.pubkeys == record.pubkeys && group.federationId == record.federationId
              && group.account.pubKeys == record.pubkeys.Values
              && group.account.threshold == record.invitation.threshold
  {
  }

  lemma StepTellsStatus(env: Env, me: UserId, t: Tables, e: LogEvent, current: Option<Standing>)
    requires TellsStatus(t, current) && Step(env, me, t, e).Some?
    ensures TellsStatus(Step(env, me, t, e).value, Next(env, t, e, current))
  {
    hide RowFor;
    hide ChronoCount;
    hide WithResponse;
    hide ToFinalized;
    hide Complete;
    match e.event {
      case Reannounce(_, invitation, _, _, _) =>
        if env.federationOf(invitation.inviteCode).Some? {
          FinalizedMeansComplete(NewRecord(e, env.federationOf(invitation.inviteCode).value));
        }
      case VoteOnInvitation(id, vote) =>
        if id in t.invitations && WithVote(t.invitations[id], e.sender, vote).Some? {
          FinalizedMeansComplete(WithVote(t.invitations[id], e.sender, vote).value);
        }
      case _ =>
    }
  }

  /**
   * Over any log, the status names the invitation opened last and not cancelled since, and the group is final
   * as soon as that invitation is complete, and not before; except that one complete as it is first sent
   * waits for a ballot or a reannouncement to be weighed.
   */
  lemma {:induction false} StatusFollowsLog(env: Env, me: UserId, log: seq<LogEvent>)
    requires Run(env, me, EMPTY, log).Some?
    ensures TellsStatus(Run(env, me, EMPTY, log).value, Current(env, me, log))
  {
    hide Step;
    hide TellsStatus;
    hide Next;
    if log == [] {
      NoStatusYet();
    } else {
      var front, e := log[..|log| - 1], log[|log| - 1];
      StatusFollowsLog(env, me, front);
      StepTellsStatus(env, me, Run(env, me, EMPTY, front).value, e, Current(env, me, front));
    }
  }

  lemma NoStatusYet()
    ensures TellsStatus(EMPTY, None)
  {
  }

  // ---------------------------------------------------------------- what is refused, and what is announced

  /** Whether an event has a place in these tables. */
  ghost predicate Accepts(env: Env, t: Tables, e: LogEvent) {
    match e.event
    case InviteGroup(invitation, _) => FinalizedGroupOf(t).None? && env.federationOf(invitation.inviteCode).Some?
    case Reannounce(id, invitation, _, _, _) =>
      t.status.Some? || id in t.invitations || env.federationOf(invitation.inviteCode).Some?
    case VoteOnInvitation(id, _) =>
      && IsActive(t, id) && id in t.invitations && e.sender in t.invitations[id].invitation.signers
      && e.sender !in t.invitations[id].pubkeys && e.sender !in t.invitations[id].rejections
    case CancelInvitation(id) => IsActive(t, id)
    case RequestWithdrawal(_, _) => FinalizedGroupOf(t).Some?
    case NotifyDeposit(_, _, _) => FinalizedGroupOf(t).Some?
    case RespondToWithdrawal(r, response) =>
      && FinalizedGroupOf(t).Some? && r in t.withdrawals
      && var w := t.withdrawals[r];
         if response.Approve? || response.Reject? then
           && e.sender in FinalizedGroupOf(t).value.invitation.signers
           && e.sender !in w.signatures && e.sender !in w.rejections
         else e.sender == w.sender && w.submission == Unknown
  }

  /** An event is refused exactly then, and otherwise handled or, for our own last approval, fatal. */
  lemma RefusesIff(env: Env, me: UserId, t: Tables, e: LogEvent)
    ensures Handle(env, me, t, e).Invalid? <==> !Accepts(env, t, e)
  {
    hide RowFor;
    hide ChronoCount;
    hide ToFinalized;
  }

  ghost predicate RefusedAt(env: Env, me: UserId, log: seq<LogEvent>, i: nat) {
    i < |log| && Before(env, me, log, i).Some? && !Accepts(env, Before(env, me, log, i).value, log[i])
  }

  lemma InvalidAfter(env: Env, me: UserId, t: Tables, e: LogEvent)
    requires Step(env, me, t, e).Some?
    ensures Step(env, me, t, e).value.invalid == if Accepts(env, t, e) then t.invalid else t.invalid + {e.id}
  {
    RefusesIff(env, me, t, e);
    hide Accepts;
    hide RowFor;
    hide ChronoCount;
    hide ToFinalized;
    hide WithVote;
    hide WithResponse;
  }

  /** The invalid table lists exactly the refused events. */
  lemma {:induction false} InvalidFollowsLog(env: Env, me: UserId, log: seq<LogEvent>, id: EventId)
    requires Run(env, me, EMPTY, log).Some?
    ensures id in Run(env, me, EMPTY, log).value.invalid <==>
              exists i: nat :: RefusedAt(env, me, log, i) && log[i].id == id
  {
    hide Step;
    hide Accepts;
    if log != [] {
      var front, e := log[..|log| - 1], log[|log| - 1];
      assert log == front + [e];
      BeforeLast(env, me, front, e);
      InvalidFollowsLog(env, me, front, id);
      var t := Run(env, me, EMPTY, front).value;
      InvalidAfter(env, me, t, e);
      if id in t.invalid {
        var i: nat :| RefusedAt(env, me, front, i) && front[i].id == id;
        BeforeStays(env, me, front, e, i);
        assert RefusedAt(env, me, log, i) && log[i].id == id;
      } else if id in Run(env, me, EMPTY, log).value.invalid {
        assert RefusedAt(env, me, log, |front|) && log[|front|].id == id;
      }
      if i: nat :| RefusedAt(env, me, log, i) && log[i].id == id {
        if i < |front| {
          BeforeStays(env, me, front, e, i);
          assert RefusedAt(env, me, front, i) && front[i].id == id;
        }
      }
    }
  }

  /**
   * The flags: a row is waiting to be submitted exactly when the event completes our own request; the account
   * may have changed exactly when the event is a deposit, refused ones too, or settles a request as completed.
   */
  lemma FlagsMean(env: Env, me: UserId, t: Tables, e: LogEvent)
    requires !Handle(env, me, t, e).Fault?
    ensures var o := Handle(env, me, t, e);
      && ((o.Done? && o.wake) <==> CompletesOwn(me, t, e))
      && (o.refresh <==>
            e.event.NotifyDeposit?
            || (e.event.RespondToWithdrawal? && e.event.response.Complete? && Accepts(env, t, e)))
  {
    hide RowFor;
    hide ChronoCount;
    hide ToFinalized;
    hide WithVote;
    if e.event.RespondToWithdrawal? && e.event.response.Approve? && e.event.target in t.withdrawals
       && FinalizedGroupOf(t).Some? {
      ApprovalOutcome(t.withdrawals[e.event.target], e.sender, e.event.response.signature, FinalizedGroupOf(t).value);
    }
  }
}
