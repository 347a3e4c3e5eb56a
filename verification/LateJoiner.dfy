/**
 * Newcomers cannot read the room's past. Exactly when a member that starts empty from a reannouncement
 * and one that has followed the room before it agree, throughout whatever follows, on the group, its
 * active invitation and every later request; and that honest rooms are of that kind.
 */
module LateJoiner {
  import opened Options
  import opened Ordered
  import opened Multispend
  import opened GroupInvariants
  import opened Faults

  // ---------------------------------------------------------------- unfinished invitations

  /** An active invitation does not already meet the conditions for finalizing. */
  ghost predicate ActiveIsUnfinished(t: Tables) {
    match t.status
    case Some(ActiveInvitation(id)) => id in t.invitations ==> ToFinalized(t.invitations[id]).None?
    case _ => true
  }

  lemma NewInvitationIsUnfinished(invitation: Invitation, proposer: UserId, key: PubKey, f: FederationId)
    requires |invitation.signers| != 1
    ensures ToFinalized(NewInvitation(invitation, proposer, key, f)).None?
  {
    assert |map[proposer := key]| == 1;
  }

  /** An invitation is not for one signer alone. */
  ghost predicate HasOtherSigners(e: LogEvent) {
    e.event.InviteGroup? ==> |e.event.invitation.signers| != 1
  }

  lemma StepKeepsUnfinished(env: Env, me: UserId, t: Tables, e: LogEvent)
    requires ActiveIsUnfinished(t) && HasOtherSigners(e) && Step(env, me, t, e).Some?
    ensures ActiveIsUnfinished(Step(env, me, t, e).value)
  {
    hide ToFinalized;
    hide NewInvitation;
    hide WithVote;
    hide WithResponse;
    hide RowFor;
    hide ChronoCount;
    if e.event.InviteGroup? && env.federationOf(e.event.invitation.inviteCode).Some? {
      NewInvitationIsUnfinished(e.event.invitation, e.sender, e.event.proposerKey,
                                env.federationOf(e.event.invitation.inviteCode).value);
    }
  }

  /** Without invitations for one signer, the active one is never ready to be finalized. */
  lemma {:induction false} RunKeepsUnfinished(env: Env, me: UserId, t: Tables, log: seq<LogEvent>)
    requires ActiveIsUnfinished(t) && Run(env, me, t, log).Some?
    requires forall i :: 0 <= i < |log| ==> HasOtherSigners(log[i])
    ensures ActiveIsUnfinished(Run(env, me, t, log).value)
  {
    hide Step;
    hide ActiveIsUnfinished;
    hide HasOtherSigners;
    if log != [] {
      var front := log[..|log| - 1];
      RunKeepsUnfinished(env, me, t, front);
      StepKeepsUnfinished(env, me, Run(env, me, t, front).value, log[|log| - 1]);
    }
  }

  // ---------------------------------------------------------------- agreement

  /** Same status, same record of the active invitation, same data of every event in `since`. */
  ghost predicate Agree(a: Tables, b: Tables, since: set<EventId>) {
    && SameGroup(a, b)
    && SameEntries(a.withdrawals, b.withdrawals, since)
    && SameEntries(a.deposits, b.deposits, since)
  }

  ghost predicate SameEntries<V>(a: map<EventId, V>, b: map<EventId, V>, since: set<EventId>) {
    forall r :: r in since ==> (r in a <==> r in b) && (r in a ==> a[r] == b[r])
  }

  lemma NewEntryKeepsSame<V>(a: map<EventId, V>, b: map<EventId, V>, since: set<EventId>, id: EventId, v: V)
    requires SameEntries(a, b, since)
    ensures SameEntries(a[id := v], b[id := v], since + {id})
    ensures id !in a && id !in b ==> SameEntries(a, b, since + {id})
  {
  }

  lemma UnusedStaysUnused<V>(a: map<EventId, V>, b: map<EventId, V>, since: set<EventId>, id: EventId)
    requires SameEntries(a, b, since) && id !in a && id !in b
    ensures SameEntries(a, b, since + {id})
  {
  }

  /** The later member's requests all stem from the shared part of the log. */
  ghost predicate StartedWith(b: Tables, since: set<EventId>) {
    b.withdrawals.Keys + b.deposits.Keys <= since
  }

  ghost predicate SameGroup(a: Tables, b: Tables) {
    && a.status == b.status
    && (a.status.Some? && a.status.value.ActiveInvitation? ==>
          var id := a.status.value.inviteId;
          id in a.invitations && id in b.invitations && a.invitations[id] == b.invitations[id])
  }

  lemma InviteTables(env: Env, me: UserId, t: Tables, e: LogEvent)
    requires e.event.InviteGroup? && Step(env, me, t, e).Some?
    ensures var t', federation := Step(env, me, t, e).value, env.federationOf(e.event.invitation.inviteCode);
            if FinalizedGroupOf(t).None? && federation.Some? then
              && t'.status == Some(ActiveInvitation(e.id))
              && t'.invitations == t.invitations[
                   e.id := NewInvitation(e.event.invitation, e.sender, e.event.proposerKey, federation.value)]
            else t'.status == t.status && t'.invitations == t.invitations
  {
    hide NewInvitation;
  }

  lemma InviteKeepsGroup(env: Env, me: UserId, me': UserId, a: Tables, b: Tables, e: LogEvent)
    requires SameGroup(a, b) && e.event.InviteGroup?
    requires Step(env, me, a, e).Some? && Step(env, me', b, e).Some?
    ensures SameGroup(Step(env, me, a, e).value, Step(env, me', b, e).value)
  {
    hide Step;
    hide NewInvitation;
    InviteTables(env, me, a, e);
    InviteTables(env, me', b, e);
  }

  lemma VoteTables(env: Env, me: UserId, t: Tables, e: LogEvent)
    requires e.event.VoteOnInvitation? && Step(env, me, t, e).Some?
    ensures var t', id := Step(env, me, t, e).value, e.event.target;
            if IsActive(t, id) && id in t.invitations
               && WithVote(t.invitations[id], e.sender, e.event.vote).Some? then
              var record := WithVote(t.invitations[id], e.sender, e.event.vote).value;
              && t'.invitations == t.invitations[id := record]
              && t'.status == (match ToFinalized(record)
                               case Some(group) => Some(Finalized(id, group))
                               case None => t.status)
            else t'.status == t.status && t'.invitations == t.invitations
  {
    hide ToFinalized;
    hide WithVote;
  }

  lemma VoteKeepsGroup(env: Env, me: UserId, me': UserId, a: Tables, b: Tables, e: LogEvent)
    requires SameGroup(a, b) && e.event.VoteOnInvitation?
    requires Step(env, me, a, e).Some? && Step(env, me', b, e).Some?
    ensures SameGroup(Step(env, me, a, e).value, Step(env, me', b, e).value)
  {
    hide Step;
    hide ToFinalized;
    hide WithVote;
    VoteTables(env, me, a, e);
    VoteTables(env, me', b, e);
  }

  lemma CancelKeepsGroup(env: Env, me: UserId, me': UserId, a: Tables, b: Tables, e: LogEvent)
    requires SameGroup(a, b) && e.event.CancelInvitation?
    requires Step(env, me, a, e).Some? && Step(env, me', b, e).Some?
    ensures SameGroup(Step(env, me, a, e).value, Step(env, me', b, e).value)
  {
  }

  lemma KnownGroupIgnoresReannouncement(env: Env, me: UserId, t: Tables, e: LogEvent)
    requires e.event.Reannounce? && t.status.Some?
    ensures Step(env, me, t, e) == Some(t)
  {
    hide ToFinalized;
  }

  /** The newcomer has heard of no invitation that the old member has not. */
  ghost predicate InvitedWith(a: Tables, b: Tables) {
    b.invitations.Keys <= a.invitations.Keys
  }

  /** With no group at present, a reannouncement of an old invitation that only the newcomer takes for new. */
  ghost predicate Stale(env: Env, a: Tables, b: Tables, e: LogEvent) {
    && e.event.Reannounce? && a.status.None?
    && e.event.invitationId in a.invitations && e.event.invitationId !in b.invitations
    && env.federationOf(e.event.invitation.inviteCode).Some?
  }

  /** The group and the invitations after a reannouncement. */
  lemma ReannounceTables(env: Env, me: UserId, t: Tables, e: LogEvent)
    requires e.event.Reannounce? && Step(env, me, t, e).Some?
    ensures var t', id := Step(env, me, t, e).value, e.event.invitationId;
            if t.status.Some? || id in t.invitations || env.federationOf(e.event.invitation.inviteCode).None? then
              t'.status == t.status && t'.invitations == t.invitations
            else
              && AfterAnnouncement(env, e.event).Some? && t'.status == AfterAnnouncement(env, e.event).value.status
              && t'.invitations == t.invitations[id := AfterAnnouncement(env, e.event).value.invitations[id]]
  {
    hide ToFinalized;
  }

  /** A reannouncement keeps the agreement if and only if it is not stale. */
  lemma ReannounceKeepsGroupIff(env: Env, me: UserId, me': UserId, a: Tables, b: Tables, e: LogEvent)
    requires SameGroup(a, b) && InvitedWith(a, b) && e.event.Reannounce?
    requires Step(env, me, a, e).Some? && Step(env, me', b, e).Some?
    ensures SameGroup(Step(env, me, a, e).value, Step(env, me', b, e).value) <==> !Stale(env, a, b, e)
    ensures InvitedWith(Step(env, me, a, e).value, Step(env, me', b, e).value)
  {
    hide Step;
    hide ToFinalized;
    ReannounceTables(env, me, a, e);
    ReannounceTables(env, me', b, e);
  }

  lemma OtherGroupEventsKeepInvited(env: Env, me: UserId, me': UserId, a: Tables, b: Tables, e: LogEvent)
    requires SameGroup(a, b) && InvitedWith(a, b) && IsGroupEvent(e) && !e.event.Reannounce?
    requires Step(env, me, a, e).Some? && Step(env, me', b, e).Some?
    ensures InvitedWith(Step(env, me, a, e).value, Step(env, me', b, e).value)
  {
    hide ToFinalized;
    if e.event.CancelInvitation? {
      hide WithVote;
    } else {
      hide Step;
      hide WithVote;
      if e.event.InviteGroup? {
        InviteTables(env, me, a, e);
        InviteTables(env, me', b, e);
      } else {
        VoteTables(env, me, a, e);
        VoteTables(env, me', b, e);
      }
    }
  }

  /** On a group event both members do the same, unless it is a stale reannouncement. */
  lemma GroupEventKeepsGroupIff(env: Env, me: UserId, me': UserId, a: Tables, b: Tables, e: LogEvent)
    requires SameGroup(a, b) && InvitedWith(a, b) && IsGroupEvent(e)
    requires Step(env, me, a, e).Some? && Step(env, me', b, e).Some?
    ensures SameGroup(Step(env, me, a, e).value, Step(env, me', b, e).value) <==> !Stale(env, a, b, e)
    ensures InvitedWith(Step(env, me, a, e).value, Step(env, me', b, e).value)
  {
    hide Step;
    hide SameGroup;
    hide InvitedWith;
    if e.event.Reannounce? {
      ReannounceKeepsGroupIff(env, me, me', a, b, e);
    } else {
      OtherGroupEventsKeepInvited(env, me, me', a, b, e);
      if e.event.InviteGroup? {
        InviteKeepsGroup(env, me, me', a, b, e);
      } else if e.event.VoteOnInvitation? {
        VoteKeepsGroup(env, me, me', a, b, e);
      } else {
        CancelKeepsGroup(env, me, me', a, b, e);
      }
    }
  }

  lemma GroupEventKeepsAgreementIff(
      env: Env, me: UserId, me': UserId, a: Tables, b: Tables, since: set<EventId>, e: LogEvent)
    requires Agree(a, b, since) && StartedWith(b, since) && InvitedWith(a, b) && IsGroupEvent(e)
    requires Step(env, me, a, e).Some? && Step(env, me', b, e).Some?
    requires e.id !in a.withdrawals && e.id !in b.withdrawals && e.id !in a.deposits && e.id !in b.deposits
    ensures Agree(Step(env, me, a, e).value, Step(env, me', b, e).value, since + {e.id}) <==> !Stale(env, a, b, e)
    ensures StartedWith(Step(env, me', b, e).value, since + {e.id})
    ensures InvitedWith(Step(env, me, a, e).value, Step(env, me', b, e).value)
  {
    hide Step;
    hide Stale;
    hide SameGroup;
    hide InvitedWith;
    GroupEventKeepsRequests(env, me, a, e);
    GroupEventKeepsRequests(env, me', b, e);
    GroupEventKeepsGroupIff(env, me, me', a, b, e);
  }

  lemma RequestKeepsAgreement(
      env: Env, me: UserId, me': UserId, a: Tables, b: Tables, since: set<EventId>, e: LogEvent)
    requires Agree(a, b, since) && StartedWith(b, since)
    requires Step(env, me, a, e).Some? && Step(env, me', b, e).Some?
    requires e.event.RequestWithdrawal? || e.event.NotifyDeposit?
    requires e.id !in a.withdrawals && e.id !in b.withdrawals && e.id !in a.deposits && e.id !in b.deposits
    ensures Agree(Step(env, me, a, e).value, Step(env, me', b, e).value, since + {e.id})
    ensures StartedWith(Step(env, me', b, e).value, since + {e.id})
  {
    hide Step;
    hide SameEntries;
    RequestTables(env, me, a, e);
    RequestTables(env, me', b, e);
    match e.event {
      case RequestWithdrawal(request, description) =>
        NewEntryKeepsSame(a.withdrawals, b.withdrawals, since, e.id,
                          Withdrawal(request, description, map[], {}, Unknown, e.sender));
        NewEntryKeepsSame(a.deposits, b.deposits, since, e.id, Deposit(e.sender, 0, 0, description));
      case NotifyDeposit(fiatAmount, txid, description) =>
        NewEntryKeepsSame(a.deposits, b.deposits, since, e.id, Deposit(e.sender, fiatAmount, txid, description));
        UnusedStaysUnused(a.withdrawals, b.withdrawals, since, e.id);
    }
  }

  /** A response to a request before the newcomer's time is invalid to the newcomer alone. */
  lemma ResponseKeepsAgreement(
      env: Env, me: UserId, me': UserId, a: Tables, b: Tables, since: set<EventId>, e: LogEvent)
    requires Agree(a, b, since) && StartedWith(b, since)
    requires Step(env, me, a, e).Some? && Step(env, me', b, e).Some?
    requires e.event.RespondToWithdrawal?
    requires e.id !in a.withdrawals && e.id !in b.withdrawals && e.id !in a.deposits && e.id !in b.deposits
    ensures Agree(Step(env, me, a, e).value, Step(env, me', b, e).value, since + {e.id})
    ensures StartedWith(Step(env, me', b, e).value, since + {e.id})
  {
    hide Step;
    hide WithResponse;
    ResponseTables(env, me, a, e);
    ResponseTables(env, me', b, e);
  }

  /** One event keeps the agreement if and only if it is not a stale reannouncement, whoever sends it. */
  lemma StepKeepsAgreementIff(
      env: Env, me: UserId, me': UserId, a: Tables, b: Tables, since: set<EventId>, e: LogEvent,
      seen: set<EventId>, seen': set<EventId>)
    requires Agree(a, b, since) && StartedWith(b, since) && InvitedWith(a, b)
    requires StoredIn(a, seen) && StoredIn(b, seen') && e.id !in seen + seen'
    requires Step(env, me, a, e).Some? && Step(env, me', b, e).Some?
    ensures Agree(Step(env, me, a, e).value, Step(env, me', b, e).value, since + {e.id}) <==> !Stale(env, a, b, e)
    ensures StartedWith(Step(env, me', b, e).value, since + {e.id})
    ensures InvitedWith(Step(env, me, a, e).value, Step(env, me', b, e).value)
  {
    hide Step;
    hide Agree;
    match e.event {
      case RespondToWithdrawal(_, _) =>
        ResponseKeepsAgreement(env, me, me', a, b, since, e);
        ResponseTables(env, me, a, e);
        ResponseTables(env, me', b, e);
      case RequestWithdrawal(_, _) =>
        RequestKeepsAgreement(env, me, me', a, b, since, e);
        RequestTables(env, me, a, e);
        RequestTables(env, me', b, e);
      case NotifyDeposit(_, _, _) =>
        RequestKeepsAgreement(env, me, me', a, b, since, e);
        RequestTables(env, me, a, e);
        RequestTables(env, me', b, e);
      case _ => GroupEventKeepsAgreementIff(env, me, me', a, b, since, e);
    }
  }

  ghost function Ids(log: seq<LogEvent>): set<EventId> {
    if log == [] then {} else Ids(log[..|log| - 1]) + {log[|log| - 1].id}
  }

  // ---------------------------------------------------------------- the newcomer's first event

  ghost function AfterAnnouncement(env: Env, announced: Event): Option<Tables>
    requires announced.Reannounce?
  {
    match env.federationOf(announced.invitation.inviteCode)
    case None => None
    case Some(federation) =>
      var record := GroupInvitation(announced.invitation, announced.proposer, announced.pubkeys,
                                    announced.rejections, federation);
      var id := announced.invitationId;
      var status := match ToFinalized(record)
        case Some(group) => Finalized(id, group)
        case None => ActiveInvitation(id);
      Some(EMPTY.(invitations := map[id := record], status := Some(status)))
  }

  lemma NewcomerReadsAnnouncement(env: Env, me: UserId, e: LogEvent)
    requires e.event.Reannounce? && AfterAnnouncement(env, e.event).Some?
    ensures Step(env, me, EMPTY, e) == AfterAnnouncement(env, e.event)
  {
    hide ToFinalized;
  }

  /**
   * Exactly when the first event makes the newcomer agree: never if the reannounced invitation is
   * active although it already meets the conditions for finalizing, and always otherwise.
   */
  lemma NewcomerAgreesAtOnceIff(env: Env, me: UserId, t: Tables, e: LogEvent)
    requires Consistent(env, t) && Reannouncement(t) == Some(e.event)
    ensures Step(env, me, EMPTY, e).Some?
    ensures Agree(t, Step(env, me, EMPTY, e).value, {}) <==> ActiveIsUnfinished(t)
  {
    hide Step;
    hide ToFinalized;
    var id := t.status.value.inviteId;
    assert id in t.invitations;
    if t.status.value.Finalized? {
      SameGroupAgain(t.invitations[id], t.status.value.group);
    }
    NewcomerReadsAnnouncement(env, me, e);
  }

  /** Finalizing again from a finalized group's data gives the same group. */
  lemma SameGroupAgain(record: GroupInvitation, group: FinalizedGroup)
    requires ToFinalized(record) == Some(group)
    ensures ToFinalized(GroupInvitation(group.invitation, group.proposer, group.pubkeys, {}, group.federationId))
         == Some(group)
    ensures group.invitation == record.invitation && group.federationId == record.federationId
  {
  }

  /** An invitation of one signer stays active for its sender but is final to a newcomer. */
  lemma OneSignerInvitationDisagrees(env: Env, me: UserId, me': UserId, code: string)
    requires env.federationOf(code).Some?
    ensures var invite := LogEvent(1, me, InviteGroup(Invitation({me}, 1, code, ""), 7), 0);
            var t := Run(env, me, EMPTY, [invite]);
            && t.Some? && Reannouncement(t.value).Some?
            && var announce := LogEvent(2, me, Reannouncement(t.value).value, 0);
            var b := Step(env, me', EMPTY, announce);
            && b.Some? && !Agree(t.value, b.value, {})
            && FinalizedGroupOf(b.value).Some? && FinalizedGroupOf(t.value).None?
  {
    var invitation := Invitation({me}, 1, code, "");
    var invite := LogEvent(1, me, InviteGroup(invitation, 7), 0);
    assert [invite][..0] == [];
    var t := Step(env, me, EMPTY, invite).value;
    assert Run(env, me, EMPTY, [invite]) == Some(t);
    assert me in map[me := 7] && map[me := 7].Values == {7};
    assert |map[me := 7]| == 1;
    var announce := LogEvent(2, me, Reannouncement(t).value, 0);
    NewcomerReadsAnnouncement(env, me', announce);
  }

  // ---------------------------------------------------------------- main result

  /** Whether the log holds no stale reannouncement, given where it finds the two members. */
  ghost predicate NoneStale(env: Env, old': UserId, newcomer: UserId, t: Tables, log: seq<LogEvent>) {
    log == [] || (
      var front, e := log[..|log| - 1], log[|log| - 1];
      && NoneStale(env, old', newcomer, t, front)
      && (Run(env, old', t, front).Some? && Run(env, newcomer, EMPTY, front).Some? ==>
            !Stale(env, Run(env, old', t, front).value, Run(env, newcomer, EMPTY, front).value, e))
    )
  }

  /** The old member, from `t`, and the newcomer, from nothing, agree after each event of the log. */
  ghost predicate AgreeThroughout(env: Env, old': UserId, newcomer: UserId, t: Tables, log: seq<LogEvent>) {
    log == [] || (
      && AgreeThroughout(env, old', newcomer, t, log[..|log| - 1])
      && Run(env, old', t, log).Some? && Run(env, newcomer, EMPTY, log).Some?
      && Agree(Run(env, old', t, log).value, Run(env, newcomer, EMPTY, log).value, Ids(log))
    )
  }

  /**
   * Main result. `t` is what the old member holds just before the reannouncement `announce` of its group,
   * and `log` is whatever follows, from anyone. As far as neither device panics, the two agree throughout
   * if and only if the active invitation was not already ready to be finalized and no later reannouncement
   * is stale.
   */
  lemma {:induction false} LateJoinerAgreesIff(
      env: Env, old': UserId, newcomer: UserId, t: Tables, seen: set<EventId>,
      announce: LogEvent, log: seq<LogEvent>)
    requires Consistent(env, t) && StoredIn(t, seen) && Reannouncement(t) == Some(announce.event)
    requires FreshLog(seen, [announce] + log)
    requires Run(env, old', t, [announce] + log).Some? && Run(env, newcomer, EMPTY, [announce] + log).Some?
    ensures AgreeThroughout(env, old', newcomer, t, [announce] + log) <==>
              ActiveIsUnfinished(t) && NoneStale(env, old', newcomer, t, [announce] + log)
    ensures AgreeThroughout(env, old', newcomer, t, [announce] + log) ==>
              && StartedWith(Run(env, newcomer, EMPTY, [announce] + log).value, Ids([announce] + log))
              && InvitedWith(Run(env, old', t, [announce] + log).value,
                             Run(env, newcomer, EMPTY, [announce] + log).value)
  {
    hide Step;
    hide Agree;
    hide StoredIn;
    hide Consistent;
    hide Stale;
    hide ActiveIsUnfinished;
    hide StartedWith;
    hide InvitedWith;
    hide Reannouncement;
    var whole := [announce] + log;
    var front, e := whole[..|whole| - 1], whole[|whole| - 1];
    if log == [] {
      assert whole == [announce] && front == [];
      AnnouncementStarts(env, old', newcomer, t, seen, announce);
    } else {
      var shorter := log[..|log| - 1];
      assert front == [announce] + shorter;
      LateJoinerAgreesIff(env, old', newcomer, t, seen, announce, shorter);
      if AgreeThroughout(env, old', newcomer, t, front) {
        var a, b := Run(env, old', t, front).value, Run(env, newcomer, EMPTY, front).value;
        RunKeepsConsistent(env, old', t, seen, front);
        EmptyIsStart(env);
        RunKeepsConsistent(env, newcomer, EMPTY, {}, front);
        SeenGrows({}, seen, front);
        StepKeepsAgreementIff(env, old', newcomer, a, b, Ids(front), e, Seen(seen, front), Seen({}, front));
      }
    }
  }

  /** The announcement itself: the old member ignores it, and the newcomer takes the group from it. */
  lemma AnnouncementStarts(
      env: Env, old': UserId, newcomer: UserId, t: Tables, seen: set<EventId>, announce: LogEvent)
    requires Consistent(env, t) && StoredIn(t, seen) && Reannouncement(t) == Some(announce.event)
    requires FreshLog(seen, [announce])
    ensures Run(env, old', t, [announce]) == Some(t) && Run(env, newcomer, EMPTY, [announce]).Some?
    ensures AgreeThroughout(env, old', newcomer, t, [announce]) <==> ActiveIsUnfinished(t)
    ensures NoneStale(env, old', newcomer, t, [announce])
    ensures var b := Run(env, newcomer, EMPTY, [announce]).value;
            StartedWith(b, Ids([announce])) && InvitedWith(t, b)
  {
    hide Step;
    hide Consistent;
    hide ActiveIsUnfinished;
    var one := [announce];
    assert one[..|one| - 1] == [] && one[|one| - 1] == announce;
    assert Run(env, old', t, []) == Some(t) && Run(env, newcomer, EMPTY, []) == Some(EMPTY);
    OldMemberIgnoresAnnouncement(env, old', t, announce);
    NewcomerAgreesAtOnceIff(env, newcomer, t, announce);
    NewcomerHasOnlyTheGroup(env, newcomer, announce);
    AnnouncedIsKnown(env, newcomer, t, announce);
    assert Ids(one) == {announce.id};
    assert announce.id !in t.withdrawals && announce.id !in t.deposits by {
      assert Seen(seen, []) == seen && announce.id !in seen;
    }
  }

  lemma AnnouncedIsKnown(env: Env, me: UserId, t: Tables, e: LogEvent)
    requires Consistent(env, t) && Reannouncement(t) == Some(e.event)
    requires Step(env, me, EMPTY, e).Some?
    ensures InvitedWith(t, Step(env, me, EMPTY, e).value)
  {
    hide ToFinalized;
  }

  lemma {:induction false} SeenGrows(small: set<EventId>, large: set<EventId>, log: seq<LogEvent>)
    requires small <= large
    ensures Seen(small, log) <= Seen(large, log)
  {
    if log != [] {
      SeenGrows(small, large, log[..|log| - 1]);
    }
  }

  lemma OldMemberIgnoresAnnouncement(env: Env, me: UserId, t: Tables, e: LogEvent)
    requires e.event.Reannounce? && Reannouncement(t) == Some(e.event)
    ensures Step(env, me, t, e) == Some(t)
  {
  }

  lemma NewcomerHasOnlyTheGroup(env: Env, me: UserId, e: LogEvent)
    requires e.event.Reannounce? && Step(env, me, EMPTY, e).Some?
    ensures Step(env, me, EMPTY, e).value.withdrawals == map[] && Step(env, me, EMPTY, e).value.deposits == map[]
  {
  }

  /** So after any log without a stale reannouncement they agree. */
  lemma LateJoinerAgrees(
      env: Env, old': UserId, newcomer: UserId, t: Tables, seen: set<EventId>,
      announce: LogEvent, log: seq<LogEvent>)
    requires Consistent(env, t) && ActiveIsUnfinished(t) && StoredIn(t, seen)
    requires Reannouncement(t) == Some(announce.event) && FreshLog(seen, [announce] + log)
    requires Run(env, old', t, [announce] + log).Some? && Run(env, newcomer, EMPTY, [announce] + log).Some?
    requires NoneStale(env, old', newcomer, t, [announce] + log)
    ensures Agree(Run(env, old', t, [announce] + log).value, Run(env, newcomer, EMPTY, [announce] + log).value,
                  Ids([announce] + log))
    ensures StartedWith(Run(env, newcomer, EMPTY, [announce] + log).value, Ids([announce] + log))
  {
    hide Run;
    hide Agree;
    hide NoneStale;
    LateJoinerAgreesIff(env, old', newcomer, t, seen, announce, log);
  }

  // ---------------------------------------------------------------- from the room's first event

  lemma {:induction false} FreshParts(seen: set<EventId>, past: seq<LogEvent>, rest: seq<LogEvent>)
    requires FreshLog(seen, past + rest)
    ensures FreshLog(seen, past) && FreshLog(Seen(seen, past), rest)
    ensures Seen(seen, past + rest) == Seen(Seen(seen, past), rest)
  {
    if rest == [] {
      assert past + rest == past;
    } else {
      var whole := past + rest;
      assert whole[..|whole| - 1] == past + rest[..|rest| - 1];
      FreshParts(seen, past, rest[..|rest| - 1]);
    }
  }

  /**
   * The same for whole rooms: the old member has followed `past` since the room began, the newcomer starts
   * at the reannouncement. With no invitation for one signer alone before it, and no stale reannouncement
   * after it, they agree throughout, whatever else anybody sends.
   */
  lemma LateJoinerAgreesInRoom(
      env: Env, old': UserId, newcomer: UserId, past: seq<LogEvent>, announce: LogEvent, log: seq<LogEvent>)
    requires FreshLog({}, past + ([announce] + log))
    requires Run(env, old', EMPTY, past + ([announce] + log)).Some?
    requires Run(env, newcomer, EMPTY, [announce] + log).Some?
    requires var t := Run(env, old', EMPTY, past); t.Some? && Reannouncement(t.value) == Some(announce.event)
    requires forall i :: 0 <= i < |past| ==> HasOtherSigners(past[i])
    requires NoneStale(env, old', newcomer, Run(env, old', EMPTY, past).value, [announce] + log)
    ensures AgreeThroughout(env, old', newcomer, Run(env, old', EMPTY, past).value, [announce] + log)
    ensures Agree(Run(env, old', EMPTY, past + ([announce] + log)).value,
                  Run(env, newcomer, EMPTY, [announce] + log).value, Ids([announce] + log))
  {
    hide Step;
    hide Agree;
    hide StoredIn;
    hide Consistent;
    hide NoneStale;
    hide HasOtherSigners;
    hide Reannouncement;
    var rest, t := [announce] + log, Run(env, old', EMPTY, past).value;
    RunConcat(env, old', EMPTY, past, rest);
    FreshParts({}, past, rest);
    EmptyIsStart(env);
    RunKeepsConsistent(env, old', EMPTY, {}, past);
    RunKeepsUnfinished(env, old', EMPTY, past);
    LateJoinerAgreesIff(env, old', newcomer, t, Seen({}, past), announce, log);
  }

  // ---------------------------------------------------------------- honest rooms

  /**
   * Invitations list at least two signers and the inviter among them; a reannouncement describes the
   * group as it stands when the reannouncement is processed; keys differ, requests draw on the group's
   * account, and approvals are signed with the approver's key.
   */
  ghost predicate HonestEvent(env: Env, t: Tables, e: LogEvent) {
    && (e.event.InviteGroup? ==> e.sender in e.event.invitation.signers && |e.event.invitation.signers| >= 2)
    && (e.event.Reannounce? ==> Reannouncement(t) == Some(e.event))
    && HonestKey(t, e) && HonestTransfer(env, t, e)
  }

  ghost predicate HonestLog(env: Env, me: UserId, t: Tables, log: seq<LogEvent>) {
    log == [] || (
      var front, e := log[..|log| - 1], log[|log| - 1];
      && HonestLog(env, me, t, front)
      && (Run(env, me, t, front).Some? ==> HonestEvent(env, Run(env, me, t, front).value, e))
    )
  }

  /** Everything an up-to-date member's tables keep when the room is honest. */
  ghost predicate Healthy(env: Env, t: Tables) {
    Consistent(env, t) && SoundKeys(t) && SoundTransfers(env, t) && ActiveIsUnfinished(t)
  }

  lemma HonestHere(env: Env, t: Tables, e: LogEvent)
    requires Healthy(env, t) && HonestEvent(env, t, e)
    ensures Honest(env, t, e) && HasOtherSigners(e)
  {
    hide HonestKey;
    hide HonestTransfer;
    hide SoundTransfers;
    hide KeysDiffer;
  }

  lemma StepKeepsHealthy(env: Env, me: UserId, t: Tables, e: LogEvent, seen: set<EventId>)
    requires Healthy(env, t) && HonestEvent(env, t, e) && StoredIn(t, seen) && e.id !in seen
    ensures Step(env, me, t, e).Some? && Healthy(env, Step(env, me, t, e).value)
  {
    hide Step;
    hide HonestEvent;
    hide Honest;
    hide HasOtherSigners;
    hide Consistent;
    hide SoundKeys;
    hide SoundTransfers;
    hide ActiveIsUnfinished;
    HonestHere(env, t, e);
    HonestStepIsSound(env, me, t, e, seen);
    StepKeepsUnfinished(env, me, t, e);
  }

  /** When both agree, what is honest to one is honest to the other. */
  lemma HonestToBoth(env: Env, a: Tables, b: Tables, since: set<EventId>, e: LogEvent)
    requires Agree(a, b, since) && StartedWith(b, since) && Honest(env, a, e)
    ensures Honest(env, b, e)
  {
    hide HonestOpening;
  }

  /** The newcomer's tables are sound. */
  ghost predicate Sound(env: Env, b: Tables) {
    Consistent(env, b) && SoundKeys(b) && SoundTransfers(env, b)
  }

  lemma NewcomerStepIsSome(env: Env, me: UserId, b: Tables, e: LogEvent, seen: set<EventId>)
    requires Sound(env, b) && Honest(env, b, e) && StoredIn(b, seen) && e.id !in seen
    ensures Step(env, me, b, e).Some? && Sound(env, Step(env, me, b, e).value)
  {
    hide Step;
    hide Honest;
    hide Consistent;
    hide SoundKeys;
    hide SoundTransfers;
    HonestStepIsSound(env, me, b, e, seen);
  }

  lemma {:induction false} HonestParts(env: Env, me: UserId, t: Tables, past: seq<LogEvent>, rest: seq<LogEvent>)
    requires HonestLog(env, me, t, past + rest) && Run(env, me, t, past).Some?
    ensures HonestLog(env, me, t, past) && HonestLog(env, me, Run(env, me, t, past).value, rest)
  {
    hide Step;
    hide HonestEvent;
    if rest == [] {
      assert past + rest == past;
    } else {
      var whole, front := past + rest, rest[..|rest| - 1];
      assert whole[..|whole| - 1] == past + front;
      HonestParts(env, me, t, past, front);
      RunConcat(env, me, t, past, front);
    }
  }

  /** Nobody panics in an honest room. */
  lemma {:induction false} HonestRunIsHealthy(env: Env, me: UserId, log: seq<LogEvent>)
    requires FreshLog({}, log) && HonestLog(env, me, EMPTY, log)
    ensures Run(env, me, EMPTY, log).Some? && Healthy(env, Run(env, me, EMPTY, log).value)
    ensures StoredIn(Run(env, me, EMPTY, log).value, Seen({}, log))
  {
    hide Step;
    hide HonestEvent;
    hide Healthy;
    hide StoredIn;
    HonestIsEmpty(env);
    if log != [] {
      var front := log[..|log| - 1];
      HonestRunIsHealthy(env, me, front);
      StepKeepsHealthy(env, me, Run(env, me, EMPTY, front).value, log[|log| - 1], Seen({}, front));
      RunKeepsConsistent(env, me, EMPTY, {}, log);
    }
  }

  /** In an honest room the newcomer does not panic either, and no reannouncement is stale. */
  lemma {:induction false} HonestNewcomerRuns(
      env: Env, old': UserId, newcomer: UserId, t: Tables, seen: set<EventId>,
      announce: LogEvent, log: seq<LogEvent>)
    requires Healthy(env, t) && StoredIn(t, seen) && announce.event.Reannounce?
    requires FreshLog(seen, [announce] + log) && HonestLog(env, old', t, [announce] + log)
    ensures Run(env, old', t, [announce] + log).Some? && Healthy(env, Run(env, old', t, [announce] + log).value)
    ensures Run(env, newcomer, EMPTY, [announce] + log).Some?
    ensures Sound(env, Run(env, newcomer, EMPTY, [announce] + log).value)
    ensures NoneStale(env, old', newcomer, t, [announce] + log)
  {
    hide Step;
    hide HonestEvent;
    hide Agree;
    hide StoredIn;
    hide Healthy;
    hide Consistent;
    hide Sound;
    hide Honest;
    hide Stale;
    hide StartedWith;
    hide Reannouncement;
    var whole := [announce] + log;
    var front, e := whole[..|whole| - 1], whole[|whole| - 1];
    HealthyIsSound(env, t);
    SoundIsConsistent(env, t);
    HonestIsEmpty(env);
    if log == [] {
      assert whole == [announce] && front == [];
      assert Run(env, old', t, []) == Some(t) && Run(env, newcomer, EMPTY, []) == Some(EMPTY);
      assert HonestEvent(env, t, announce);
      assert Seen(seen, []) == seen && Seen({}, []) == {};
      StepKeepsHealthy(env, old', t, announce, seen);
      HonestHere(env, t, announce);
      HonestToEmpty(env, t, announce);
      NewcomerStepIsSome(env, newcomer, EMPTY, announce, {});
      HonestIsNotStale(env, t, EMPTY, announce);
    } else {
      var shorter := log[..|log| - 1];
      assert front == [announce] + shorter;
      HonestNewcomerRuns(env, old', newcomer, t, seen, announce, shorter);
      HonestAnnouncement(env, old', t, announce, shorter);
      LateJoinerAgrees(env, old', newcomer, t, seen, announce, shorter);
      var a, b := Run(env, old', t, front).value, Run(env, newcomer, EMPTY, front).value;
      RunKeepsConsistent(env, old', t, seen, front);
      RunKeepsConsistent(env, newcomer, EMPTY, {}, front);
      SeenGrows({}, seen, front);
      StepKeepsHealthy(env, old', a, e, Seen(seen, front));
      HonestHere(env, a, e);
      HonestToBoth(env, a, b, Ids(front), e);
      NewcomerStepIsSome(env, newcomer, b, e, Seen({}, front));
      HonestIsNotStale(env, a, b, e);
    }
  }

  lemma HonestIsNotStale(env: Env, a: Tables, b: Tables, e: LogEvent)
    requires HonestEvent(env, a, e)
    ensures !Stale(env, a, b, e)
  {
  }

  lemma HonestToEmpty(env: Env, t: Tables, e: LogEvent)
    requires e.event.Reannounce? && Honest(env, t, e)
    ensures Honest(env, EMPTY, e)
  {
  }

  lemma {:induction false} HonestAnnouncement(env: Env, me: UserId, t: Tables, announce: LogEvent, log: seq<LogEvent>)
    requires HonestLog(env, me, t, [announce] + log) && announce.event.Reannounce? && Healthy(env, t)
    ensures Reannouncement(t) == Some(announce.event) && Consistent(env, t) && ActiveIsUnfinished(t)
  {
    hide Step;
    hide HonestKey;
    hide HonestTransfer;
    hide Reannouncement;
    hide Consistent;
    hide ActiveIsUnfinished;
    var whole := [announce] + log;
    if log == [] {
      assert whole[..|whole| - 1] == [] && Run(env, me, t, []) == Some(t);
    } else {
      assert whole[..|whole| - 1] == [announce] + log[..|log| - 1];
      HonestAnnouncement(env, me, t, announce, log[..|log| - 1]);
    }
  }

  lemma HealthyIsSound(env: Env, t: Tables)
    requires Healthy(env, t)
    ensures Sound(env, t)
  {
  }

  lemma SoundIsConsistent(env: Env, t: Tables)
    requires Sound(env, t)
    ensures Consistent(env, t)
  {
  }

  lemma HonestIsEmpty(env: Env)
    ensures StoredIn(EMPTY, {}) && Consistent(env, EMPTY) && Healthy(env, EMPTY) && Sound(env, EMPTY)
  {
  }

  /** In an honest room nobody panics, and the newcomer agrees with whoever was there before. */
  lemma HonestRoomAgrees(
      env: Env, old': UserId, newcomer: UserId, past: seq<LogEvent>, announce: LogEvent, log: seq<LogEvent>)
    requires FreshLog({}, past + ([announce] + log)) && HonestLog(env, old', EMPTY, past + ([announce] + log))
    requires announce.event.Reannounce?
    ensures Run(env, old', EMPTY, past + ([announce] + log)).Some?
    ensures Run(env, newcomer, EMPTY, [announce] + log).Some?
    ensures Agree(Run(env, old', EMPTY, past + ([announce] + log)).value,
                  Run(env, newcomer, EMPTY, [announce] + log).value, Ids([announce] + log))
  {
    hide Step;
    hide HonestEvent;
    hide Healthy;
    hide StoredIn;
    hide Agree;
    hide Consistent;
    hide Reannouncement;
    hide ActiveIsUnfinished;
    var rest := [announce] + log;
    HonestRunIsHealthy(env, old', past + rest);
    RunConcat(env, old', EMPTY, past, rest);
    FreshParts({}, past, rest);
    HonestParts(env, old', EMPTY, past, rest);
    HonestRunIsHealthy(env, old', past);
    var t := Run(env, old', EMPTY, past).value;
    HonestNewcomerRuns(env, old', newcomer, t, Seen({}, past), announce, log);
    HonestAnnouncement(env, old', t, announce, log);
    LateJoinerAgrees(env, old', newcomer, t, Seen({}, past), announce, log);
  }
}
