/**
 * When the event handler can panic: exactly when the approval that completes our own request leaves it
 * with signatures that cannot be assembled or do not verify. Which groups and which approvals allow that,
 * over whole logs, and what honest members do that rules it out.
 */
module Faults {
  import opened Options
  import opened Ordered
  import opened Multispend
  import opened GroupInvariants
  import opened Approvals

  // ---------------------------------------------------------------- one event

  /** `e` is the approval that brings our own request to the group's threshold. */
  ghost predicate CompletesOwn(me: UserId, t: Tables, e: LogEvent) {
    && e.event.RespondToWithdrawal? && e.event.response.Approve?
    && FinalizedGroupOf(t).Some? && e.event.target in t.withdrawals
    && var group, w := FinalizedGroupOf(t).value, t.withdrawals[e.event.target];
    && CanVote(w, e.sender, group)
    && |w.signatures| + 1 == group.invitation.threshold
    && w.sender == me
  }

  ghost function ApprovalsAfter(t: Tables, e: LogEvent): map<UserId, Signature>
    requires e.event.RespondToWithdrawal? && e.event.response.Approve? && e.event.target in t.withdrawals
  {
    t.withdrawals[e.event.target].signatures[e.sender := e.event.response.signature]
  }

  /** It completes our request, and the approvals do not sign it. */
  ghost predicate CannotSign(env: Env, me: UserId, t: Tables, e: LogEvent) {
    && CompletesOwn(me, t, e)
    && !Signed(env, FinalizedGroupOf(t).value, t.withdrawals[e.event.target].request, ApprovalsAfter(t, e))
  }

  lemma ApprovalCounts(w: Withdrawal, sender: UserId, signature: Signature)
    requires sender !in w.signatures
    ensures |w.signatures[sender := signature]| == |w.signatures| + 1
    ensures w.signatures[sender := signature].Keys == w.signatures.Keys + {sender}
  {
    var after := w.signatures[sender := signature];
    assert after.Keys == w.signatures.Keys + {sender};
    assert |after| == |after.Keys| && |w.signatures| == |w.signatures.Keys|;
  }

  lemma ApprovalOutcome(w: Withdrawal, sender: UserId, signature: Signature, group: FinalizedGroup)
    ensures WithResponse(w, sender, Approve(signature), group).Some? <==> CanVote(w, sender, group)
    ensures CanVote(w, sender, group) ==>
              var (w', outcome) := WithResponse(w, sender, Approve(signature), group).value;
              && (outcome == Approved <==> |w.signatures| + 1 == group.invitation.threshold)
              && w' == w.(signatures := w.signatures[sender := signature])
              && w'.signatures.Keys == w.signatures.Keys + {sender}
  {
    if CanVote(w, sender, group) {
      ApprovalCounts(w, sender, signature);
    }
  }

  /** The handler faults on a response only if its approval completes a request of ours that has no row. */
  lemma ResponseFaultShape(env: Env, me: UserId, t: Tables, e: LogEvent)
    requires e.event.RespondToWithdrawal?
    ensures HandleResponse(env, me, t, e).Fault? <==>
            && FinalizedGroupOf(t).Some? && e.event.target in t.withdrawals
            && var group, w := FinalizedGroupOf(t).value, t.withdrawals[e.event.target];
            var result := WithResponse(w, e.sender, e.event.response, group);
            && result.Some? && result.value.1 == Approved && me == result.value.0.sender
            && RowFor(env, e.event.target, result.value.0, group).None?
  {
    hide WithResponse;
    hide RowFor;
  }

  lemma ResponseFaultIff(env: Env, me: UserId, t: Tables, e: LogEvent)
    requires Consistent(env, t) && e.event.RespondToWithdrawal?
    ensures HandleResponse(env, me, t, e).Fault? <==> CannotSign(env, me, t, e)
  {
    hide HandleResponse;
    hide RowFor;
    hide Signed;
    hide WithResponse;
    hide CanVote;
    ResponseFaultShape(env, me, t, e);
    if FinalizedGroupOf(t).Some? && e.event.target in t.withdrawals {
      var group, w := FinalizedGroupOf(t).value, t.withdrawals[e.event.target];
      ConsistentGroupHoldsKeys(env, t);
      hide Consistent;
      if e.event.response.Approve? {
        ApprovalOutcome(w, e.sender, e.event.response.signature, group);
        RowDefinedIff(env, e.event.target, w.(signatures := ApprovalsAfter(t, e)), group);
      } else {
        OnlyApprovalsComplete(w, e.sender, e.event.response, group);
      }
    }
  }

  lemma OnlyApprovalsComplete(w: Withdrawal, sender: UserId, response: WithdrawalResponse, group: FinalizedGroup)
    requires !response.Approve?
    ensures var result := WithResponse(w, sender, response, group);
            result.Some? ==> result.value.1 != Approved
  {
  }

  lemma OthersDoNotFault(env: Env, me: UserId, t: Tables, e: LogEvent, seen: set<EventId>)
    requires StoredIn(t, seen) && e.id !in seen && !e.event.RespondToWithdrawal?
    ensures !Handle(env, me, t, e).Fault?
  {
    hide ToFinalized;
    hide ChronoCount;
    hide WithVote;
  }

  /** A fresh event makes the handler panic in that one case only. */
  lemma StepFaultIff(env: Env, me: UserId, t: Tables, e: LogEvent, seen: set<EventId>)
    requires Consistent(env, t) && StoredIn(t, seen) && e.id !in seen
    ensures Step(env, me, t, e).None? <==> CannotSign(env, me, t, e)
  {
    hide Consistent;
    hide Handle;
    hide CannotSign;
    assert e.id !in t.invalid;
    if e.event.RespondToWithdrawal? {
      HandlesResponse(env, me, t, e);
      ResponseFaultIff(env, me, t, e);
    } else {
      OthersDoNotFault(env, me, t, e, seen);
      OnlyResponsesComplete(env, me, t, e);
    }
  }

  lemma HandlesResponse(env: Env, me: UserId, t: Tables, e: LogEvent)
    requires e.event.RespondToWithdrawal?
    ensures Handle(env, me, t, e) == HandleResponse(env, me, t, e)
  {
    hide HandleResponse;
  }

  lemma OnlyResponsesComplete(env: Env, me: UserId, t: Tables, e: LogEvent)
    requires !e.event.RespondToWithdrawal?
    ensures !CannotSign(env, me, t, e)
  {
  }

  /**
   * On a request that draws on the group's own account, that case is this: some approver has no key in
   * the group, two have the same one, or some approval does not verify under its sender's key.
   */
  lemma OwnFaultIff(env: Env, me: UserId, t: Tables, e: LogEvent)
    requires Consistent(env, t) && CompletesOwn(me, t, e)
    requires t.withdrawals[e.event.target].request.from == FinalizedGroupOf(t).value.account
    ensures var group, approvals := FinalizedGroupOf(t).value, ApprovalsAfter(t, e);
            |approvals| == group.invitation.threshold && approvals.Keys <= group.invitation.signers
            && (CannotSign(env, me, t, e) <==>
                !(approvals.Keys <= group.pubkeys.Keys && DistinctKeys(group, approvals.Keys)
                  && AllVerify(env, group, t.withdrawals[e.event.target].request, approvals)))
  {
    hide Signed;
    hide DistinctKeys;
    hide AllVerify;
    var group, w := FinalizedGroupOf(t).value, t.withdrawals[e.event.target];
    ConsistentGroupHoldsKeys(env, t);
    VotersFit(env, t, e, group);
    ApprovalCounts(w, e.sender, e.event.response.signature);
    OwnSignedIff(env, group, w.request, ApprovalsAfter(t, e));
  }

  lemma VotersFit(env: Env, t: Tables, e: LogEvent, group: FinalizedGroup)
    requires Consistent(env, t) && FinalizedGroupOf(t) == Some(group)
    requires e.event.RespondToWithdrawal? && e.event.target in t.withdrawals
    requires CanVote(t.withdrawals[e.event.target], e.sender, group)
    ensures var w := t.withdrawals[e.event.target];
            w.signatures.Keys + {e.sender} <= group.invitation.signers
            && |w.signatures| + 1 <= |group.invitation.signers|
  {
    var w := t.withdrawals[e.event.target];
    SubsetSize(w.signatures.Keys + {e.sender}, group.invitation.signers);
    assert |w.signatures.Keys| == |w.signatures|;
  }

  // ---------------------------------------------------------------- honest members

  ghost predicate KeysDiffer(pubkeys: map<UserId, PubKey>) {
    forall u, v :: u in pubkeys && v in pubkeys && u != v ==> pubkeys[u] != pubkeys[v]
  }

  /** Only signers have keys, and no two the same. */
  ghost predicate SoundKeys(t: Tables) {
    forall id :: id in t.invitations ==>
      && t.invitations[id].pubkeys.Keys <= t.invitations[id].invitation.signers
      && KeysDiffer(t.invitations[id].pubkeys)
  }

  /** Requests draw on the group's account, and approvals verify under their senders' keys. */
  ghost predicate SoundTransfers(env: Env, t: Tables) {
    FinalizedGroupOf(t).Some? ==>
      forall r :: r in t.withdrawals ==>
        && t.withdrawals[r].request.from == FinalizedGroupOf(t).value.account
        && AllVerify(env, FinalizedGroupOf(t).value, t.withdrawals[r].request, t.withdrawals[r].signatures)
  }

  /** The inviter is a signer, and a reannouncement gives keys to signers only, and different ones. */
  ghost predicate HonestOpening(e: LogEvent) {
    match e.event
    case InviteGroup(invitation, _) => e.sender in invitation.signers
    case Reannounce(_, invitation, _, pubkeys, _) => pubkeys.Keys <= invitation.signers && KeysDiffer(pubkeys)
    case _ => true
  }

  /** Who accepts the active invitation gives a key that nobody gave before. */
  ghost predicate HonestKey(t: Tables, e: LogEvent) {
    e.event.VoteOnInvitation? && e.event.vote.Accept? && IsActive(t, e.event.target)
    && e.event.target in t.invitations ==>
      e.event.vote.memberKey !in t.invitations[e.event.target].pubkeys.Values
  }

  /** Who requests draws on the group's account; who approves signs the stored request with the own key. */
  ghost predicate HonestTransfer(env: Env, t: Tables, e: LogEvent) {
    FinalizedGroupOf(t).Some? ==>
      var group := FinalizedGroupOf(t).value;
      && (e.event.RequestWithdrawal? ==> e.event.request.from == group.account)
      && GenuineApproval(env, group, t, e)
  }

  ghost predicate GenuineApproval(env: Env, group: FinalizedGroup, t: Tables, e: LogEvent) {
    e.event.RespondToWithdrawal? && e.event.response.Approve? && e.event.target in t.withdrawals
    && e.sender in group.pubkeys ==>
      env.verifies(t.withdrawals[e.event.target].request, group.pubkeys[e.sender], e.event.response.signature)
  }

  ghost predicate Honest(env: Env, t: Tables, e: LogEvent) {
    HonestOpening(e) && HonestKey(t, e) && HonestTransfer(env, t, e)
  }

  /** Every event is honest given the tables it meets. */
  ghost predicate HonestRun(env: Env, me: UserId, t: Tables, log: seq<LogEvent>) {
    log == [] || (
      var front, e := log[..|log| - 1], log[|log| - 1];
      && HonestRun(env, me, t, front)
      && (Run(env, me, t, front).Some? ==> Honest(env, Run(env, me, t, front).value, e))
    )
  }

  lemma NewKeyDiffers(pubkeys: map<UserId, PubKey>, user: UserId, key: PubKey)
    requires KeysDiffer(pubkeys) && key !in pubkeys.Values && user !in pubkeys
    ensures KeysDiffer(pubkeys[user := key])
  {
    assert forall u :: u in pubkeys ==> pubkeys[u] in pubkeys.Values;
  }

  lemma VoteKeepsSoundKeys(record: GroupInvitation, sender: UserId, vote: GroupVote)
    requires record.pubkeys.Keys <= record.invitation.signers && KeysDiffer(record.pubkeys)
    requires vote.Accept? ==> vote.memberKey !in record.pubkeys.Values
    requires WithVote(record, sender, vote).Some?
    ensures var after := WithVote(record, sender, vote).value;
            after.pubkeys.Keys <= after.invitation.signers && KeysDiffer(after.pubkeys)
  {
    if vote.Accept? {
      NewKeyDiffers(record.pubkeys, sender, vote.memberKey);
    }
  }

  lemma VoteStepKeepsSoundKeys(env: Env, me: UserId, t: Tables, e: LogEvent)
    requires SoundKeys(t) && e.event.VoteOnInvitation? && HonestKey(t, e) && Step(env, me, t, e).Some?
    ensures SoundKeys(Step(env, me, t, e).value)
  {
    hide ToFinalized;
    hide WithVote;
    hide KeysDiffer;
    if e.event.target in t.invitations && IsActive(t, e.event.target) {
      var record := t.invitations[e.event.target];
      if WithVote(record, e.sender, e.event.vote).Some? {
        VoteKeepsSoundKeys(record, e.sender, e.event.vote);
      }
    }
  }

  lemma OneKeyDiffers(user: UserId, key: PubKey)
    ensures KeysDiffer(map[user := key])
  {
  }

  lemma OtherStepKeepsSoundKeys(env: Env, me: UserId, t: Tables, e: LogEvent)
    requires SoundKeys(t) && !e.event.VoteOnInvitation? && HonestOpening(e) && Step(env, me, t, e).Some?
    ensures SoundKeys(Step(env, me, t, e).value)
  {
    hide RowFor;
    hide ChronoCount;
    hide ToFinalized;
    hide WithResponse;
    hide KeysDiffer;
    if e.event.InviteGroup? {
      OneKeyDiffers(e.sender, e.event.proposerKey);
    }
  }

  lemma StepKeepsSoundKeys(env: Env, me: UserId, t: Tables, e: LogEvent)
    requires SoundKeys(t) && HonestOpening(e) && HonestKey(t, e) && Step(env, me, t, e).Some?
    ensures SoundKeys(Step(env, me, t, e).value)
  {
    hide Step;
    hide SoundKeys;
    if e.event.VoteOnInvitation? {
      VoteStepKeepsSoundKeys(env, me, t, e);
    } else {
      OtherStepKeepsSoundKeys(env, me, t, e);
    }
  }

  /** A response adds at most its own approval. */
  lemma ResponseKeepsVerified(
      env: Env, w: Withdrawal, sender: UserId, response: WithdrawalResponse, group: FinalizedGroup)
    requires AllVerify(env, group, w.request, w.signatures) && group.invitation.signers <= group.pubkeys.Keys
    requires response.Approve? && sender in group.pubkeys ==>
               env.verifies(w.request, group.pubkeys[sender], response.signature)
    requires WithResponse(w, sender, response, group).Some?
    ensures var after := WithResponse(w, sender, response, group).value.0;
            after.request == w.request && AllVerify(env, group, after.request, after.signatures)
  {
  }

  lemma StepKeepsSoundTransfers(env: Env, me: UserId, t: Tables, e: LogEvent)
    requires Consistent(env, t) && SoundKeys(t) && SoundTransfers(env, t) && HonestTransfer(env, t, e)
    requires Step(env, me, t, e).Some?
    ensures SoundTransfers(env, Step(env, me, t, e).value)
  {
    hide Step;
    hide Consistent;
    hide SoundKeys;
    hide KeysDiffer;
    hide WithResponse;
    hide AllVerify;
    if FinalizedGroupOf(t).None? {
      NoRequestsBeforeGroup(env, me, t, e);
    } else {
      var group := FinalizedGroupOf(t).value;
      CompleteWhenKeysSound(env, t);
      FinalizedStepIsPermanent(env, me, t, e);
      match e.event {
        case RespondToWithdrawal(r, response) =>
          ResponseTables(env, me, t, e);
          if r in t.withdrawals && WithResponse(t.withdrawals[r], e.sender, response, group).Some? {
            ResponseKeepsVerified(env, t.withdrawals[r], e.sender, response, group);
          }
        case RequestWithdrawal(request, _) =>
          RequestTables(env, me, t, e);
          NothingToVerify(env, group, request);
        case NotifyDeposit(_, _, _) => RequestTables(env, me, t, e);
        case _ => GroupEventKeepsRequests(env, me, t, e);
      }
    }
  }

  lemma NothingToVerify(env: Env, group: FinalizedGroup, request: TransferRequest)
    ensures AllVerify(env, group, request, map[])
  {
  }

  lemma NoRequestsBeforeGroup(env: Env, me: UserId, t: Tables, e: LogEvent)
    requires Consistent(env, t) && FinalizedGroupOf(t).None? && Step(env, me, t, e).Some?
    ensures Step(env, me, t, e).value.withdrawals == map[]
  {
    hide ToFinalized;
    hide WithVote;
    hide RecordsNameTheirFederation;
  }

  lemma CompleteWhenKeysSound(env: Env, t: Tables)
    requires Consistent(env, t) && SoundKeys(t) && FinalizedGroupOf(t).Some?
    ensures KeysComplete(FinalizedGroupOf(t).value) && KeysDiffer(FinalizedGroupOf(t).value.pubkeys)
  {
    var group := FinalizedGroupOf(t).value;
    assert |group.pubkeys.Keys| == |group.pubkeys|;
    SubsetSize(group.pubkeys.Keys, group.invitation.signers);
  }

  /** An honest event finds sound tables ready to sign. */
  lemma HonestEventCanSign(env: Env, me: UserId, t: Tables, e: LogEvent)
    requires Consistent(env, t) && SoundKeys(t) && SoundTransfers(env, t) && HonestTransfer(env, t, e)
    ensures !CannotSign(env, me, t, e)
  {
    hide CannotSign;
    hide Consistent;
    hide SoundKeys;
    if CompletesOwn(me, t, e) {
      CompleteWhenKeysSound(env, t);
      OwnFaultIff(env, me, t, e);
    } else {
      OnlyCompletionFails(env, me, t, e);
    }
  }

  lemma OnlyCompletionFails(env: Env, me: UserId, t: Tables, e: LogEvent)
    requires !CompletesOwn(me, t, e)
    ensures !CannotSign(env, me, t, e)
  {
  }

  lemma HonestStepIsSound(env: Env, me: UserId, t: Tables, e: LogEvent, seen: set<EventId>)
    requires Consistent(env, t) && SoundKeys(t) && SoundTransfers(env, t) && Honest(env, t, e)
    requires StoredIn(t, seen) && e.id !in seen
    ensures Step(env, me, t, e).Some? && Consistent(env, Step(env, me, t, e).value)
    ensures SoundKeys(Step(env, me, t, e).value) && SoundTransfers(env, Step(env, me, t, e).value)
  {
    hide Step;
    hide Consistent;
    hide SoundKeys;
    hide SoundTransfers;
    hide HonestOpening;
    hide HonestKey;
    hide HonestTransfer;
    StepFaultIff(env, me, t, e, seen);
    HonestEventCanSign(env, me, t, e);
    StepKeepsConsistent(env, me, t, e);
    StepKeepsSoundKeys(env, me, t, e);
    StepKeepsSoundTransfers(env, me, t, e);
  }

  /** A log of honest events never makes the handler panic, on anyone's device. */
  lemma {:induction false} HonestRunNeverFaults(
      env: Env, me: UserId, t: Tables, seen: set<EventId>, log: seq<LogEvent>)
    requires Consistent(env, t) && StoredIn(t, seen) && SoundKeys(t) && SoundTransfers(env, t)
    requires FreshLog(seen, log) && HonestRun(env, me, t, log)
    ensures Run(env, me, t, log).Some? && SoundKeys(Run(env, me, t, log).value)
    ensures SoundTransfers(env, Run(env, me, t, log).value)
  {
    hide Step;
    hide Consistent;
    hide StoredIn;
    hide SoundKeys;
    hide SoundTransfers;
    hide Honest;
    if log != [] {
      var front, e := log[..|log| - 1], log[|log| - 1];
      HonestRunNeverFaults(env, me, t, seen, front);
      RunKeepsConsistent(env, me, t, seen, front);
      HonestStepIsSound(env, me, Run(env, me, t, front).value, e, Seen(seen, front));
    }
  }

  // ---------------------------------------------------------------- which groups and approvals can fail

  /**
   * What the wallet itself does with its requests: it draws on the group's account. `genuine` asks in
   * addition that approvals verify under their senders' keys.
   */
  ghost predicate Ordinary(env: Env, me: UserId, t: Tables, e: LogEvent, genuine: bool) {
    FinalizedGroupOf(t).Some? ==>
      var group := FinalizedGroupOf(t).value;
      && (e.event.RequestWithdrawal? && e.sender == me ==> e.event.request.from == group.account)
      && (genuine ==> GenuineApproval(env, group, t, e))
  }

  ghost predicate OrdinaryLog(env: Env, me: UserId, t: Tables, log: seq<LogEvent>, genuine: bool) {
    log == [] || (
      var front, e := log[..|log| - 1], log[|log| - 1];
      && OrdinaryLog(env, me, t, front, genuine)
      && (Run(env, me, t, front).Some? ==> Ordinary(env, me, Run(env, me, t, front).value, e, genuine))
    )
  }

  /** The same of the requests already stored. */
  ghost predicate OrdinaryTables(env: Env, me: UserId, t: Tables, genuine: bool) {
    FinalizedGroupOf(t).Some? ==>
      var group := FinalizedGroupOf(t).value;
      forall r :: r in t.withdrawals && t.withdrawals[r].sender == me ==>
        && t.withdrawals[r].request.from == group.account
        && (genuine ==> KeyedVerify(env, group, t.withdrawals[r].request, t.withdrawals[r].signatures))
  }

  ghost predicate KeyedVerify(
      env: Env, group: FinalizedGroup, request: TransferRequest, signatures: map<UserId, Signature>) {
    forall u :: u in signatures && u in group.pubkeys ==> env.verifies(request, group.pubkeys[u], signatures[u])
  }

  lemma ResponseKeepsKeyed(
      env: Env, w: Withdrawal, sender: UserId, response: WithdrawalResponse, group: FinalizedGroup)
    requires WithResponse(w, sender, response, group).Some?
    ensures var after := WithResponse(w, sender, response, group).value.0;
      && after.request == w.request && after.sender == w.sender
      && (KeyedVerify(env, group, w.request, w.signatures)
          && (response.Approve? && sender in group.pubkeys ==>
                env.verifies(w.request, group.pubkeys[sender], response.signature))
          ==> KeyedVerify(env, group, after.request, after.signatures))
  {
  }

  lemma StepKeepsOrdinary(env: Env, me: UserId, t: Tables, e: LogEvent, genuine: bool)
    requires FinalizedGroupOf(t).Some? && OrdinaryTables(env, me, t, genuine) && Ordinary(env, me, t, e, genuine)
    requires Step(env, me, t, e).Some?
    ensures OrdinaryTables(env, me, Step(env, me, t, e).value, genuine)
  {
    hide Step;
    hide WithResponse;
    hide KeyedVerify;
    var group := FinalizedGroupOf(t).value;
    FinalizedStepIsPermanent(env, me, t, e);
    match e.event {
      case RespondToWithdrawal(r, response) =>
        ResponseTables(env, me, t, e);
        if r in t.withdrawals && WithResponse(t.withdrawals[r], e.sender, response, group).Some? {
          ResponseKeepsKeyed(env, t.withdrawals[r], e.sender, response, group);
        }
      case RequestWithdrawal(request, _) =>
        RequestTables(env, me, t, e);
        NothingKeyed(env, group, request);
      case NotifyDeposit(_, _, _) => RequestTables(env, me, t, e);
      case _ => GroupEventKeepsRequests(env, me, t, e);
    }
  }

  lemma NothingKeyed(env: Env, group: FinalizedGroup, request: TransferRequest)
    ensures KeyedVerify(env, group, request, map[])
  {
  }

  ghost predicate SharesKey(group: FinalizedGroup) {
    !KeysDiffer(group.pubkeys)
  }

  /** The group itself is at fault: a signer has no key in it, or two that can meet in a quorum share one. */
  ghost predicate Defective(group: FinalizedGroup) {
    !KeysComplete(group) || (group.invitation.threshold >= 2 && SharesKey(group))
  }

  /** Some signature does not verify: of a request that draws on the group's account, under a member's key. */
  ghost predicate Forgeable(env: Env, group: FinalizedGroup) {
    exists request: TransferRequest, u, signature :: Forges(env, group, request, u, signature)
  }

  ghost predicate Forges(
      env: Env, group: FinalizedGroup, request: TransferRequest, u: UserId, signature: Signature) {
    request.from == group.account && u in group.pubkeys && !env.verifies(request, group.pubkeys[u], signature)
  }

  ghost predicate CanFault(
      env: Env, me: UserId, t: Tables, seen: set<EventId>, log: seq<LogEvent>, genuine: bool) {
    FreshLog(seen, log) && OrdinaryLog(env, me, t, log, genuine) && Run(env, me, t, log).None?
  }

  lemma GenuineAfter(env: Env, group: FinalizedGroup, t: Tables, e: LogEvent)
    requires e.event.RespondToWithdrawal? && e.event.response.Approve? && e.event.target in t.withdrawals
    requires GenuineApproval(env, group, t, e)
    requires KeyedVerify(env, group, t.withdrawals[e.event.target].request, t.withdrawals[e.event.target].signatures)
    ensures forall u :: u in ApprovalsAfter(t, e) && u in group.pubkeys ==>
              env.verifies(t.withdrawals[e.event.target].request, group.pubkeys[u], ApprovalsAfter(t, e)[u])
  {
  }

  /** What made one ordinary event panic. */
  lemma OrdinaryFaultNeeds(env: Env, me: UserId, t: Tables, e: LogEvent, genuine: bool)
    requires Consistent(env, t) && OrdinaryTables(env, me, t, genuine) && Ordinary(env, me, t, e, genuine)
    requires CannotSign(env, me, t, e)
    ensures var group := FinalizedGroupOf(t).value;
            Defective(group) || (!genuine && Forgeable(env, group))
  {
    hide Consistent;
    hide CannotSign;
    hide KeyedVerify;
    if !CompletesOwn(me, t, e) {
      OnlyCompletionFails(env, me, t, e);
      assert false;
    }
    var group, r := FinalizedGroupOf(t).value, e.event.target;
    var request, approvals := t.withdrawals[r].request, ApprovalsAfter(t, e);
    OwnFaultIff(env, me, t, e);
    if genuine {
      GenuineAfter(env, group, t, e);
    }
    hide CompletesOwn;
    if approvals.Keys <= group.pubkeys.Keys {
      if !DistinctKeys(group, approvals.Keys) {
        var u, v :| u in approvals.Keys && v in approvals.Keys && u != v && group.pubkeys[u] == group.pubkeys[v];
        SubsetSize({u, v}, approvals.Keys);
        assert |approvals.Keys| == |approvals|;
      } else {
        var u :| u in approvals && !env.verifies(request, group.pubkeys[u], approvals[u]);
        assert Forges(env, group, request, u, approvals[u]);
      }
    }
  }

  lemma {:induction false} FaultNeeds(
      env: Env, me: UserId, t: Tables, seen: set<EventId>, log: seq<LogEvent>, genuine: bool)
    requires Consistent(env, t) && StoredIn(t, seen) && FinalizedGroupOf(t).Some?
    requires OrdinaryTables(env, me, t, genuine) && OrdinaryLog(env, me, t, log, genuine) && FreshLog(seen, log)
    ensures var group := FinalizedGroupOf(t).value;
            if Run(env, me, t, log).None? then Defective(group) || (!genuine && Forgeable(env, group))
            else OrdinaryTables(env, me, Run(env, me, t, log).value, genuine)
  {
    hide Step;
    hide Consistent;
    hide StoredIn;
    hide OrdinaryTables;
    hide Ordinary;
    hide Defective;
    hide Forgeable;
    hide CannotSign;
    if log != [] {
      var front, e := log[..|log| - 1], log[|log| - 1];
      FaultNeeds(env, me, t, seen, front, genuine);
      if Run(env, me, t, front).Some? {
        RunKeepsConsistent(env, me, t, seen, front);
        FinalizedIsPermanent(env, me, t, front);
        var before := Run(env, me, t, front).value;
        StepFaultIff(env, me, before, e, Seen(seen, front));
        if Step(env, me, before, e).None? {
          OrdinaryFaultNeeds(env, me, before, e, genuine);
        } else {
          StepKeepsOrdinary(env, me, before, e, genuine);
        }
      }
    }
  }

  // ---------------------------------------------------------------- a log that fails

  /** Our request at identifier `base`, then the approvals of `users`, signed by `sign`, at the next ones. */
  ghost function ApprovalLog(
      base: EventId, me: UserId, request: TransferRequest, users: seq<UserId>, sign: UserId -> Signature, n: nat)
    : seq<LogEvent>
    requires n <= |users|
  {
    if n == 0 then [LogEvent(base, me, RequestWithdrawal(request, ""), 0)]
    else ApprovalLog(base, me, request, users, sign, n - 1)
         + [LogEvent(base + n, users[n - 1], RespondToWithdrawal(base, Approve(sign(users[n - 1]))), 0)]
  }

  function FirstVoters(users: seq<UserId>, n: nat): set<UserId>
    requires n <= |users|
  {
    if n == 0 then {} else FirstVoters(users, n - 1) + {users[n - 1]}
  }

  lemma {:induction false} LaterVoterIsNew(users: seq<UserId>, n: nat, k: nat)
    requires n <= k < |users|
    requires forall i, j :: 0 <= i < j < |users| ==> users[i] != users[j]
    ensures users[k] !in FirstVoters(users, n)
  {
    if n != 0 {
      LaterVoterIsNew(users, n - 1, k);
    }
  }

  lemma {:induction false} VotersAreUsers(users: seq<UserId>, n: nat)
    requires n <= |users|
    ensures forall u :: u in FirstVoters(users, n) <==> u in users[..n]
  {
    if n != 0 {
      VotersAreUsers(users, n - 1);
      assert users[..n] == users[..n - 1] + [users[n - 1]];
    }
  }

  lemma {:induction false} ApprovalLogIsFresh(
      seen: set<EventId>, base: EventId, me: UserId, request: TransferRequest, users: seq<UserId>,
      sign: UserId -> Signature, n: nat)
    requires n <= |users| && forall x :: x in seen ==> x < base
    ensures FreshLog(seen, ApprovalLog(base, me, request, users, sign, n))
    ensures forall x :: x in Seen(seen, ApprovalLog(base, me, request, users, sign, n)) ==> x <= base + n
  {
    hide FreshLog;
    hide Seen;
    var log := ApprovalLog(base, me, request, users, sign, n);
    var front, e := log[..|log| - 1], log[|log| - 1];
    if n == 0 {
      assert front == [];
      NothingSeen(seen);
    } else {
      var shorter := n - 1;
      ApprovalLogIsFresh(seen, base, me, request, users, sign, shorter);
      assert front == ApprovalLog(base, me, request, users, sign, shorter);
      assert e.id == base + n && e.event.RespondToWithdrawal?;
    }
    SnocIsFresh(seen, log, front, e);
  }

  lemma NothingSeen(seen: set<EventId>)
    ensures FreshLog(seen, []) && Seen(seen, []) == seen
  {
  }

  lemma SnocIsFresh(seen: set<EventId>, log: seq<LogEvent>, front: seq<LogEvent>, e: LogEvent)
    requires log != [] && front == log[..|log| - 1] && e == log[|log| - 1] && !e.event.Reannounce?
    requires FreshLog(seen, front) && e.id !in Seen(seen, front)
    ensures FreshLog(seen, log) && Seen(seen, log) == Seen(seen, front) + {e.id}
  {
  }

  ghost predicate Chosen(
      env: Env, group: FinalizedGroup, request: TransferRequest, users: seq<UserId>,
      sign: UserId -> Signature, genuine: bool) {
    && request.from == group.account
    && (forall i :: 0 <= i < |users| ==> users[i] in group.invitation.signers)
    && (forall i, j :: 0 <= i < j < |users| ==> users[i] != users[j])
    && (genuine ==> forall u :: u in group.pubkeys ==> env.verifies(request, group.pubkeys[u], sign(u)))
  }

  /** The request with the approvals of the first `n` users. */
  ghost predicate Gathered(
      me: UserId, w: Withdrawal, request: TransferRequest, users: seq<UserId>, sign: UserId -> Signature, n: nat)
    requires n <= |users|
  {
    && w.sender == me && w.request == request && w.rejections == {} && |w.signatures| == n
    && w.signatures.Keys == FirstVoters(users, n)
    && forall u :: u in w.signatures ==> w.signatures[u] == sign(u)
  }

  /** The steps of that log are ordinary ones. */
  lemma ChosenIsOrdinary(
      env: Env, me: UserId, t: Tables, e: LogEvent, group: FinalizedGroup, request: TransferRequest,
      users: seq<UserId>, sign: UserId -> Signature, genuine: bool)
    requires FinalizedGroupOf(t) == Some(group) && Chosen(env, group, request, users, sign, genuine)
    requires || (e.event.RequestWithdrawal? && e.event.request == request)
             || (e.event.RespondToWithdrawal? && e.event.response == Approve(sign(e.sender))
                 && e.event.target in t.withdrawals && t.withdrawals[e.event.target].request == request)
    ensures Ordinary(env, me, t, e, genuine)
  {
  }

  lemma GatheredGrows(
      me: UserId, w: Withdrawal, w': Withdrawal, request: TransferRequest, users: seq<UserId>,
      sign: UserId -> Signature, n: nat)
    requires 0 < n <= |users| && Gathered(me, w, request, users, sign, n - 1)
    requires w'.sender == w.sender && w'.request == w.request && w'.rejections == w.rejections
    requires |w'.signatures| == |w.signatures| + 1
    requires w'.signatures == w.signatures[users[n - 1] := sign(users[n - 1])]
    ensures Gathered(me, w', request, users, sign, n)
  {
  }

  lemma MayApprove(
      me: UserId, w: Withdrawal, group: FinalizedGroup, request: TransferRequest, users: seq<UserId>,
      sign: UserId -> Signature, n: nat)
    requires n < |users| && Gathered(me, w, request, users, sign, n) && users[n] in group.invitation.signers
    requires forall i, j :: 0 <= i < j < |users| ==> users[i] != users[j]
    ensures CanVote(w, users[n], group)
  {
    LaterVoterIsNew(users, n, n);
  }

  /** One more approval short of the threshold. */
  lemma ApprovalStep(
      env: Env, me: UserId, t: Tables, e: LogEvent, group: FinalizedGroup, request: TransferRequest,
      users: seq<UserId>, sign: UserId -> Signature, n: nat, genuine: bool)
    requires FinalizedGroupOf(t) == Some(group) && Chosen(env, group, request, users, sign, genuine)
    requires 0 < n <= |users| && n < group.invitation.threshold
    requires e.event.RespondToWithdrawal? && e.event.target in t.withdrawals
    requires e.sender == users[n - 1] && e.event.response == Approve(sign(e.sender))
    requires Gathered(me, t.withdrawals[e.event.target], request, users, sign, n - 1)
    ensures var after := Step(env, me, t, e);
      && after.Some? && after.value.status == t.status && e.event.target in after.value.withdrawals
      && Gathered(me, after.value.withdrawals[e.event.target], request, users, sign, n)
      && Ordinary(env, me, t, e, genuine)
  {
    hide Step;
    hide Ordinary;
    hide Gathered;
    hide CanVote;
    var w, shorter := t.withdrawals[e.event.target], n - 1;
    GatheredMeaning(me, w, request, users, sign, shorter);
    MayApprove(me, w, group, request, users, sign, shorter);
    ApprovalIsStored(env, me, t, e, group);
    ChosenIsOrdinary(env, me, t, e, group, request, users, sign, genuine);
    var after := Step(env, me, t, e).value;
    GatheredGrows(me, w, after.withdrawals[e.event.target], request, users, sign, n);
  }

  /** The request alone. */
  lemma RequestStep(
      env: Env, me: UserId, t: Tables, e: LogEvent, group: FinalizedGroup, request: TransferRequest,
      users: seq<UserId>, sign: UserId -> Signature, genuine: bool)
    requires FinalizedGroupOf(t) == Some(group) && Chosen(env, group, request, users, sign, genuine)
    requires e.event.RequestWithdrawal? && e.event.request == request && e.sender == me && e.id !in t.withdrawals
    ensures var after := Step(env, me, t, e);
      && after.Some? && after.value.status == t.status && e.id in after.value.withdrawals
      && Gathered(me, after.value.withdrawals[e.id], request, users, sign, 0)
      && Ordinary(env, me, t, e, genuine)
  {
    hide Step;
    hide Ordinary;
    hide Gathered;
    RequestIsStored(env, me, t, e, group);
    ChosenIsOrdinary(env, me, t, e, group, request, users, sign, genuine);
    NothingGathered(me, Step(env, me, t, e).value.withdrawals[e.id], request, users, sign);
  }

  /** A log one event longer. */
  lemma SnocRun(env: Env, me: UserId, t: Tables, front: seq<LogEvent>, e: LogEvent, genuine: bool)
    ensures Run(env, me, t, front + [e])
         == match Run(env, me, t, front) case None => None case Some(u) => Step(env, me, u, e)
    ensures OrdinaryLog(env, me, t, front + [e], genuine) <==>
              && OrdinaryLog(env, me, t, front, genuine)
              && (Run(env, me, t, front).Some? ==> Ordinary(env, me, Run(env, me, t, front).value, e, genuine))
  {
    hide Step;
    hide Ordinary;
    assert (front + [e])[..|front|] == front;
  }

  lemma EmptyRun(env: Env, me: UserId, t: Tables, genuine: bool)
    ensures Run(env, me, t, []) == Some(t) && OrdinaryLog(env, me, t, [], genuine)
  {
  }

  /** Until the threshold, the approvals are stored one by one. */
  lemma {:induction false} ApprovalsAccumulate(
      env: Env, me: UserId, t: Tables, seen: set<EventId>, group: FinalizedGroup, base: EventId,
      request: TransferRequest, users: seq<UserId>, sign: UserId -> Signature, n: nat, genuine: bool)
    requires Consistent(env, t) && StoredIn(t, seen) && FinalizedGroupOf(t) == Some(group)
    requires forall x :: x in seen ==> x < base
    requires Chosen(env, group, request, users, sign, genuine)
    requires n <= |users| && n < group.invitation.threshold
    ensures var log := ApprovalLog(base, me, request, users, sign, n);
            var after := Run(env, me, t, log);
            && after.Some? && after.value.status == t.status && base in after.value.withdrawals
            && Gathered(me, after.value.withdrawals[base], request, users, sign, n)
            && OrdinaryLog(env, me, t, log, genuine)
  {
    hide Consistent;
    hide StoredIn;
    hide Step;
    hide Run;
    hide OrdinaryLog;
    hide Ordinary;
    hide Gathered;
    hide Chosen;
    if n == 0 {
      var e := LogEvent(base, me, RequestWithdrawal(request, ""), 0);
      assert ApprovalLog(base, me, request, users, sign, 0) == [] + [e];
      UnseenIsUnstored(t, seen, base);
      EmptyRun(env, me, t, genuine);
      SnocRun(env, me, t, [], e, genuine);
      RequestStep(env, me, t, e, group, request, users, sign, genuine);
    } else {
      var shorter := n - 1;
      ApprovalsAccumulate(env, me, t, seen, group, base, request, users, sign, shorter, genuine);
      var front := ApprovalLog(base, me, request, users, sign, shorter);
      var u := users[shorter];
      var e := LogEvent(base + n, u, RespondToWithdrawal(base, Approve(sign(u))), 0);
      SnocRun(env, me, t, front, e, genuine);
      ApprovalStep(env, me, Run(env, me, t, front).value, e, group, request, users, sign, n, genuine);
    }
  }

  lemma NothingGathered(
      me: UserId, w: Withdrawal, request: TransferRequest, users: seq<UserId>, sign: UserId -> Signature)
    requires w.sender == me && w.request == request && w.rejections == {} && w.signatures == map[]
    ensures Gathered(me, w, request, users, sign, 0)
  {
  }

  lemma GatheredMeaning(
      me: UserId, w: Withdrawal, request: TransferRequest, users: seq<UserId>, sign: UserId -> Signature, n: nat)
    requires n <= |users| && Gathered(me, w, request, users, sign, n)
    ensures w.request == request && |w.signatures| == n
  {
  }

  lemma RequestIsStored(env: Env, me: UserId, t: Tables, e: LogEvent, group: FinalizedGroup)
    requires FinalizedGroupOf(t) == Some(group) && e.event.RequestWithdrawal? && e.id !in t.withdrawals
    ensures var after := Step(env, me, t, e);
            && after.Some? && after.value.status == t.status && e.id in after.value.withdrawals
            && var w := after.value.withdrawals[e.id];
            w.sender == e.sender && w.request == e.event.request && w.rejections == {} && w.signatures == map[]
  {
  }

  lemma ApprovalIsStored(env: Env, me: UserId, t: Tables, e: LogEvent, group: FinalizedGroup)
    requires FinalizedGroupOf(t) == Some(group)
    requires e.event.RespondToWithdrawal? && e.event.response.Approve? && e.event.target in t.withdrawals
    requires CanVote(t.withdrawals[e.event.target], e.sender, group)
    requires |t.withdrawals[e.event.target].signatures| + 1 < group.invitation.threshold
    ensures var r, after := e.event.target, Step(env, me, t, e);
            && after.Some? && after.value.status == t.status && r in after.value.withdrawals
            && var w, w' := t.withdrawals[r], after.value.withdrawals[r];
            && w'.sender == w.sender && w'.request == w.request && w'.rejections == w.rejections
            && |w'.signatures| == |w.signatures| + 1
            && w'.signatures == w.signatures[e.sender := e.event.response.signature]
  {
    hide RowFor;
    ApprovalCounts(t.withdrawals[e.event.target], e.sender, e.event.response.signature);
  }

  lemma UnseenIsUnstored(t: Tables, seen: set<EventId>, base: EventId)
    requires forall x :: x in seen ==> x < base
    ensures StoredIn(t, seen) ==> base !in t.withdrawals
  {
  }

  /** What can be wrong with the approvals of a quorum. */
  ghost predicate Unsignable(
      env: Env, group: FinalizedGroup, request: TransferRequest, users: set<UserId>, sign: UserId -> Signature) {
    || !(users <= group.pubkeys.Keys)
    || !DistinctKeys(group, users)
    || exists u :: u in users && !env.verifies(request, group.pubkeys[u], sign(u))
  }

  /** A quorum whose approvals do not sign the request makes our handler panic at the last of them. */
  lemma UnsignableFaults(
      env: Env, me: UserId, t: Tables, seen: set<EventId>, group: FinalizedGroup,
      request: TransferRequest, users: seq<UserId>, sign: UserId -> Signature, genuine: bool)
    requires Consistent(env, t) && StoredIn(t, seen) && FinalizedGroupOf(t) == Some(group)
    requires Chosen(env, group, request, users, sign, genuine)
    requires |users| == group.invitation.threshold
    requires Unsignable(env, group, request, FirstVoters(users, |users|), sign)
    ensures CanFault(env, me, t, seen, ApprovalLog(Unused(seen), me, request, users, sign, |users|), genuine)
  {
    hide Step;
    hide Consistent;
    hide StoredIn;
    hide Unused;
    hide CannotSign;
    hide Unsignable;
    hide Ordinary;
    hide Gathered;
    hide Seen;
    hide Chosen;
    hide Run;
    hide OrdinaryLog;
    hide FreshLog;
    ThresholdFits(env, t, group);
    var base, n, shorter := Unused(seen), |users|, |users| - 1;
    var front, u := ApprovalLog(base, me, request, users, sign, shorter), users[shorter];
    var e := LogEvent(base + n, u, RespondToWithdrawal(base, Approve(sign(u))), 0);
    ApprovalLogIsFresh(seen, base, me, request, users, sign, n);
    ApprovalLogIsFresh(seen, base, me, request, users, sign, shorter);
    ApprovalsAccumulate(env, me, t, seen, group, base, request, users, sign, shorter, genuine);
    RunKeepsConsistent(env, me, t, seen, front);
    SnocRun(env, me, t, front, e, genuine);
    var before := Run(env, me, t, front).value;
    LastApprovalFaults(env, me, before, Seen(seen, front), e, group, request, users, sign, genuine);
  }

  lemma LastApprovalFaults(
      env: Env, me: UserId, t: Tables, seen: set<EventId>, e: LogEvent, group: FinalizedGroup,
      request: TransferRequest, users: seq<UserId>, sign: UserId -> Signature, genuine: bool)
    requires Consistent(env, t) && StoredIn(t, seen) && e.id !in seen && FinalizedGroupOf(t) == Some(group)
    requires Chosen(env, group, request, users, sign, genuine) && 0 < |users| == group.invitation.threshold
    requires e.event.RespondToWithdrawal? && e.event.target in t.withdrawals
    requires Gathered(me, t.withdrawals[e.event.target], request, users, sign, |users| - 1)
    requires e.sender == users[|users| - 1] && e.event.response == Approve(sign(e.sender))
    requires Unsignable(env, group, request, FirstVoters(users, |users|), sign)
    ensures Step(env, me, t, e).None? && Ordinary(env, me, t, e, genuine)
  {
    hide Step;
    hide Consistent;
    hide StoredIn;
    hide CannotSign;
    hide Unsignable;
    hide Ordinary;
    hide Gathered;
    hide FirstVoters;
    LaterVoterIsNew(users, |users| - 1, |users| - 1);
    GatheredMeaning(me, t.withdrawals[e.event.target], request, users, sign, |users| - 1);
    ChosenIsOrdinary(env, me, t, e, group, request, users, sign, genuine);
    LastApprovalCannotSign(env, me, t, e, group, request, users, sign);
    StepFaultIff(env, me, t, e, seen);
  }

  /** The plainest case: a quorum with a signer in it who has no key. */
  lemma MissingSignerFaults(
      env: Env, me: UserId, t: Tables, seen: set<EventId>, group: FinalizedGroup,
      request: TransferRequest, users: seq<UserId>, sign: UserId -> Signature, genuine: bool)
    requires Consistent(env, t) && StoredIn(t, seen) && FinalizedGroupOf(t) == Some(group)
    requires Chosen(env, group, request, users, sign, genuine)
    requires |users| == group.invitation.threshold && exists i :: 0 <= i < |users| && users[i] !in group.pubkeys
    ensures CanFault(env, me, t, seen, ApprovalLog(Unused(seen), me, request, users, sign, |users|), genuine)
  {
    hide CanFault;
    hide Consistent;
    hide StoredIn;
    var i :| 0 <= i < |users| && users[i] !in group.pubkeys;
    VotersAreUsers(users, |users|);
    assert users[..|users|] == users;
    assert users[i] in FirstVoters(users, |users|) && users[i] !in group.pubkeys.Keys;
    UnsignableFaults(env, me, t, seen, group, request, users, sign, genuine);
  }

  lemma LastApprovalCannotSign(
      env: Env, me: UserId, t: Tables, e: LogEvent, group: FinalizedGroup,
      request: TransferRequest, users: seq<UserId>, sign: UserId -> Signature)
    requires Consistent(env, t) && FinalizedGroupOf(t) == Some(group)
    requires |users| == group.invitation.threshold && request.from == group.account
    requires e.event.RespondToWithdrawal? && e.event.target in t.withdrawals
    requires Gathered(me, t.withdrawals[e.event.target], request, users, sign, |users| - 1)
    requires e.sender == users[|users| - 1] && e.event.response == Approve(sign(e.sender))
    requires e.sender in group.invitation.signers && e.sender !in FirstVoters(users, |users| - 1)
    requires Unsignable(env, group, request, FirstVoters(users, |users|), sign)
    ensures CannotSign(env, me, t, e)
  {
    hide Consistent;
    hide CannotSign;
    hide Signed;
    assert CompletesOwn(me, t, e);
    var approvals := ApprovalsAfter(t, e);
    assert approvals.Keys == FirstVoters(users, |users|);
    assert forall u :: u in approvals ==> approvals[u] == sign(u);
    OwnFaultIff(env, me, t, e);
  }

  /** `count` distinct signers, those in `must` among them. */
  lemma SignersWith(signers: set<UserId>, must: set<UserId>, count: nat) returns (users: seq<UserId>)
    requires must <= signers && |must| <= count <= |signers|
    ensures |users| == count && forall u :: u in must ==> u in users
    ensures forall i :: 0 <= i < |users| ==> users[i] in signers
    ensures forall i, j :: 0 <= i < j < |users| ==> users[i] != users[j]
  {
    if count == 0 {
      users := [];
    } else {
      var next: UserId;
      if must != {} {
        next :| next in must;
      } else {
        next :| next in signers;
      }
      assert |signers - {next}| == |signers| - 1;
      assert next in must ==> |must - {next}| == |must| - 1;
      var rest := SignersWith(signers - {next}, must - {next}, count - 1);
      users := [next] + rest;
    }
  }

  /** Approvals of a quorum that includes `must`, on a request that they do not sign. */
  lemma QuorumFaults(
      env: Env, me: UserId, t: Tables, seen: set<EventId>, group: FinalizedGroup, must: set<UserId>,
      request: TransferRequest, sign: UserId -> Signature, genuine: bool)
    requires Consistent(env, t) && StoredIn(t, seen) && FinalizedGroupOf(t) == Some(group)
    requires must <= group.invitation.signers && |must| <= group.invitation.threshold
    requires Chosen(env, group, request, [], sign, genuine) && Unsignable(env, group, request, must, sign)
    ensures exists log :: CanFault(env, me, t, seen, log, genuine)
  {
    hide CanFault;
    ThresholdFits(env, t, group);
    hide Consistent;
    hide StoredIn;
    var users := SignersWith(group.invitation.signers, must, group.invitation.threshold);
    VotersAreUsers(users, |users|);
    assert users[..|users|] == users;
    assert must <= FirstVoters(users, |users|);
    UnsignableFaults(env, me, t, seen, group, request, users, sign, genuine);
  }

  lemma ThresholdFits(env: Env, t: Tables, group: FinalizedGroup)
    requires Consistent(env, t) && FinalizedGroupOf(t) == Some(group)
    ensures 1 <= group.invitation.threshold <= |group.invitation.signers|
    ensures |group.pubkeys.Keys| == |group.invitation.signers|
    ensures group.account.threshold == group.invitation.threshold
  {
    ValuesFit(group.pubkeys);
    assert |group.pubkeys.Keys| == |group.pubkeys|;
  }

  lemma {:induction false} ValuesFit(pubkeys: map<UserId, PubKey>)
    ensures |pubkeys.Values| <= |pubkeys|
    decreases |pubkeys|
  {
    if pubkeys.Keys != {} {
      var u :| u in pubkeys;
      var rest := pubkeys - {u};
      assert rest.Keys == pubkeys.Keys - {u};
      assert |rest| == |rest.Keys| && |pubkeys| == |pubkeys.Keys|;
      ValuesFit(rest);
      assert pubkeys.Values <= rest.Values + {pubkeys[u]} by {
        forall key | key in pubkeys.Values ensures key in rest.Values + {pubkeys[u]} {
          var v :| v in pubkeys && pubkeys[v] == key;
          assert v != u ==> v in rest && rest[v] == key;
        }
      }
      SubsetSize(pubkeys.Values, rest.Values + {pubkeys[u]});
    } else {
      assert pubkeys.Values == {};
    }
  }

  /** A defective group fails with any request and any signatures. */
  lemma DefectiveFaults(
      env: Env, me: UserId, t: Tables, seen: set<EventId>, group: FinalizedGroup,
      request: TransferRequest, sign: UserId -> Signature, genuine: bool)
    requires Consistent(env, t) && StoredIn(t, seen) && FinalizedGroupOf(t) == Some(group)
    requires Chosen(env, group, request, [], sign, genuine) && Defective(group)
    ensures exists log :: CanFault(env, me, t, seen, log, genuine)
  {
    ThresholdFits(env, t, group);
    hide Consistent;
    hide StoredIn;
    hide CanFault;
    if !KeysComplete(group) {
      var missing := SignerWithoutKey(group);
      QuorumFaults(env, me, t, seen, group, {missing}, request, sign, genuine);
    } else {
      var u, v :| u in group.pubkeys && v in group.pubkeys && u != v && group.pubkeys[u] == group.pubkeys[v];
      assert |{u, v}| == 2;
      assert !DistinctKeys(group, {u, v});
      QuorumFaults(env, me, t, seen, group, {u, v}, request, sign, genuine);
    }
  }

  lemma SignerWithoutKey(group: FinalizedGroup) returns (missing: UserId)
    requires !KeysComplete(group) && |group.pubkeys.Keys| == |group.invitation.signers|
    ensures missing in group.invitation.signers && missing !in group.pubkeys
  {
    if group.invitation.signers <= group.pubkeys.Keys {
      SubsetSize(group.invitation.signers, group.pubkeys.Keys);
      assert false;
    }
    missing :| missing in group.invitation.signers && missing !in group.pubkeys.Keys;
  }

  /**
   * Main result: from a finalized group, some later log in which we draw on the group's account makes our
   * handler panic if and only if a signer has no key in the group, two share one and the threshold is at
   * least two, or there is a signature that does not verify.
   */
  lemma FaultReachableIff(env: Env, me: UserId, t: Tables, seen: set<EventId>)
    requires Consistent(env, t) && StoredIn(t, seen) && FinalizedGroupOf(t).Some?
    requires OrdinaryTables(env, me, t, false)
    ensures var group := FinalizedGroupOf(t).value;
            (exists log :: CanFault(env, me, t, seen, log, false)) <==> Defective(group) || Forgeable(env, group)
  {
    var group := FinalizedGroupOf(t).value;
    forall log | CanFault(env, me, t, seen, log, false) ensures Defective(group) || Forgeable(env, group) {
      FaultNeeds(env, me, t, seen, log, false);
    }
    hide Consistent;
    hide StoredIn;
    hide CanFault;
    hide OrdinaryTables;
    if Defective(group) {
      var request := TransferRequest(group.account, 0);
      DefectiveFaults(env, me, t, seen, group, request, _ => 0, false);
    } else if Forgeable(env, group) {
      var request: TransferRequest, u, signature :| Forges(env, group, request, u, signature);
      ThresholdFits(env, t, group);
      var sign := (_: UserId) => signature;
      assert u in {u} && !env.verifies(request, group.pubkeys[u], sign(u));
      assert Unsignable(env, group, request, {u}, sign);
      QuorumFaults(env, me, t, seen, group, {u}, request, sign, false);
    }
  }

  /** Some request that draws on the group's account can be signed with every member's key. */
  ghost predicate Signable(env: Env, group: FinalizedGroup) {
    exists request: TransferRequest, sign :: Chosen(env, group, request, [], sign, true)
  }

  /** With genuine approvals, a panic can be reached if and only if the group itself is at fault. */
  lemma GenuineFaultReachableIff(env: Env, me: UserId, t: Tables, seen: set<EventId>)
    requires Consistent(env, t) && StoredIn(t, seen) && FinalizedGroupOf(t).Some?
    requires OrdinaryTables(env, me, t, true) && Signable(env, FinalizedGroupOf(t).value)
    ensures (exists log :: CanFault(env, me, t, seen, log, true)) <==> Defective(FinalizedGroupOf(t).value)
  {
    var group := FinalizedGroupOf(t).value;
    forall log | CanFault(env, me, t, seen, log, true) ensures Defective(group) {
      FaultNeeds(env, me, t, seen, log, true);
    }
    hide Consistent;
    hide StoredIn;
    hide CanFault;
    hide OrdinaryTables;
    if Defective(group) {
      var request: TransferRequest, sign :| Chosen(env, group, request, [], sign, true);
      DefectiveFaults(env, me, t, seen, group, request, sign, true);
    }
  }

  // ---------------------------------------------------------------- from the room's first event

  lemma {:induction false} FreshChain(seen: set<EventId>, opening: seq<LogEvent>, rest: seq<LogEvent>)
    requires FreshLog(seen, opening) && FreshLog(Seen(seen, opening), rest)
    ensures FreshLog(seen, opening + rest) && Seen(seen, opening + rest) == Seen(Seen(seen, opening), rest)
  {
    if rest == [] {
      assert opening + rest == opening;
    } else {
      var whole, front := opening + rest, rest[..|rest| - 1];
      assert whole[..|whole| - 1] == opening + front;
      FreshChain(seen, opening, front);
    }
  }

  lemma {:induction false} OrdinaryChain(
      env: Env, me: UserId, t: Tables, opening: seq<LogEvent>, rest: seq<LogEvent>, genuine: bool)
    requires OrdinaryLog(env, me, t, opening, genuine) && Run(env, me, t, opening).Some?
    requires OrdinaryLog(env, me, Run(env, me, t, opening).value, rest, genuine)
    ensures OrdinaryLog(env, me, t, opening + rest, genuine)
  {
    hide Step;
    hide Ordinary;
    if rest == [] {
      assert opening + rest == opening;
    } else {
      var whole, front := opening + rest, rest[..|rest| - 1];
      assert whole[..|whole| - 1] == opening + front;
      OrdinaryChain(env, me, t, opening, front, genuine);
      RunConcat(env, me, t, opening, front);
    }
  }

  /** Invitations and votes are ordinary events. */
  lemma {:induction false} OpeningIsOrdinary(
      env: Env, me: UserId, t: Tables, opening: seq<LogEvent>, genuine: bool)
    requires forall i :: 0 <= i < |opening| ==> opening[i].event.InviteGroup? || opening[i].event.VoteOnInvitation?
    ensures OrdinaryLog(env, me, t, opening, genuine)
  {
    hide Step;
    if opening != [] {
      OpeningIsOrdinary(env, me, t, opening[..|opening| - 1], genuine);
    }
  }

  /**
   * A room that opens into a group with a defect goes on to a panic, with ordinary requests of ours, and
   * with approvals that all verify as soon as the group's requests can be signed at all.
   */
  lemma DefectFaultsFromStart(env: Env, me: UserId, opening: seq<LogEvent>) returns (log: seq<LogEvent>, genuine: bool)
    requires FreshLog({}, opening) && Run(env, me, EMPTY, opening).Some?
    requires forall i :: 0 <= i < |opening| ==> opening[i].event.InviteGroup? || opening[i].event.VoteOnInvitation?
    requires FinalizedGroupOf(Run(env, me, EMPTY, opening).value).Some?
    requires Defective(FinalizedGroupOf(Run(env, me, EMPTY, opening).value).value)
    ensures opening <= log && CanFault(env, me, EMPTY, {}, log, genuine)
    ensures genuine <==> Signable(env, FinalizedGroupOf(Run(env, me, EMPTY, opening).value).value)
  {
    hide Step;
    hide Defective;
    hide Consistent;
    hide StoredIn;
    EmptyIsStart(env);
    RunKeepsConsistent(env, me, EMPTY, {}, opening);
    var t, seen := Run(env, me, EMPTY, opening).value, Seen({}, opening);
    var group := FinalizedGroupOf(t).value;
    genuine := Signable(env, group);
    DefectCanFault(env, me, t, seen, group, genuine);
    var rest :| CanFault(env, me, t, seen, rest, genuine);
    FreshChain({}, opening, rest);
    OpeningIsOrdinary(env, me, EMPTY, opening, genuine);
    OrdinaryChain(env, me, EMPTY, opening, rest, genuine);
    RunConcat(env, me, EMPTY, opening, rest);
    log := opening + rest;
  }

  lemma DefectCanFault(env: Env, me: UserId, t: Tables, seen: set<EventId>, group: FinalizedGroup, genuine: bool)
    requires Consistent(env, t) && StoredIn(t, seen) && FinalizedGroupOf(t) == Some(group)
    requires Defective(group) && (genuine ==> Signable(env, group))
    ensures exists log :: CanFault(env, me, t, seen, log, genuine)
  {
    hide Consistent;
    hide StoredIn;
    hide Defective;
    hide CanFault;
    if genuine {
      var request: TransferRequest, sign :| Chosen(env, group, request, [], sign, true);
      DefectiveFaults(env, me, t, seen, group, request, sign, true);
    } else {
      DefectiveFaults(env, me, t, seen, group, TransferRequest(group.account, 0), _ => 0, false);
    }
  }

  lemma EmptyIsStart(env: Env)
    ensures Consistent(env, EMPTY) && StoredIn(EMPTY, {})
  {
  }

  /** User 3 invites signers 1 and 2 without being one; user 1 accepts, and the count of keys is complete. */
  function IncompleteOpening(code: string): seq<LogEvent> {
    [LogEvent(1, 3, InviteGroup(Invitation({1, 2}, 1, code, ""), 7), 0),
     LogEvent(2, 1, VoteOnInvitation(1, Accept(8)), 0)]
  }

  lemma IncompleteGroupForms(env: Env, me: UserId, code: string)
    requires env.federationOf(code).Some?
    ensures FreshLog({}, IncompleteOpening(code)) && Run(env, me, EMPTY, IncompleteOpening(code)).Some?
    ensures var t := Run(env, me, EMPTY, IncompleteOpening(code)).value;
            FinalizedGroupOf(t).Some? && !KeysComplete(FinalizedGroupOf(t).value)
  {
    var log := IncompleteOpening(code);
    var e1, e2 := log[0], log[1];
    FreshPair(e1, e2);
    RunPair(env, me, e1, e2);
    var t1 := Step(env, me, EMPTY, e1).value;
    var keys := map[3 := 7, 1 := 8];
    assert t1.invitations[1].pubkeys[1 := 8] == keys;
    assert keys.Keys == {3, 1} && |keys| == |keys.Keys| == 2 && |{1, 2}| == 2;
    assert keys.Values == {7, 8} && |{7, 8}| == 2;
    assert 3 in keys.Keys && 3 !in {1, 2};
  }

  lemma FreshPair(e1: LogEvent, e2: LogEvent)
    requires e1.id != e2.id && !e1.event.Reannounce? && !e2.event.Reannounce?
    ensures FreshLog({}, [e1, e2])
  {
    NothingSeen({});
    SnocIsFresh({}, [e1], [], e1);
    assert [e1, e2][..1] == [e1];
    SnocIsFresh({}, [e1, e2], [e1], e2);
  }

  lemma RunPair(env: Env, me: UserId, e1: LogEvent, e2: LogEvent)
    ensures Run(env, me, EMPTY, [e1, e2])
         == match Step(env, me, EMPTY, e1) case None => None case Some(t) => Step(env, me, t, e2)
  {
    hide Step;
    assert [e1, e2][..1] == [e1] && [e1][..0] == [];
    assert Run(env, me, EMPTY, []) == Some(EMPTY);
    assert Run(env, me, EMPTY, [e1]) == Step(env, me, EMPTY, e1);
  }

  /** That room goes on to a panic: the signer without a key approves. */
  lemma IncompleteGroupFaults(env: Env, me: UserId, code: string)
    returns (log: seq<LogEvent>, genuine: bool)
    requires env.federationOf(code).Some?
    ensures IncompleteOpening(code) <= log && CanFault(env, me, EMPTY, {}, log, genuine)
    ensures var t := Run(env, me, EMPTY, IncompleteOpening(code));
            && t.Some? && FinalizedGroupOf(t.value).Some?
            && (genuine <==> Signable(env, FinalizedGroupOf(t.value).value))
  {
    hide Run;
    hide CanFault;
    hide Signable;
    IncompleteGroupForms(env, me, code);
    log, genuine := DefectFaultsFromStart(env, me, IncompleteOpening(code));
  }

  /** Signers 1 and 2 give the same key, and both keys are needed. */
  function SharedKeyOpening(code: string): seq<LogEvent> {
    [LogEvent(1, 1, InviteGroup(Invitation({1, 2, 3}, 2, code, ""), 7), 0),
     LogEvent(2, 2, VoteOnInvitation(1, Accept(7)), 0), LogEvent(3, 3, VoteOnInvitation(1, Accept(8)), 0)]
  }

  lemma InviteIsStored(env: Env, me: UserId, e: LogEvent)
    requires e.event.InviteGroup? && env.federationOf(e.event.invitation.inviteCode).Some?
    ensures var federation := env.federationOf(e.event.invitation.inviteCode).value;
            var record := NewInvitation(e.event.invitation, e.sender, e.event.proposerKey, federation);
            Step(env, me, EMPTY, e)
            == Some(EMPTY.(invitations := map[e.id := record], status := Some(ActiveInvitation(e.id))))
  {
    hide NewInvitation;
  }

  lemma AcceptIsStored(env: Env, me: UserId, t: Tables, e: LogEvent)
    requires e.event.VoteOnInvitation? && e.event.vote.Accept?
    requires IsActive(t, e.event.target) && e.event.target in t.invitations
    requires var g := t.invitations[e.event.target];
             e.sender in g.invitation.signers && e.sender !in g.pubkeys && e.sender !in g.rejections
    ensures var id, g := e.event.target, t.invitations[e.event.target];
            var record := g.(pubkeys := g.pubkeys[e.sender := e.event.vote.memberKey]);
            var group := ToFinalized(record);
            var status := if group.Some? then Some(Finalized(id, group.value)) else t.status;
            Step(env, me, t, e) == Some(t.(invitations := t.invitations[id := record], status := status))
  {
    hide ToFinalized;
  }

  lemma SharedKeyGroupForms(env: Env, me: UserId, code: string)
    requires env.federationOf(code).Some?
    ensures FreshLog({}, SharedKeyOpening(code)) && Run(env, me, EMPTY, SharedKeyOpening(code)).Some?
    ensures var t := Run(env, me, EMPTY, SharedKeyOpening(code)).value;
            && FinalizedGroupOf(t).Some? && KeysComplete(FinalizedGroupOf(t).value)
            && Defective(FinalizedGroupOf(t).value)
  {
    hide Step;
    hide FreshLog;
    var log := SharedKeyOpening(code);
    var e1, e2, e3 := log[0], log[1], log[2];
    var two, three := map[1 := 7, 2 := 7], map[1 := 7, 2 := 7, 3 := 8];
    assert two.Keys == {1, 2} && |two| == |two.Keys| == 2;
    assert three.Keys == {1, 2, 3} && |three| == |three.Keys| == 3;
    assert three.Values == {7, 8} && |{7, 8}| == 2;
    assert map[1 := 7][2 := 7] == two && two[3 := 8] == three;
    FreshPair(e1, e2);
    SeenPair(e1, e2);
    assert log[..2] == [e1, e2];
    SnocIsFresh({}, log, [e1, e2], e3);
    RunPair(env, me, e1, e2);
    InviteIsStored(env, me, e1);
    AcceptIsStored(env, me, Step(env, me, EMPTY, e1).value, e2);
    AcceptIsStored(env, me, Run(env, me, EMPTY, [e1, e2]).value, e3);
    assert 1 in three && 2 in three && three[1] == three[2];
  }

  lemma SeenPair(e1: LogEvent, e2: LogEvent)
    requires !e1.event.Reannounce? && !e2.event.Reannounce?
    ensures Seen({}, [e1, e2]) == {e1.id, e2.id}
  {
    assert [e1, e2][..1] == [e1] && [e1][..0] == [];
    assert Seen({}, []) == {};
    assert Seen({}, [e1]) == {e1.id};
  }

  lemma SharedKeyGroupFaults(env: Env, me: UserId, code: string)
    returns (log: seq<LogEvent>, genuine: bool)
    requires env.federationOf(code).Some?
    ensures SharedKeyOpening(code) <= log && CanFault(env, me, EMPTY, {}, log, genuine)
    ensures var t := Run(env, me, EMPTY, SharedKeyOpening(code));
            && t.Some? && FinalizedGroupOf(t.value).Some?
            && (genuine <==> Signable(env, FinalizedGroupOf(t.value).value))
  {
    hide Run;
    hide CanFault;
    hide Signable;
    SharedKeyGroupForms(env, me, code);
    log, genuine := DefectFaultsFromStart(env, me, SharedKeyOpening(code));
  }
}
