/**
 * An approved withdrawal is queued for submission once, on the requester's device, by the approval
 * that reaches the threshold, and never again however the log goes on.
 */
module ApprovedOnce {
  import opened Options
  import opened Ordered
  import opened Multispend
  import opened GroupInvariants
  import opened Approvals
  import opened Faults

  /** The row this event adds to the pending table, if it adds one. */
  ghost function QueuedBy(env: Env, me: UserId, t: Tables, e: LogEvent): Option<PendingRow> {
    match Handle(env, me, t, e)
    case Done(t', true, _) =>
      if e.event.RespondToWithdrawal? && e.event.target in t'.withdrawals && FinalizedGroupOf(t).Some? then
        RowFor(env, e.event.target, t'.withdrawals[e.event.target], FinalizedGroupOf(t).value)
      else None
    case _ => None
  }

  /** How many events of the log queued request `r`. */
  ghost function QueueCount(env: Env, me: UserId, t: Tables, log: seq<LogEvent>, r: EventId): nat {
    if log == [] then 0 else
      var front, e := log[..|log| - 1], log[|log| - 1];
      var before := Run(env, me, t, front);
      QueueCount(env, me, t, front, r)
      + (if before.Some? && QueuesRequest(env, me, before.value, e, r) then 1 else 0)
  }

  ghost predicate QueuesRequest(env: Env, me: UserId, t: Tables, e: LogEvent, r: EventId) {
    QueuedBy(env, me, t, e).Some? && QueuedBy(env, me, t, e).value.requestId == r
  }

  /** Request `r` is ours and has gathered at least the threshold of approvals. */
  ghost predicate IsApproved(me: UserId, t: Tables, r: EventId) {
    && FinalizedGroupOf(t).Some? && r in t.withdrawals && t.withdrawals[r].sender == me
    && 1 <= FinalizedGroupOf(t).value.invitation.threshold <= |t.withdrawals[r].signatures|
  }

  /** The effect of a response on the stored request. */
  lemma ResponseEffect(env: Env, me: UserId, t: Tables, e: LogEvent)
    requires e.event.RespondToWithdrawal? && Handle(env, me, t, e).Done?
    ensures FinalizedGroupOf(t).Some? && e.event.target in t.withdrawals
    ensures var r, group, t' := e.event.target, FinalizedGroupOf(t).value, Handle(env, me, t, e).tables;
            var result := WithResponse(t.withdrawals[r], e.sender, e.event.response, group);
            && result.Some? && t'.status == t.status && t'.withdrawals == t.withdrawals[r := result.value.0]
            && Handle(env, me, t, e).wake == (result.value.1 == Approved && me == result.value.0.sender)
            && (if Handle(env, me, t, e).wake then
                  RowFor(env, r, result.value.0, group).Some?
                  && t'.pending == t.pending + {RowFor(env, r, result.value.0, group).value}
                else t'.pending == t.pending)
  {
    hide WithResponse;
    hide RowFor;
  }

  lemma OtherEventsQueueNothing(env: Env, me: UserId, t: Tables, e: LogEvent)
    requires !e.event.RespondToWithdrawal? && Handle(env, me, t, e).Done?
    ensures !Handle(env, me, t, e).wake && Handle(env, me, t, e).tables.pending == t.pending
    ensures var t' := Handle(env, me, t, e).tables;
            && (forall r :: r in t.withdrawals ==> r in t'.withdrawals && t'.withdrawals[r] == t.withdrawals[r])
            && (forall r :: r in t'.withdrawals && r !in t.withdrawals ==> t'.withdrawals[r].signatures == map[])
  {
    hide ToFinalized;
    hide WithVote;
    hide ChronoCount;
  }

  /** A response moves a request across the threshold exactly when its outcome is `Approved`. */
  lemma ApprovalCrossesThreshold(w: Withdrawal, sender: UserId, response: WithdrawalResponse, group: FinalizedGroup)
    requires WithResponse(w, sender, response, group).Some?
    ensures var (w', outcome) := WithResponse(w, sender, response, group).value;
            var threshold := group.invitation.threshold;
            && w'.sender == w.sender && w'.request == w.request
            && |w.signatures| <= |w'.signatures|
            && (outcome == Approved <==> 1 <= threshold && |w.signatures| < threshold <= |w'.signatures|)
            && (outcome == Approved ==> |w'.signatures| == threshold && sender in w'.signatures && sender !in w.signatures)
  {
    if response.Approve? {
      ApprovalCounts(w, sender, response.signature);
    }
  }

  lemma StepQueuesOnCrossing(env: Env, me: UserId, t: Tables, e: LogEvent, r: EventId)
    requires Consistent(env, t) && Step(env, me, t, e).Some?
    ensures var t' := Step(env, me, t, e).value;
            && (IsApproved(me, t, r) ==> IsApproved(me, t', r))
            && (QueuesRequest(env, me, t, e, r) <==> !IsApproved(me, t, r) && IsApproved(me, t', r))
  {
    var t' := Step(env, me, t, e).value;
    if Handle(env, me, t, e).Invalid? {
      InvalidChangesNothing(env, me, t, e);
    } else if e.event.RespondToWithdrawal? {
      ResponseEffect(env, me, t, e);
      hide Handle;
      ResponseQueues(env, me, t, e, r);
    } else {
      OtherEventsQueueNothing(env, me, t, e);
      if FinalizedGroupOf(t).Some? {
        FinalizedStepIsPermanent(env, me, t, e);
      } else {
        assert t.withdrawals == map[];
      }
      hide Handle;
      NothingToQueue(me, t, t', r);
    }
  }

  lemma InvalidChangesNothing(env: Env, me: UserId, t: Tables, e: LogEvent)
    requires Handle(env, me, t, e).Invalid? && Step(env, me, t, e).Some?
    ensures Step(env, me, t, e).value == t.(invalid := t.invalid + {e.id})
  {
    hide Handle;
  }

  lemma NothingToQueue(me: UserId, t: Tables, t': Tables, r: EventId)
    requires FinalizedGroupOf(t).Some? ==> t'.status == t.status
    requires FinalizedGroupOf(t).None? ==> t.withdrawals == map[]
    requires forall r :: r in t.withdrawals ==> r in t'.withdrawals && t'.withdrawals[r] == t.withdrawals[r]
    requires forall r :: r in t'.withdrawals && r !in t.withdrawals ==> t'.withdrawals[r].signatures == map[]
    ensures IsApproved(me, t, r) <==> IsApproved(me, t', r)
  {
  }

  /** A response queues exactly the request whose `Approved` outcome it brings about on our device. */
  lemma ResponseQueuesTarget(env: Env, me: UserId, t: Tables, e: LogEvent, r: EventId)
    requires e.event.RespondToWithdrawal? && Handle(env, me, t, e).Done?
    ensures FinalizedGroupOf(t).Some? && e.event.target in t.withdrawals
    ensures var result := WithResponse(t.withdrawals[e.event.target], e.sender, e.event.response,
                                       FinalizedGroupOf(t).value);
            result.Some? && (QueuesRequest(env, me, t, e, r) <==>
                             r == e.event.target && result.value.1 == Approved && me == result.value.0.sender)
  {
    ResponseEffect(env, me, t, e);
    hide Handle;
    hide WithResponse;
    hide SignatureMap;
  }

  lemma ResponseQueues(env: Env, me: UserId, t: Tables, e: LogEvent, r: EventId)
    requires e.event.RespondToWithdrawal? && Handle(env, me, t, e).Done?
    ensures var t' := Handle(env, me, t, e).tables;
            && (IsApproved(me, t, r) ==> IsApproved(me, t', r))
            && (QueuesRequest(env, me, t, e, r) <==> !IsApproved(me, t, r) && IsApproved(me, t', r))
  {
    hide QueuesRequest;
    hide RowFor;
    ResponseEffect(env, me, t, e);
    ResponseQueuesTarget(env, me, t, e, r);
    hide Handle;
    var group, w := FinalizedGroupOf(t).value, t.withdrawals[e.event.target];
    ApprovalCrossesThreshold(w, e.sender, e.event.response, group);
    hide WithResponse;
  }

  /**
   * Main result: over any log that the device processes from the start, each request is queued at
   * most once, and it has been queued if and only if it is ours and has reached the threshold.
   */
  lemma {:induction false} QueuedOnceIffApproved(env: Env, me: UserId, log: seq<LogEvent>, r: EventId)
    requires Run(env, me, EMPTY, log).Some?
    ensures QueueCount(env, me, EMPTY, log, r)
         == if IsApproved(me, Run(env, me, EMPTY, log).value, r) then 1 else 0
  {
    hide Step;
    hide IsApproved;
    hide QueuesRequest;
    if log == [] {
      NothingApprovedAtStart(me, r);
    } else {
      var front, e := log[..|log| - 1], log[|log| - 1];
      QueuedOnceIffApproved(env, me, front, r);
      RunKeepsConsistent(env, me, EMPTY, {}, front);
      StepQueuesOnCrossing(env, me, Run(env, me, EMPTY, front).value, e, r);
    }
  }

  lemma NothingApprovedAtStart(me: UserId, r: EventId)
    ensures !IsApproved(me, EMPTY, r)
  {
  }

  /** What the row of a signed request holds. */
  lemma RowMeaning(env: Env, r: EventId, w: Withdrawal, group: FinalizedGroup)
    requires AccountHoldsMemberKeys(group) && RowFor(env, r, w, group).Some?
    ensures w.signatures.Keys <= group.pubkeys.Keys
    ensures var row := RowFor(env, r, w, group).value;
            && row.requestId == r && row.federationId == group.federationId && row.transfer.request == w.request
            && w.request.from.threshold <= |row.transfer.signatures| == |KeysOf(group, w.signatures.Keys)|
            && (forall i :: i in row.transfer.signatures ==>
                  && SignedAt(group, w.signatures, i, row.transfer.signatures[i])
                  && VerifiesAt(env, w.request, i, row.transfer.signatures[i]))
  {
    hide SignatureMap;
    hide SignedAt;
    hide DistinctKeys;
    hide VerifiesAt;
    hide KeysOf;
    SignatureMapDefinedIff(group, w.signatures);
    SignatureMapMeaning(group, w.signatures);
    OneEntryPerKey(group, w.signatures);
  }

  /**
   * What is queued: our request with its own terms, by an approval of a signer who had not voted, under
   * the group's federation. Each signature is an approver's, sits at the place of that approver's key, and
   * verifies there under the account drawn on, which has its threshold of them. For the group's own
   * account there are exactly threshold many, and no two approvers gave the same key.
   */
  lemma QueuedRowMeaning(env: Env, me: UserId, t: Tables, e: LogEvent)
    requires Consistent(env, t) && QueuedBy(env, me, t, e).Some?
    ensures e.event.RespondToWithdrawal? && e.event.response.Approve?
    ensures FinalizedGroupOf(t).Some? && e.event.target in t.withdrawals
    ensures var row, group := QueuedBy(env, me, t, e).value, FinalizedGroupOf(t).value;
            var w, approvals := t.withdrawals[e.event.target], ApprovalsAfter(t, e);
            && row.requestId == e.event.target && w.sender == me && CanVote(w, e.sender, group)
            && row.transfer.request == w.request && row.federationId == group.federationId
            && |approvals| == group.invitation.threshold && approvals.Keys <= group.pubkeys.Keys
            && w.request.from.threshold <= |row.transfer.signatures| == |KeysOf(group, approvals.Keys)|
            && (forall i :: i in row.transfer.signatures ==>
                  && SignedAt(group, approvals, i, row.transfer.signatures[i])
                  && VerifiesAt(env, w.request, i, row.transfer.signatures[i]))
            && (w.request.from == group.account ==>
                  |row.transfer.signatures| == group.invitation.threshold && DistinctKeys(group, approvals.Keys))
  {
    hide RowFor;
    hide Signed;
    hide SignedAt;
    hide DistinctKeys;
    hide VerifiesAt;
    hide KeysOf;
    if !e.event.RespondToWithdrawal? {
      OtherEventsQueueNothing(env, me, t, e);
      assert false;
    } else {
      ResponseEffect(env, me, t, e);
      hide Handle;
      var r, group, w := e.event.target, FinalizedGroupOf(t).value, t.withdrawals[e.event.target];
      ApprovalCrossesThreshold(w, e.sender, e.event.response, group);
      if !e.event.response.Approve? {
        OnlyApprovalsComplete(w, e.sender, e.event.response, group);
        assert false;
      } else {
        var approvals := ApprovalsAfter(t, e);
        var w' := w.(signatures := approvals);
        assert QueuedBy(env, me, t, e) == RowFor(env, r, w', group);
        ConsistentGroupHoldsKeys(env, t);
        RowMeaning(env, r, w', group);
        if w.request.from == group.account {
          RowDefinedIff(env, r, w', group);
          OwnSignedIff(env, group, w.request, approvals);
          DistinctKeysCount(group, approvals);
        }
      }
    }
  }

  lemma DistinctKeysCount(group: FinalizedGroup, signatures: map<UserId, Signature>)
    requires AccountHoldsMemberKeys(group) && signatures.Keys <= group.pubkeys.Keys
    ensures |KeysOf(group, signatures.Keys)| == |signatures| <==> DistinctKeys(group, signatures.Keys)
  {
    hide SignatureMap;
    hide SignedAt;
    SignatureMapMeaning(group, signatures);
    OneEntryPerKey(group, signatures);
  }
}
