/**
 * The event handler in the form the wallet runs it: records are loaded, changed in place and
 * written back to the tables of the room. Every method is proved against the functions of
 * `Multispend`, on which all later results rest.
 */
module RoomTablesModule {
  import opened Options
  import opened Ordered
  import opened Multispend

  /** An invitation record while a vote is applied to it. */
  class LoadedInvitation {
    var record: GroupInvitation

    constructor (stored: GroupInvitation)
      ensures record == stored
    {
      record := stored;
    }

    method ProcessVote(sender: UserId, vote: GroupVote) returns (ok: bool)
      modifies this
      ensures ok <==> WithVote(old(record), sender, vote).Some?
      ensures record == if ok then WithVote(old(record), sender, vote).value else old(record)
    {
      if sender !in record.invitation.signers || sender in record.pubkeys || sender in record.rejections {
        return false;
      }
      match vote {
        case Accept(key) => record := record.(pubkeys := record.pubkeys[sender := key]);
        case Decline => record := record.(rejections := record.rejections + {sender});
      }
      return true;
    }
  }

  /** A withdrawal record while a response is applied to it. */
  class LoadedWithdrawal {
    var record: Withdrawal

    constructor (stored: Withdrawal)
      ensures record == stored
    {
      record := stored;
    }

    method ProcessResponse(sender: UserId, response: WithdrawalResponse, group: FinalizedGroup)
      returns (outcome: Option<ResponseOutcome>)
      modifies this
      ensures outcome.Some? <==> WithResponse(old(record), sender, response, group).Some?
      ensures outcome.Some? ==>
                WithResponse(old(record), sender, response, group) == Some((record, outcome.value))
      ensures outcome.None? ==> record == old(record)
    {
      match response {
        case Approve(signature) =>
          if !CanVote(record, sender, group) { return None; }
          record := record.(signatures := record.signatures[sender := signature]);
          var count := |record.signatures|;
          if count < group.invitation.threshold {
            outcome := Some(NeedsMoreApproval);
          } else if count == group.invitation.threshold {
            outcome := Some(Approved);
          } else {
            outcome := Some(ExtraApproval);
          }
        case Reject =>
          if !CanVote(record, sender, group) { return None; }
          record := record.(rejections := record.rejections + {sender});
          outcome := Some(Rejection);
        case Complete(txid) =>
          if record.sender != sender || record.submission != Unknown { return None; }
          record := record.(submission := Accepted(txid));
          outcome := Some(Completed);
        case TxRejected(error) =>
          if record.sender != sender || record.submission != Unknown { return None; }
          record := record.(submission := TxRefused(error));
          outcome := Some(SubmissionRefused);
      }
    }
  }

  /** Flags that one scan raises for the services around it. */
  class Context {
    const ourId: UserId
    var checkPending: bool
    var refreshAccount: bool

    constructor (ourId: UserId)
      ensures this.ourId == ourId && !checkPending && !refreshAccount
    {
      this.ourId := ourId;
      checkPending, refreshAccount := false, false;
    }
  }

  /** What a listing reports for one stored withdrawal or deposit. */
  datatype ListedEvent = ListedEvent(counter: nat, time: nat, data: EventData, eventId: EventId)

  function CountersBelow(chrono: map<nat, ChronoEntry>, bound: Option<nat>): set<nat> {
    set c | c in chrono.Keys && (bound.None? || c < bound.value)
  }

  /** The counters a page shows: those below `startAfter`, largest first, at most `limit` of them. */
  function PageCounters(chrono: map<nat, ChronoEntry>, startAfter: Option<nat>, limit: nat): (page: seq<nat>)
    ensures forall i :: 0 <= i < |page| ==> page[i] in chrono
  {
    var newest := Descending(CountersBelow(chrono, startAfter));
    assert forall i :: 0 <= i < |newest| ==> newest[i] in newest;
    if |newest| <= limit then newest else newest[..limit]
  }

  /** The first `n` entries of a page whose event data is stored, in page order. */
  function PageOf(t: Tables, counters: seq<nat>, n: nat): seq<ListedEvent>
    requires n <= |counters| && forall i :: 0 <= i < |counters| ==> counters[i] in t.chrono
  {
    if n == 0 then [] else
      var entry := t.chrono[counters[n - 1]];
      match DataOf(t, entry.eventId)
      case Some(data) =>
        PageOf(t, counters, n - 1) + [ListedEvent(counters[n - 1], entry.time, data, entry.eventId)]
      case None => PageOf(t, counters, n - 1)
  }

  function Page(t: Tables, startAfter: Option<nat>, limit: nat): seq<ListedEvent> {
    var counters := PageCounters(t.chrono, startAfter, limit);
    PageOf(t, counters, |counters|)
  }

  class RoomTables {
    var status: Option<GroupStatus>
    var invitations: map<EventId, GroupInvitation>
    var withdrawals: map<EventId, Withdrawal>
    var deposits: map<EventId, Deposit>
    var chrono: map<nat, ChronoEntry>
    var invalid: set<EventId>
    var pending: set<PendingRow>

    constructor (stored: Tables)
      ensures View() == stored
    {
      status, invitations, withdrawals := stored.status, stored.invitations, stored.withdrawals;
      deposits, chrono := stored.deposits, stored.chrono;
      invalid, pending := stored.invalid, stored.pending;
    }

    function View(): Tables
      reads this
    {
      Tables(status, invitations, withdrawals, deposits, chrono, invalid, pending)
    }

    method InsertChronological(id: EventId, time: nat)
      modifies this`chrono
      ensures View() == WithChrono(old(View()), id, time)
    {
      var next := ChronoCount(chrono);
      chrono := chrono[next := ChronoEntry(id, time)];
    }

    /** Applies one event; the result is exactly that of `Handle`, and nothing changes on failure. */
    method ProcessRaw(env: Env, e: LogEvent, ctx: Context) returns (outcome: Outcome)
      modifies this, ctx
      ensures outcome == Handle(env, ctx.ourId, old(View()), e)
      ensures View() == if outcome.Done? then outcome.tables else old(View())
      ensures ctx.checkPending == (old(ctx.checkPending) || (outcome.Done? && outcome.wake))
      ensures ctx.refreshAccount == (old(ctx.refreshAccount) || (!outcome.Fault? && outcome.refresh))
    {
      match e.event {
        case InviteGroup(invitation, key) =>
          if status.Some? && status.value.Finalized? { return Invalid(false); }
          var federation := env.federationOf(invitation.inviteCode);
          if federation.None? { return Invalid(false); }
          if e.id in invitations { return Fault; }
          invitations := invitations[e.id := NewInvitation(invitation, e.sender, key, federation.value)];
          status := Some(ActiveInvitation(e.id));
          outcome := Done(View(), false, false);

        case Reannounce(id, invitation, proposer, pubkeys, rejections) =>
          if status.Some? || id in invitations { return Done(View(), false, false); }
          var federation := env.federationOf(invitation.inviteCode);
          if federation.None? { return Invalid(false); }
          var record := GroupInvitation(invitation, proposer, pubkeys, rejections, federation.value);
          invitations := invitations[id := record];
          var finalized := ToFinalized(record);
          if finalized.Some? {
            status := Some(Finalized(id, finalized.value));
          } else {
            status := Some(ActiveInvitation(id));
          }
          outcome := Done(View(), false, false);

        case VoteOnInvitation(id, vote) =>
          if status != Some(ActiveInvitation(id)) || id !in invitations { return Invalid(false); }
          var loaded := new LoadedInvitation(invitations[id]);
          var ok := loaded.ProcessVote(e.sender, vote);
          if !ok { return Invalid(false); }
          var finalized := ToFinalized(loaded.record);
          if finalized.Some? {
            status := Some(Finalized(id, finalized.value));
          }
          invitations := invitations[id := loaded.record];
          outcome := Done(View(), false, false);

        case CancelInvitation(id) =>
          if status != Some(ActiveInvitation(id)) { return Invalid(false); }
          status := None;
          outcome := Done(View(), false, false);

        case RequestWithdrawal(request, description) =>
          if FinalizedGroupOf(View()).None? { return Invalid(false); }
          if e.id in withdrawals { return Fault; }
          withdrawals := withdrawals[e.id := Withdrawal(request, description, map[], {}, Unknown, e.sender)];
          InsertChronological(e.id, e.time);
          outcome := Done(View(), false, false);

        case RespondToWithdrawal(r, response) =>
          outcome := ProcessWithdrawalResponse(env, e, r, response, ctx);

        case NotifyDeposit(fiatAmount, txid, description) =>
          if FinalizedGroupOf(View()).Some? && e.id in deposits { return Fault; }
          ctx.refreshAccount := true;
          if FinalizedGroupOf(View()).None? { return Invalid(true); }
          deposits := deposits[e.id := Deposit(e.sender, fiatAmount, txid, description)];
          InsertChronological(e.id, e.time);
          outcome := Done(View(), false, true);
      }
    }

    method ProcessWithdrawalResponse(env: Env, e: LogEvent, r: EventId, response: WithdrawalResponse, ctx: Context)
      returns (outcome: Outcome)
      requires e.event == RespondToWithdrawal(r, response)
      modifies this, ctx
      ensures outcome == HandleResponse(env, ctx.ourId, old(View()), e)
      ensures View() == if outcome.Done? then outcome.tables else old(View())
      ensures ctx.checkPending == (old(ctx.checkPending) || (outcome.Done? && outcome.wake))
      ensures ctx.refreshAccount == (old(ctx.refreshAccount) || (!outcome.Fault? && outcome.refresh))
    {
      hide RowFor;
      hide WithResponse;
      var finalized := FinalizedGroupOf(View());
      if finalized.None? || r !in withdrawals { return Invalid(false); }
      var group := finalized.value;
      var loaded := new LoadedWithdrawal(withdrawals[r]);
      var result := loaded.ProcessResponse(e.sender, response, group);
      if result.None? { return Invalid(false); }
      var w := loaded.record;
      var wake, refresh := false, false;
      if result.value == Approved && ctx.ourId == w.sender {
        var row := ApprovedRow(env, r, w, group);
        if row.None? { return Fault; }
        ctx.checkPending := true;
        wake := true;
        pending := pending + {row.value};
      } else if result.value == Completed {
        ctx.refreshAccount := true;
        refresh := true;
      }
      withdrawals := withdrawals[r := w];
      outcome := Done(View(), wake, refresh);
    }

    /** The signed request of an approved withdrawal; `None` where assembling or signing it would panic. */
    static method ApprovedRow(env: Env, r: EventId, w: Withdrawal, group: FinalizedGroup)
      returns (row: Option<PendingRow>)
      ensures row == RowFor(env, r, w, group)
    {
      var indexed := CollectSignatures(group, w.signatures);
      if indexed.None? { return None; }
      var transfer := SignTransfer(env, w.request, indexed.value);
      if transfer.None? { return None; }
      return Some(PendingRow(r, transfer.value, group.federationId));
    }

    /** Looks up every approver's key index; `None` where the handler's `expect` would fail. */
    static method CollectSignatures(group: FinalizedGroup, signatures: map<UserId, Signature>)
      returns (indexed: Option<map<nat, Signature>>)
      ensures indexed == SignatureMap(group, signatures)
    {
      hide KeyIndex;
      hide Ascending;
      hide FromPairs;
      var users := Ascending(signatures.Keys);
      var collected: map<nat, Signature> := map[];
      ghost var pairs: seq<(nat, Signature)> := [];
      FromPairsAppend(pairs, (0, 0));
      for i := 0 to |users|
        invariant |pairs| == i && collected == FromPairs(pairs)
        invariant forall k :: 0 <= k < i ==> KeyIndex(group, users[k]).Some?
        invariant forall k :: 0 <= k < i ==> pairs[k] == (KeyIndex(group, users[k]).value, signatures[users[k]])
      {
        var index := KeyIndex(group, users[i]);
        if index.None? {
          assert users[i] in signatures.Keys;
          return None;
        }
        var pair := (index.value, signatures[users[i]]);
        FromPairsAppend(pairs, pair);
        pairs := pairs + [pair];
        collected := collected[index.value := signatures[users[i]]];
      }
      assert AllIndexed(group, signatures.Keys);
      assert pairs == SignaturePairs(group, signatures, users);
      return Some(collected);
    }

    /** One event of the log: an invalid one is only recorded as such. */
    method Process(env: Env, e: LogEvent, ctx: Context) returns (fault: bool)
      modifies this, ctx
      ensures fault <==> Step(env, ctx.ourId, old(View()), e).None?
      ensures !fault ==> View() == Step(env, ctx.ourId, old(View()), e).value
      ensures !fault ==>
                var o := Handle(env, ctx.ourId, old(View()), e);
                && ctx.checkPending == (old(ctx.checkPending) || (o.Done? && o.wake))
                && ctx.refreshAccount == (old(ctx.refreshAccount) || o.refresh)
    {
      var outcome := ProcessRaw(env, e, ctx);
      if outcome.Fault? || (outcome.Invalid? && e.id in invalid) {
        return true;
      }
      if outcome.Invalid? {
        invalid := invalid + {e.id};
      }
      return false;
    }

    /** One page of the room's withdrawals and deposits, newest first. */
    method ListEvents(startAfter: Option<nat>, limit: nat) returns (page: seq<ListedEvent>)
      ensures page == Page(View(), startAfter, limit)
    {
      hide PageCounters;
      hide DataOf;
      var counters := PageCounters(chrono, startAfter, limit);
      page := [];
      for i := 0 to |counters|
        invariant page == PageOf(View(), counters, i)
      {
        var entry := chrono[counters[i]];
        var data := DataOf(View(), entry.eventId);
        if data.Some? {
          page := page + [ListedEvent(counters[i], entry.time, data.value, entry.eventId)];
        }
      }
    }
  }
}
