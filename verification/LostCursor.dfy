/**
 * A cursor event the server no longer has makes a scan apply the whole room again. What that does to
 * tables that have already folded it.
 */
module LostCursor {
  import opened Options
  import opened Multispend
  import opened GroupInvariants
  import opened Timeline
  import opened Scanner

  // ---------------------------------------------------------------- what tables can only gain

  /** What tables know. A step may add to it and never takes from it. */
  datatype Fact =
    | Invited(id: EventId)
    | Joined(id: EventId, user: UserId)
    | Declined(id: EventId, user: UserId)
    | Requested(id: EventId)
    | Signed(id: EventId, user: UserId)
    | Refused(id: EventId, user: UserId)
    | Submitted(id: EventId)
    | Deposited(id: EventId)
    | Marked(id: EventId)

  predicate Knows(t: Tables, f: Fact) {
    match f
    case Invited(id) => id in t.invitations
    case Joined(id, user) => id in t.invitations && user in t.invitations[id].pubkeys
    case Declined(id, user) => id in t.invitations && user in t.invitations[id].rejections
    case Requested(id) => id in t.withdrawals
    case Signed(id, user) => id in t.withdrawals && user in t.withdrawals[id].signatures
    case Refused(id, user) => id in t.withdrawals && user in t.withdrawals[id].rejections
    case Submitted(id) => id in t.withdrawals && t.withdrawals[id].submission != Unknown
    case Deposited(id) => id in t.deposits
    case Marked(id) => id in t.invalid
  }

  ghost predicate KnowsAll(t: Tables, u: Tables) {
    forall f :: Knows(t, f) ==> Knows(u, f)
  }

  /** `u` has moved on from `t`, and no later event can take it back. */
  ghost predicate MovedOn(t: Tables, u: Tables) {
    (exists f :: Knows(u, f) && !Knows(t, f)) || (t.status.Some? && u.status.None?)
  }

  /** A reannouncement of an invitation the device has, or to a device that has some group. */
  predicate Ignored(t: Tables, e: LogEvent) {
    e.event.Reannounce? && (t.status.Some? || e.event.invitationId in t.invitations)
  }

  lemma VoteKeepsVotes(record: GroupInvitation, sender: UserId, vote: GroupVote)
    requires WithVote(record, sender, vote).Some?
    ensures var after := WithVote(record, sender, vote).value;
      record.pubkeys.Keys <= after.pubkeys.Keys && record.rejections <= after.rejections
  {
  }

  lemma ResponseKeepsVotes(w: Withdrawal, sender: UserId, response: WithdrawalResponse, group: FinalizedGroup)
    requires WithResponse(w, sender, response, group).Some?
    ensures var after := WithResponse(w, sender, response, group).value.0;
      && w.signatures.Keys <= after.signatures.Keys && w.rejections <= after.rejections
      && (w.submission != Unknown ==> after.submission != Unknown)
  {
  }

  lemma GroupStepKnowsMore(env: Env, me: UserId, t: Tables, e: LogEvent)
    requires e.event.InviteGroup? || e.event.Reannounce? || e.event.VoteOnInvitation? || e.event.CancelInvitation?
    requires Step(env, me, t, e).Some?
    ensures KnowsAll(t, Step(env, me, t, e).value)
  {
    hide ToFinalized;
    hide WithVote;
    if e.event.VoteOnInvitation? {
      var id := e.event.target;
      if id in t.invitations && WithVote(t.invitations[id], e.sender, e.event.vote).Some? {
        VoteKeepsVotes(t.invitations[id], e.sender, e.event.vote);
      }
    }
  }

  lemma MoneyStepKnowsMore(env: Env, me: UserId, t: Tables, e: LogEvent)
    requires e.event.RequestWithdrawal? || e.event.RespondToWithdrawal? || e.event.NotifyDeposit?
    requires Step(env, me, t, e).Some?
    ensures KnowsAll(t, Step(env, me, t, e).value)
  {
    hide RowFor;
    hide ChronoCount;
    hide WithResponse;
    if e.event.RespondToWithdrawal? && FinalizedGroupOf(t).Some? && e.event.target in t.withdrawals {
      var w, group := t.withdrawals[e.event.target], FinalizedGroupOf(t).value;
      if WithResponse(w, e.sender, e.event.response, group).Some? {
        ResponseKeepsVotes(w, e.sender, e.event.response, group);
      }
    }
  }

  lemma StepKnowsMore(env: Env, me: UserId, t: Tables, e: LogEvent)
    requires Step(env, me, t, e).Some?
    ensures KnowsAll(t, Step(env, me, t, e).value)
  {
    hide Step;
    hide KnowsAll;
    match e.event {
      case RequestWithdrawal(_, _) => MoneyStepKnowsMore(env, me, t, e);
      case RespondToWithdrawal(_, _) => MoneyStepKnowsMore(env, me, t, e);
      case NotifyDeposit(_, _, _) => MoneyStepKnowsMore(env, me, t, e);
      case _ => GroupStepKnowsMore(env, me, t, e);
    }
  }

  /** What an event teaches the tables when it is not ignored; a cancellation teaches nothing. */
  function Lesson(t: Tables, t': Tables, e: LogEvent): Fact {
    if t'.invalid != t.invalid then Marked(e.id)
    else
      match e.event
      case InviteGroup(_, _) => Invited(e.id)
      case Reannounce(id, _, _, _, _) => Invited(id)
      case VoteOnInvitation(id, vote) => if vote.Accept? then Joined(id, e.sender) else Declined(id, e.sender)
      case CancelInvitation(id) => Invited(id)
      case RequestWithdrawal(_, _) => Requested(e.id)
      case RespondToWithdrawal(id, response) =>
        if response.Approve? then Signed(id, e.sender)
        else if response.Reject? then Refused(id, e.sender)
        else Submitted(id)
      case NotifyDeposit(_, _, _) => Deposited(e.id)
  }

  lemma StepLearns(env: Env, me: UserId, t: Tables, e: LogEvent)
    requires Step(env, me, t, e).Some? && !Ignored(t, e)
    ensures var t' := Step(env, me, t, e).value;
      if e.event.CancelInvitation? && t'.invalid == t.invalid then t.status.Some? && t'.status.None?
      else Knows(t', Lesson(t, t', e)) && !Knows(t, Lesson(t, t', e))
  {
    hide RowFor;
    hide ChronoCount;
    hide ToFinalized;
  }

  lemma IgnoredChangesNothing(env: Env, me: UserId, t: Tables, e: LogEvent)
    requires Ignored(t, e)
    ensures Step(env, me, t, e) == Some(t)
  {
  }

  lemma StatusNeedsLesson(env: Env, me: UserId, t: Tables, e: LogEvent)
    requires Step(env, me, t, e).Some? && t.status.None? && Step(env, me, t, e).value.status.Some?
    ensures !Ignored(t, e) && !e.event.CancelInvitation?
  {
    hide RowFor;
    hide ChronoCount;
    hide ToFinalized;
  }

  /** An event leaves the tables as they are if and only if it is an ignored reannouncement. */
  lemma StepIsHarmlessIff(env: Env, me: UserId, t: Tables, e: LogEvent)
    ensures Step(env, me, t, e) == Some(t) <==> Ignored(t, e)
  {
    hide Step;
    hide Knows;
    if Ignored(t, e) {
      IgnoredChangesNothing(env, me, t, e);
    } else if Step(env, me, t, e).Some? {
      StepLearns(env, me, t, e);
    }
  }

  lemma StaysMovedOn(env: Env, me: UserId, t: Tables, u: Tables, e: LogEvent)
    requires Step(env, me, u, e).Some? && KnowsAll(t, u) && (MovedOn(t, u) || (t == u && !Ignored(u, e)))
    ensures KnowsAll(t, Step(env, me, u, e).value) && MovedOn(t, Step(env, me, u, e).value)
  {
    hide Step;
    hide Knows;
    hide Lesson;
    var v := Step(env, me, u, e).value;
    StepKnowsMore(env, me, u, e);
    if t.status.Some? && u.status.None? && v.status.Some? {
      StatusNeedsLesson(env, me, u, e);
    }
    if !Ignored(u, e) {
      StepLearns(env, me, u, e);
    }
  }

  lemma {:induction false} RunMovesOn(env: Env, me: UserId, t: Tables, log: seq<LogEvent>)
    requires Run(env, me, t, log).Some?
    ensures KnowsAll(t, Run(env, me, t, log).value)
    ensures if forall i :: 0 <= i < |log| ==> Ignored(t, log[i]) then Run(env, me, t, log).value == t
            else MovedOn(t, Run(env, me, t, log).value)
  {
    hide Step;
    hide Knows;
    hide MovedOn;
    if log != [] {
      var front, e := log[..|log| - 1], log[|log| - 1];
      RunMovesOn(env, me, t, front);
      var u := Run(env, me, t, front).value;
      StepKnowsMore(env, me, u, e);
      if forall i :: 0 <= i < |front| ==> Ignored(t, front[i]) {
        if Ignored(t, e) {
          IgnoredChangesNothing(env, me, t, e);
        } else {
          StaysMovedOn(env, me, t, u, e);
          assert !Ignored(t, log[|log| - 1]);
        }
      } else {
        var i :| 0 <= i < |front| && !Ignored(t, front[i]);
        assert log[i] == front[i];
        StaysMovedOn(env, me, t, u, e);
      }
    }
  }

  lemma {:induction false} IgnoredRun(env: Env, me: UserId, t: Tables, log: seq<LogEvent>)
    requires forall i :: 0 <= i < |log| ==> Ignored(t, log[i])
    ensures Run(env, me, t, log) == Some(t)
  {
    hide Step;
    if log != [] {
      IgnoredRun(env, me, t, log[..|log| - 1]);
      IgnoredChangesNothing(env, me, t, log[|log| - 1]);
    }
  }

  /**
   * Applying events to tables leaves them as they are if and only if every event is an ignored
   * reannouncement: what one event changes, no later one changes back.
   */
  lemma RunIsHarmlessIff(env: Env, me: UserId, t: Tables, log: seq<LogEvent>)
    ensures Run(env, me, t, log) == Some(t) <==> forall i :: 0 <= i < |log| ==> Ignored(t, log[i])
  {
    hide Step;
    hide Run;
    hide Ignored;
    if forall i :: 0 <= i < |log| ==> Ignored(t, log[i]) {
      IgnoredRun(env, me, t, log);
    } else if Run(env, me, t, log) == Some(t) {
      RunMovesOn(env, me, t, log);
    }
  }

  // ---------------------------------------------------------------- stored requests and deposits

  /** The tables hold the request or the deposit that the event makes. */
  predicate Holds(t: Tables, e: LogEvent) {
    (e.event.RequestWithdrawal? && e.id in t.withdrawals) || (e.event.NotifyDeposit? && e.id in t.deposits)
  }

  lemma StepStoresNew(env: Env, me: UserId, t: Tables, e: LogEvent)
    requires Step(env, me, t, e).Some?
    ensures var t' := Step(env, me, t, e).value;
      && (forall id :: id in t'.withdrawals ==> id in t.withdrawals || (e.id == id && e.event.RequestWithdrawal?))
      && (forall id :: id in t'.deposits ==> id in t.deposits || (e.id == id && e.event.NotifyDeposit?))
  {
    hide RowFor;
    hide ChronoCount;
    hide ToFinalized;
    hide WithVote;
    hide WithResponse;
  }

  lemma {:induction false} StoredByEvent(env: Env, me: UserId, log: seq<LogEvent>) returns (i: nat)
    requires Run(env, me, EMPTY, log).Some?
    requires var t := Run(env, me, EMPTY, log).value; t.withdrawals != map[] || t.deposits != map[]
    ensures i < |log| && Holds(Run(env, me, EMPTY, log).value, log[i])
  {
    hide Step;
    i := 0;
    assert log != [];
    var front, e := log[..|log| - 1], log[|log| - 1];
    var before, after := Run(env, me, EMPTY, front).value, Run(env, me, EMPTY, log).value;
    StepStoresNew(env, me, before, e);
    StepKnowsMore(env, me, before, e);
    if before.withdrawals != map[] || before.deposits != map[] {
      i := StoredByEvent(env, me, front);
      assert log[i] == front[i];
      assert Knows(before, Requested(log[i].id)) ==> Knows(after, Requested(log[i].id));
      assert Knows(before, Deposited(log[i].id)) ==> Knows(after, Deposited(log[i].id));
    } else {
      i := |log| - 1;
      if after.withdrawals != map[] {
        var id :| id in after.withdrawals;
      } else {
        var id :| id in after.deposits;
      }
    }
  }

  /** A request or a deposit already stored under a finalized group makes the handler panic. */
  lemma HeldEventFaults(env: Env, me: UserId, t: Tables, e: LogEvent)
    requires FinalizedGroupOf(t).Some? && Holds(t, e)
    ensures Step(env, me, t, e).None?
  {
  }

  lemma HeldEventFaultsRun(env: Env, me: UserId, t: Tables, log: seq<LogEvent>, i: nat)
    requires FinalizedGroupOf(t).Some? && i < |log| && Holds(t, log[i])
    ensures Run(env, me, t, log).None?
  {
    hide Run;
    hide Step;
    RunStep(env, me, t, log, i);
    if Run(env, me, t, log[..i]).Some? {
      var u := Run(env, me, t, log[..i]).value;
      FinalizedIsPermanent(env, me, t, log[..i]);
      RunMovesOn(env, me, t, log[..i]);
      assert Knows(t, Requested(log[i].id)) ==> Knows(u, Requested(log[i].id));
      assert Knows(t, Deposited(log[i].id)) ==> Knows(u, Deposited(log[i].id));
      HeldEventFaults(env, me, u, log[i]);
    }
    FaultStays(env, me, t, log, i + 1);
  }

  // ---------------------------------------------------------------- scans

  ghost predicate CursorIsLost(s: Stored, a: Attempt) {
    !a.fails && s.cursor.Some? && forall i :: 0 <= i < |a.timeline| ==> IdOf(a.timeline[i]) != s.cursor
  }

  lemma LostCursorFetchesAll(s: Stored, a: Attempt)
    requires CursorIsLost(s, a)
    ensures Fetched(a, s.cursor) == a.timeline
  {
    assert Find(a.timeline, s.cursor.value).None?;
  }

  /**
   * The scan after a lost cursor applies every message of the room again. It leaves the tables as they
   * are if and only if all of them are reannouncements the tables ignore.
   */
  lemma LostCursorRepeats(env: Env, me: UserId, s: Stored, a: Attempt)
    requires CursorIsLost(s, a) && s.tables.Some?
    ensures var log := Messages(a.timeline);
      var after := ScanOnce(env, me, s, a);
      && after.applied == s.applied + log && after.tables == Run(env, me, s.tables.value, log)
      && (after.tables == s.tables <==> forall i :: 0 <= i < |log| ==> Ignored(s.tables.value, log[i]))
  {
    hide Run;
    LostCursorFetchesAll(s, a);
    RunIsHarmlessIff(env, me, s.tables.value, Messages(a.timeline));
  }

  /**
   * Once a request or a deposit is stored, a repeat of the whole history panics, and the panic recurs on
   * every scan that reads it.
   */
  lemma LostCursorFaults(env: Env, me: UserId, s: Stored, a: Attempt)
    requires CursorIsLost(s, a) && s.tables.Some? && s.tables == Run(env, me, EMPTY, s.applied)
    requires forall i :: 0 <= i < |s.applied| ==> s.applied[i] in Messages(a.timeline)
    requires s.tables.value.withdrawals != map[] || s.tables.value.deposits != map[]
    ensures ScanOnce(env, me, s, a).tables.None?
  {
    hide Run;
    var t, log := s.tables.value, Messages(a.timeline);
    LostCursorFetchesAll(s, a);
    RunKeepsConsistent(env, me, EMPTY, {}, s.applied);
    var i := StoredByEvent(env, me, s.applied);
    assert s.applied[i] in log;
    var k :| 0 <= k < |log| && log[k] == s.applied[i];
    HeldEventFaultsRun(env, me, t, log, k);
  }

  /**
   * When the messages read again are all ignored ones, the scan ends where it would have with its cursor:
   * only the new messages count.
   */
  lemma HarmlessRepeatFoldsAlike(env: Env, me: UserId, s: Stored, a: Attempt, newer: seq<LogEvent>)
    requires CursorIsLost(s, a) && s.tables.Some? && Messages(a.timeline) == s.applied + newer
    requires forall i :: 0 <= i < |s.applied| ==> Ignored(s.tables.value, s.applied[i])
    ensures ScanOnce(env, me, s, a).tables == Run(env, me, s.tables.value, newer)
  {
    hide Run;
    LostCursorFetchesAll(s, a);
    RunIsHarmlessIff(env, me, s.tables.value, s.applied);
    RunConcat(env, me, s.tables.value, s.applied, newer);
  }
}
