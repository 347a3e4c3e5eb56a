/**
 * Launch recovery of liquidity operations: after a start the driver reads the current operation and
 * resumes it, one step at a time, backing off while nothing changes.
 */
module LiquidityRecovery {
  import opened Options

  type OperationId = nat

  datatype ItemStatus = Pending | InProgress | Completed | ActionRequired | OtherStatus

  datatype Item = Item(status: ItemStatus, gateway: bool)

  datatype Phase = Prepared | Rejected | Accepted

  datatype Snapshot = Snapshot(
    id: OperationId, phase: Phase, items: seq<Item>, gatewayMinimum: nat, gatewayVerified: bool)

  const INITIAL_BACKOFF: nat := 1
  const MAX_BACKOFF: nat := 300

  /** `should_resume_liquidity_on_launch`. */
  predicate ShouldResume(s: Snapshot) {
    match s.phase
    case Prepared => true
    case Rejected => false
    case Accepted =>
      var needsOperator := exists i :: 0 <= i < |s.items| && s.items[i].status == ActionRequired;
      var providerIsLive :=
        s.items == []
        || exists i :: 0 <= i < |s.items| && (s.items[i].status == Pending || s.items[i].status == InProgress);
      var gatewayPending :=
        && s.gatewayMinimum > 0 && !s.gatewayVerified
        && exists i :: 0 <= i < |s.items| && s.items[i].gateway && s.items[i].status == Completed;
      (!needsOperator && providerIsLive) || gatewayPending
  }

  /** `next_retry_delay`, in seconds. */
  function NextRetryDelay(previous: nat, progress: bool): nat {
    if progress || previous == 0 then INITIAL_BACKOFF
    else if previous * 2 <= MAX_BACKOFF then previous * 2 else MAX_BACKOFF
  }

  datatype Step = ReadCurrent | Resume(id: OperationId)

  /** The state of `LiquidityLaunchRecovery` as a value. */
  datatype Recovery = Recovery(readCurrent: bool, pending: Option<OperationId>, last: Option<Snapshot>, delay: nat) {
    predicate HasWork() {
      readCurrent || pending.Some?
    }

    function NextDelay(): nat {
      if pending.Some? then 0 else delay
    }

    function NextStep(): Option<Step> {
      if pending.Some? then Some(Resume(pending.value)) else if readCurrent then Some(ReadCurrent) else None
    }
  }

  const NEW := Recovery(true, None, None, 0)
  const FINISHED := Recovery(false, None, None, 0)

  /** What the outside world answers to a step, or a liquidity command that rearms the recovery. */
  datatype Event =
    | ReadFound(report: Option<Snapshot>)
    | ReadFailed
    | ResumeFound(result: Snapshot)
    | ResumeFailed               // including a resume that could not claim the driver
    | Rearmed

  predicate Answers(e: Event, step: Option<Step>) {
    match e
    case Rearmed => true
    case ReadFound(_) => step == Some(ReadCurrent)
    case ReadFailed => step == Some(ReadCurrent)
    case _ => step.Some? && step.value.Resume?
  }

  /** The state after one reconciliation step with the answer it got. */
  function After(r: Recovery, e: Event): Recovery {
    match e
    case Rearmed => NEW
    case ReadFound(report) =>
      if report.None? || !ShouldResume(report.value) then FINISHED
      else
        var reset := r.last.Some? && r.last.value != report.value;
        Recovery(false, Some(report.value.id), report, if reset then 0 else r.delay)
    case ResumeFound(result) =>
      if !ShouldResume(result) then FINISHED
      else Recovery(true, None, Some(result), NextRetryDelay(r.delay, r.last.Some? && r.last.value != result))
    case _ => Recovery(true, None, r.last, NextRetryDelay(r.delay, false))
  }

  class LiquidityLaunchRecovery {
    var readCurrent: bool
    var pending: Option<OperationId>
    var lastSnapshot: Option<Snapshot>
    var retryDelay: nat

    ghost function View(): Recovery
      reads this
    {
      Recovery(readCurrent, pending, lastSnapshot, retryDelay)
    }

    constructor ()
      ensures View() == NEW
    {
      readCurrent := true;
      pending := None;
      lastSnapshot := None;
      retryDelay := 0;
    }

    method TakeStep() returns (step: Option<Step>)
      modifies this
      ensures step == old(View()).NextStep()
      ensures View() == if step.None? then old(View())
                        else if step.value.Resume? then old(View()).(pending := None)
                        else old(View()).(readCurrent := false)
    {
      if pending.Some? {
        step := Some(Resume(pending.value));
        pending := None;
        return;
      }
      if readCurrent {
        readCurrent := false;
        return Some(ReadCurrent);
      }
      step := None;
    }

    method Finish()
      modifies this
      ensures View() == FINISHED
    {
      readCurrent := false;
      pending := None;
      lastSnapshot := None;
      retryDelay := 0;
    }

    method RecordCurrent(report: Option<Snapshot>)
      modifies this
      ensures View() == if NothingToResume(ReadFound(report)) then FINISHED
                        else After(old(View()), ReadFound(report)).(readCurrent := old(readCurrent))
    {
      if report.None? || !ShouldResume(report.value) {
        Finish();
        return;
      }
      if lastSnapshot.Some? && lastSnapshot.value != report.value {
        retryDelay := 0;
      }
      pending := Some(report.value.id);
      lastSnapshot := report;
    }

    method RecordFailure()
      modifies this
      ensures View() == After(old(View()), ReadFailed)
      ensures View() == After(old(View()), ResumeFailed)
    {
      pending := None;
      readCurrent := true;
      retryDelay := NextRetryDelay(retryDelay, false);
    }

    method RecordResumeSuccess(result: Snapshot)
      modifies this
      ensures View() == After(old(View()), ResumeFound(result))
    {
      if !ShouldResume(result) {
        Finish();
        return;
      }
      var progress := lastSnapshot.Some? && lastSnapshot.value != result;
      lastSnapshot := Some(result);
      pending := None;
      readCurrent := true;
      retryDelay := NextRetryDelay(retryDelay, progress);
    }

    method RearmAfterMutation()
      modifies this
      ensures View() == After(old(View()), Rearmed)
    {
      readCurrent := true;
      pending := None;
      lastSnapshot := None;
      retryDelay := 0;
    }

    /**
     * `reconcile_one_liquidity_step`: `current` and `resumed` are what the client would answer
     * (`None` for an error), `free` whether the driver's claim can be taken. `asked` is the
     * operation a resume was sent for.
     */
    method ReconcileOneStep(current: Option<Option<Snapshot>>, free: bool, resumed: Option<Snapshot>)
      returns (asked: Option<OperationId>)
      modifies this
      ensures asked == if free then old(View()).pending else None
      ensures old(View()).NextStep().None? ==> View() == old(View())
      ensures old(View()).NextStep().Some? ==>
                View() == After(old(View()), Answer(old(View()).NextStep().value, current, free, resumed))
    {
      asked := None;
      var step := TakeStep();
      match step {
        case None =>
        case Some(ReadCurrent) =>
          if current.Some? {
            RecordCurrent(current.value);
          } else {
            RecordFailure();
          }
        case Some(Resume(id)) =>
          if !free {
            RecordFailure();
            return;
          }
          asked := Some(id);
          if resumed.Some? {
            RecordResumeSuccess(resumed.value);
          } else {
            RecordFailure();
          }
      }
    }
  }

  /** The event a step turns into. */
  function Answer(step: Step, current: Option<Option<Snapshot>>, free: bool, resumed: Option<Snapshot>): (e: Event)
    ensures Answers(e, Some(step))
  {
    match step
    case ReadCurrent => if current.Some? then ReadFound(current.value) else ReadFailed
    case Resume(_) => if free && resumed.Some? then ResumeFound(resumed.value) else ResumeFailed
  }

  // ---------------------------------------------------------------- histories

  /** The state after a history, oldest event first; `None` when an event answers no step. */
  function StateAfter(history: seq<Event>): Option<Recovery> {
    if history == [] then Some(NEW)
    else
      var front, e := history[..|history| - 1], history[|history| - 1];
      match StateAfter(front)
      case None => None
      case Some(r) => if Answers(e, r.NextStep()) then Some(After(r, e)) else None
  }

  /** The newest resumable report since the recovery last started over. */
  function LastReport(history: seq<Event>): Option<Snapshot> {
    if history == [] then None
    else
      match history[|history| - 1]
      case Rearmed => None
      case ReadFound(report) => if report.Some? && ShouldResume(report.value) then report else None
      case ResumeFound(result) => if ShouldResume(result) then Some(result) else None
      case _ => LastReport(history[..|history| - 1])
  }

  /** How many steps in a row brought no progress. */
  function Stalls(history: seq<Event>): nat {
    if history == [] then 0
    else
      var front := history[..|history| - 1];
      var changed := LastReport(front).Some? && LastReport(history) != LastReport(front);
      match history[|history| - 1]
      case Rearmed => 0
      case ReadFound(_) => if LastReport(history).None? || changed then 0 else Stalls(front)
      case ResumeFound(_) => if LastReport(history).None? then 0 else if changed then 1 else Stalls(front) + 1
      case _ => Stalls(front) + 1
  }

  function Power(k: nat): nat {
    if k == 0 then 1 else 2 * Power(k - 1)
  }

  /** The documented backoff: 1 s, 2 s, 4 s, and so on, up to five minutes. */
  function DelayAfter(k: nat): nat {
    if k == 0 then 0 else if Power(k - 1) <= 300 then Power(k - 1) else 300
  }

  lemma DelayGrows(k: nat)
    ensures NextRetryDelay(DelayAfter(k), false) == DelayAfter(k + 1)
    ensures NextRetryDelay(DelayAfter(k), true) == DelayAfter(1)
  {
    if k > 0 {
      PowerPositive(k - 1);
      if Power(k - 1) > MAX_BACKOFF {
        assert Power(k) == 2 * Power(k - 1);
      }
    }
  }

  lemma {:induction false} PowerPositive(k: nat)
    ensures Power(k) >= 1
  {
    if k > 0 { PowerPositive(k - 1); }
  }

  /** Whether the newest event ended the recovery's work for now. */
  predicate NothingToResume(e: Event) {
    match e
    case ReadFound(report) => report.None? || !ShouldResume(report.value)
    case ResumeFound(result) => !ShouldResume(result)
    case _ => false
  }

  /**
   * After any history: never both a read and a resume are due; a resume is due only for the
   * operation the newest event, a read, reported as resumable; the recovery is quiet exactly when
   * the newest event had nothing to resume; and the next step waits for the documented backoff.
   */
  lemma {:induction false} RecoveryFollowsEvidence(history: seq<Event>)
    requires StateAfter(history).Some?
    ensures var r := StateAfter(history).value;
      && !(r.readCurrent && r.pending.Some?)
      && (r.pending.Some? ==>
            && history != [] && history[|history| - 1].ReadFound?
            && var report := history[|history| - 1].report;
               report.Some? && ShouldResume(report.value) && report.value.id == r.pending.value)
      && (!r.HasWork() <==> history != [] && NothingToResume(history[|history| - 1]))
      && r.last == LastReport(history)
      && r.delay == DelayAfter(Stalls(history))
      && r.NextDelay() == if r.pending.Some? then 0 else DelayAfter(Stalls(history))
  {
    hide ShouldResume;
    hide DelayAfter;
    hide NextRetryDelay;
    if history == [] {
      assert DelayAfter(0) == 0 by { DelayStart(); }
    } else {
      var front := history[..|history| - 1];
      RecoveryFollowsEvidence(front);
      DelayStart();
      DelayGrows(Stalls(front));
    }
  }

  lemma DelayStart()
    ensures DelayAfter(0) == 0 && DelayAfter(1) == INITIAL_BACKOFF
  {
    assert Power(0) == 1;
  }

  // ---------------------------------------------------------------- which reports are resumed

  ghost predicate HasItem(s: Snapshot, status: ItemStatus) {
    exists i :: 0 <= i < |s.items| && s.items[i].status == status
  }

  /** A provider still works on the operation, or has not begun. */
  ghost predicate Live(s: Snapshot) {
    s.items == [] || HasItem(s, Pending) || HasItem(s, InProgress)
  }

  /** The gateway's part is done, and asked for, and not verified yet. */
  ghost predicate GatewayWaits(s: Snapshot) {
    && s.gatewayMinimum > 0 && !s.gatewayVerified
    && exists i :: 0 <= i < |s.items| && s.items[i] == Item(Completed, true)
  }

  /** A read that finds it makes exactly this operation the next step; a resume that returns it is read again. */
  predicate Continues(r: Recovery, s: Snapshot) {
    var found, resumed := After(r, ReadFound(Some(s))), After(r, ResumeFound(s));
    && found.NextStep() == Some(Resume(s.id)) && found.last == Some(s)
    && resumed.NextStep() == Some(ReadCurrent) && resumed.last == Some(s)
  }

  predicate Ends(r: Recovery, s: Snapshot) {
    After(r, ReadFound(Some(s))) == FINISHED == After(r, ResumeFound(s))
  }

  /**
   * What a report leads to, from any state of the recovery. A prepared operation is always carried on, a
   * rejected one never. An accepted one is carried on while providers are live and nobody waits for the
   * operator; with an item that needs the operator, or with every item settled, exactly while a completed
   * gateway item waits for its verification.
   */
  lemma ReportDecides(r: Recovery, s: Snapshot)
    ensures Continues(r, s) || Ends(r, s)
    ensures s.phase.Prepared? ==> Continues(r, s)
    ensures s.phase.Rejected? ==> Ends(r, s)
    ensures s.phase.Accepted? && !HasItem(s, ActionRequired) && Live(s) ==> Continues(r, s)
    ensures s.phase.Accepted? && (HasItem(s, ActionRequired) || !Live(s)) ==> (Continues(r, s) <==> GatewayWaits(s))
    ensures After(r, ReadFound(None)) == FINISHED && !FINISHED.HasWork()
  {
    if GatewayWaits(s) {
      var i :| 0 <= i < |s.items| && s.items[i] == Item(Completed, true);
      assert s.items[i].gateway && s.items[i].status == Completed;
    }
  }

  /** An operation left prepared at a launch is read and then resumed, by its own id. */
  lemma PreparedIsResumed(s: Snapshot)
    requires s.phase.Prepared?
    ensures NEW.NextStep() == Some(ReadCurrent) && NEW.NextDelay() == 0
    ensures StateAfter([ReadFound(Some(s))]).Some?
    ensures var r := StateAfter([ReadFound(Some(s))]).value; r.NextStep() == Some(Resume(s.id)) && r.NextDelay() == 0
  {
    ReportDecides(NEW, s);
    assert [ReadFound(Some(s))][..0] == [];
    assert StateAfter([]) == Some(NEW);
  }
}
