/**
 * What each of the Federation Initiator's operations comes to when nothing interrupts it: the preview is
 * stored, the payment starts a formation with its hook, a payment to be tried again keeps what it needs, and
 * an abandoned formation leaves nothing.
 */
module FiRuns {
  import opened Options
  import opened FiDriver

  lemma {:induction false} RunConcat(w: World, a: seq<Action>, b: seq<Action>)
    requires Run(w, a).Some?
    ensures Run(w, a + b) == Run(Run(w, a).value, b)
    decreases |a|
  {
    hide Apply;
    if a == [] {
      assert a + b == b;
    } else {
      assert (a + b)[0] == a[0] && (a + b)[1..] == a[1..] + b;
      RunConcat(Apply(w, a[0]).value, a[1..], b);
    }
  }

  lemma RunOne(w: World, a: Action, w1: World)
    requires Apply(w, a) == Some(w1)
    ensures Run(w, [a]) == Some(w1)
  {
    hide Apply;
    assert Run(w1, []) == Some(w1) && [a][1..] == [];
  }

  lemma RunTwo(w: World, a: Action, w1: World, b: Action, w2: World)
    requires Apply(w, a) == Some(w1) && Apply(w1, b) == Some(w2)
    ensures Run(w, [a, b]) == Some(w2)
  {
    hide Apply;
    RunOne(w1, b, w2);
    assert [a, b][1..] == [b];
  }

  lemma RunThree(w: World, a: Action, w1: World, b: Action, w2: World, c: Action, w3: World)
    requires Apply(w, a) == Some(w1) && Apply(w1, b) == Some(w2) && Apply(w2, c) == Some(w3)
    ensures Run(w, [a, b, c]) == Some(w3)
  {
    hide Apply;
    RunTwo(w1, b, w2, c, w3);
    assert [a, b, c][1..] == [b, c];
  }

  // ---------------------------------------------------------------- between operations

  /** Nobody holds the flag, and the driver waits for a command. */
  ghost predicate AtRest(w: World) {
    !w.active && w.driver.Resting? && w.queue == [] && w.push.lock.None?
  }

  /** While the flag is clear, nothing is queued or run, and nobody holds the push lock. */
  lemma UnclaimedIsAtRest(client: Client, acts: seq<Action>)
    requires Run(Launch(client), acts).Some?
    ensures var w := Run(Launch(client), acts).value; !w.active && !w.driver.Dead? ==> AtRest(w)
  {
    LaunchInv(client);
    var at := RunKeepsInv(Launch(client), None, acts);
    var w := Run(Launch(client), acts).value;
    assert Holds(w, InQueue) <==> at == Some(InQueue);
    assert Holds(w, AtDriver) <==> at == Some(AtDriver);
    if w.push.lock.Some? {
      assert Holds(w, AtCaller(w.push.lock.value)) <==> at == Some(AtCaller(w.push.lock.value));
    }
  }

  /** A caller that finds the flag set is turned away, and nothing else changes. */
  lemma BusyIsTurnedAway(w: World, act: Action)
    requires Claims(act) && act.a !in w.callers
    ensures Apply(w, act).Some?
    ensures w.active ==> Apply(w, act).value == Put(w, act.a, Gone)
    ensures !w.active ==> Apply(w, act).value.active && Holds(Apply(w, act).value, AtCaller(act.a))
  {
  }

  // ---------------------------------------------------------------- a preview

  function PreviewSteps(a: CallerId, estimate: nat, reached: bool): seq<Action> {
    [ClaimPreview(a), StoreSelection(a, estimate)] + [ReadStatus(a), InstallPreview(a), Discard(a, reached)]
  }

  /** The hook of the preview that was replaced, which no formation was given, if it could be revoked. */
  function Replaced(w: World, reached: bool): set<Hook> {
    if w.client.started || w.push.Hook().None? || !reached then {} else {w.push.Hook().value}
  }

  lemma PreviewIsSelected(w: World, a: CallerId, estimate: nat) returns (w': World)
    requires AtRest(w) && a !in w.callers
    ensures Run(w, [ClaimPreview(a), StoreSelection(a, estimate)]) == Some(w')
    ensures w' == w.(active := true, callers := w.callers[a := PreviewStored(w.book.previews)], book := w'.book)
    ensures w'.book == w.book.(selection := Some(Selection(w.book.previews, estimate, None)),
                               previews := w.book.previews + 1)
  {
    hide Run;
    var w1 := Put(w.(active := true), a, PreviewClaimed);
    w' := Put(w1.(book := Select(w.book, estimate)), a, PreviewStored(w.book.previews));
    RunTwo(w, ClaimPreview(a), w1, StoreSelection(a, estimate), w');
    assert w'.callers == w.callers[a := PreviewStored(w.book.previews)];
  }

  lemma PreviewIsInstalled(w: World, a: CallerId, p: PreviewId, reached: bool) returns (w': World)
    requires w.active && w.push.lock.None? && a in w.callers && w.callers[a] == PreviewStored(p)
    ensures Run(w, [ReadStatus(a), InstallPreview(a), Discard(a, reached)]) == Some(w')
    ensures w' == w.(active := false, callers := w.callers[a := Gone], push := w'.push)
    ensures w'.push == w.push.(stored := Some(StoredPush(p, None)), revoked := w.push.revoked + Replaced(w, reached))
  {
    hide Run;
    var w1 := Put(w, a, PreviewInstalling(p, w.client.started));
    var w2 := Put(w1.(push := Install(w.push, p)), a, Discarding(w.push.Hook(), w.client.started, true, None));
    w' := Apply(w2, Discard(a, reached)).value;
    RunThree(w, ReadStatus(a), w1, InstallPreview(a), w2, Discard(a, reached), w');
    assert w'.callers == w.callers[a := Gone];
  }

  /**
   * A preview becomes the stored selection, under a new name, not yet approved, with nothing stored of
   * its hook; the hook of the preview it replaces is revoked unless a formation may have it.
   */
  lemma PreviewIsStored(w: World, a: CallerId, estimate: nat, reached: bool) returns (w': World)
    requires AtRest(w) && a !in w.callers
    ensures Run(w, PreviewSteps(a, estimate, reached)) == Some(w') && AtRest(w')
    ensures w'.book.selection == Some(Selection(w.book.previews, estimate, None))
    ensures w'.book.previews == w.book.previews + 1 && w'.book.agreed == w.book.agreed
    ensures w'.push.stored == Some(StoredPush(w.book.previews, None)) && w'.push.created == w.push.created
    ensures w'.push.revoked == w.push.revoked + Replaced(w, reached)
    ensures w'.client == w.client && w'.callers == w.callers[a := Gone]
  {
    hide Run;
    hide Apply;
    var w1 := PreviewIsSelected(w, a, estimate);
    w' := PreviewIsInstalled(w1, a, w.book.previews, reached);
    RunConcat(w, [ClaimPreview(a), StoreSelection(a, estimate)],
              [ReadStatus(a), InstallPreview(a), Discard(a, reached)]);
    assert w'.callers == w.callers[a := Gone];
  }

  // ---------------------------------------------------------------- a payment

  /** The preview is the stored selection, the limit may be paid for it, and its hook entry is stored. */
  ghost predicate Payable(w: World, p: PreviewId, limit: nat) {
    MayApprove(w.book, p, limit) && StoredFor(w.push, p)
  }

  /**
   * Payable is the stored preview, whose entry for a hook is stored too, with a limit that is positive and
   * covers its estimate; once a limit is agreed, with that limit only. The hook is the one in that entry.
   */
  lemma PayableIff(w: World, p: PreviewId, limit: nat)
    ensures Payable(w, p, limit) <==>
      && (exists estimate: nat :: w.book.selection == Some(Selection(p, estimate, Some(limit)))
            || (w.book.selection == Some(Selection(p, estimate, None)) && 0 < limit && estimate <= limit))
      && (exists hook :: w.push.stored == Some(StoredPush(p, hook)) && w.push.Hook() == hook)
    ensures w.push.stored.None? ==> w.push.Hook().None?
  {
    var b := w.book.selection;
    if MayApprove(w.book, p, limit) {
      assert b == Some(Selection(p, b.value.estimate, b.value.approved));
    }
    if StoredFor(w.push, p) {
      assert w.push.stored == Some(StoredPush(p, w.push.Hook()));
    }
  }

  /** The hook a payment carries: the stored one, or one made now if that succeeds. */
  function HookFor(push: Push, created: bool): Option<Hook> {
    if push.Hook().Some? then push.Hook() else if created then Some(push.created) else None
  }

  function Hooked(push: Push, p: PreviewId, created: bool): Push {
    if push.Hook().Some? || !created then push
    else push.(created := push.created + 1, stored := Some(StoredPush(p, Some(push.created))))
  }

  function ApproveSteps(a: CallerId, p: PreviewId, limit: nat, push: Push, created: bool): seq<Action> {
    [ClaimPay(a, p), Approve(a, limit), LockPush(a)]
    + (if push.Hook().Some? then [] else [CreateHook(a, created)])
  }

  /** What a caller that has approved a payment leaves in the shared state. */
  function Committed(w: World, a: CallerId, p: PreviewId, limit: nat, created: bool, c: Caller): World
    requires MayApprove(w.book, p, limit)
  {
    w.(book := Approved(w.book, p, limit), push := Hooked(w.push, p, created), callers := w.callers[a := c])
  }

  lemma ApprovedIsReady(w: World, a: CallerId, p: PreviewId, limit: nat, created: bool) returns (w': World)
    requires AtRest(w) && a !in w.callers && Payable(w, p, limit)
    ensures Run(w, ApproveSteps(a, p, limit, w.push, created)) == Some(w')
    ensures w' == Committed(w, a, p, limit, created, PayReady(p, limit, HookFor(w.push, created))).(active := true)
  {
    hide Run;
    var w1 := Put(w.(active := true), a, PayClaimed(p));
    var w2 := Put(w1.(book := Approved(w.book, p, limit)), a, PayApproved(p, limit));
    var first := [ClaimPay(a, p), Approve(a, limit), LockPush(a)];
    if w.push.Hook().Some? {
      w' := Put(w2, a, PayReady(p, limit, w.push.Hook()));
      RunThree(w, ClaimPay(a, p), w1, Approve(a, limit), w2, LockPush(a), w');
      assert ApproveSteps(a, p, limit, w.push, created) == first;
    } else {
      var w3 := Put(w2.(push := w.push.(lock := Some(a))), a, PayHooking(p, limit));
      RunThree(w, ClaimPay(a, p), w1, Approve(a, limit), w2, LockPush(a), w3);
      w' := Apply(w3, CreateHook(a, created)).value;
      RunOne(w3, CreateHook(a, created), w');
      RunConcat(w, first, [CreateHook(a, created)]);
    }
    assert w'.callers == w.callers[a := PayReady(p, limit, HookFor(w.push, created))];
  }

  /** The command is taken and executed; `starts` says whether a formation begins. */
  function ServeSteps(a: CallerId, starts: bool, success: bool): seq<Action> {
    [Send(a), DriverTake, DriverProgress(starts)] + [DriverFinish(success), DriverReply, Receive(a)]
  }

  lemma CommandIsExecuted(w: World, a: CallerId, op: Operation, starts: bool) returns (w': World)
    requires w.driver.Resting? && w.queue == [] && a in w.callers
    requires starts ==> op.PayAndCreate? && !w.client.started
    requires if op.PayAndCreate? then w.callers[a] == PayReady(op.preview, op.limit, op.hook)
             else w.callers[a] == PlainClaimed(op)
    ensures var progress := starts || w.client.started;
            Run(w, [Send(a), DriverTake, DriverProgress(progress)]) == Some(w')
    ensures w' == w.(client := if starts then Client(true, op.hook) else w.client,
                     driver := Running(Serve(Command(a, op, op.PayAndCreate?)), w.client.started),
                     callers := w.callers[a := Waiting(if op.PayAndCreate? then Some(op.preview) else None, None)])
  {
    hide Run;
    var command := Command(a, op, op.PayAndCreate?);
    var w1 := Put(w.(queue := [command]), a, Waiting(if op.PayAndCreate? then Some(op.preview) else None, None));
    var w2 := w1.(queue := [], driver := Running(Serve(command), w.client.started));
    assert w1.queue[1..] == [];
    w' := w2.(client := if starts then Client(true, op.hook) else w.client);
    RunThree(w, Send(a), w1, DriverTake, w2, DriverProgress(starts || w.client.started), w');
  }

  /** Except after an abandoned formation, the driver only reports; a payment's claim goes back to its caller. */
  lemma ExecutedIsReported(w: World, a: CallerId, command: Command, success: bool) returns (w': World)
    requires w.active && w.driver.Running? && w.driver.job == Serve(command) && command.from == a
    requires !Abandons(w.driver.job) || (!success && (w.driver.before ==> w.client.started))
    requires a in w.callers && w.callers[a].Waiting? && (w.callers[a].paying.Some? <==> command.retain)
    ensures Run(w, [DriverFinish(success), DriverReply, Receive(a)]) == Some(w')
    ensures w' == w.(driver := Resting, active := command.retain, callers := w.callers[a :=
                       if command.retain then PayReturned(w.callers[a].paying.value, true) else Gone])
  {
    hide Run;
    var w1 := w.(driver := Revoking(w.driver.job, None));
    var w2 := Put(w1.(driver := Resting, active := command.retain), a,
                  Waiting(w.callers[a].paying, Some(command.retain)));
    w' := Put(w2, a, if command.retain then PayReturned(w.callers[a].paying.value, true) else Gone);
    RunThree(w, DriverFinish(success), w1, DriverReply, w2, Receive(a), w');
    assert w'.callers == w.callers[a :=
      if command.retain then PayReturned(w.callers[a].paying.value, true) else Gone];
  }

  lemma ReadyIsServed(w: World, a: CallerId, starts: bool, success: bool) returns (w': World)
    requires w.active && w.driver.Resting? && w.queue == [] && w.push.lock.None? && !w.client.started
    requires a in w.callers && w.callers[a].PayReady?
    ensures Run(w, ServeSteps(a, starts, success)) == Some(w')
    ensures w' == w.(client := if starts then Client(true, w.callers[a].hook) else w.client,
                     callers := w.callers[a := PayReturned(w.callers[a].preview, true)])
  {
    hide Run;
    hide Apply;
    var c := w.callers[a];
    var op := PayAndCreate(c.preview, c.limit, c.hook);
    var w1 := CommandIsExecuted(w, a, op, starts);
    w' := ExecutedIsReported(w1, a, Command(a, op, true), success);
    RunConcat(w, [Send(a), DriverTake, DriverProgress(starts)], [DriverFinish(success), DriverReply, Receive(a)]);
    assert w'.callers == w.callers[a := PayReturned(c.preview, true)];
  }

  function SettleSteps(a: CallerId, retry: bool, reached: bool): seq<Action> {
    [Settle(a, retry), TakeHook(a)] + [Discard(a, reached), CloseSelection(a)]
  }

  /** Nothing of the preview is kept, unless it is to be tried again and no formation began. */
  predicate Kept(w: World, retry: bool) {
    retry && !w.client.started
  }

  lemma HookIsTaken(w: World, a: CallerId, p: PreviewId, retry: bool) returns (w': World)
    requires a in w.callers && w.callers[a] == PayReturned(p, true) && w.push.lock.None? && StoredFor(w.push, p)
    ensures Run(w, [Settle(a, retry), TakeHook(a)]) == Some(w')
    ensures var hook := if Kept(w, retry) then None else w.push.Hook();
            var push := if Kept(w, retry) then w.push else w.push.(stored := None);
            w' == Put(w.(push := push), a, Discarding(hook, w.client.started, true, Some(Closing(p, retry))))
  {
    hide Run;
    var w1 := Put(w, a, PaySettling(p, retry, w.client.started, true));
    w' := Apply(w1, TakeHook(a)).value;
    assert w'.callers == w.callers[a := w'.callers[a]];
    RunTwo(w, Settle(a, retry), w1, TakeHook(a), w');
  }

  lemma HookIsDiscarded(w: World, a: CallerId, p: PreviewId, hook: Option<Hook>, retry: bool, reached: bool)
      returns (w': World)
    requires a in w.callers && w.callers[a] == Discarding(hook, w.client.started, true, Some(Closing(p, retry)))
    requires w.book.selection.Some? && w.book.selection.value.preview == p
    ensures Run(w, [Discard(a, reached), CloseSelection(a)]) == Some(w')
    ensures w' == w.(active := false, callers := w.callers[a := Gone], push := w'.push,
                     book := if Kept(w, retry) then w.book else w.book.(selection := None))
    ensures w'.push == w.push.(revoked := w.push.revoked
              + (if w.client.started || hook.None? || !reached then {} else {hook.value}))
  {
    hide Run;
    var w1 := Apply(w, Discard(a, reached)).value;
    w' := Apply(w1, CloseSelection(a)).value;
    RunTwo(w, Discard(a, reached), w1, CloseSelection(a), w');
    assert w'.callers == w.callers[a := Gone];
  }

  lemma ReturnedIsSettled(w: World, a: CallerId, p: PreviewId, retry: bool, reached: bool) returns (w': World)
    requires w.active && a in w.callers && w.callers[a] == PayReturned(p, true) && w.push.lock.None?
    requires StoredFor(w.push, p) && w.book.selection.Some? && w.book.selection.value.preview == p
    ensures Run(w, SettleSteps(a, retry, reached)) == Some(w')
    ensures !w'.active && w'.driver == w.driver && w'.queue == w.queue && w'.client == w.client
    ensures w'.callers == w.callers[a := Gone]
    ensures Kept(w, retry) ==> w'.push == w.push && w'.book == w.book
    ensures !Kept(w, retry) ==>
      && w'.push == w.push.(stored := None, revoked := w.push.revoked + Replaced(w, reached))
      && w'.book == w.book.(selection := None)
  {
    hide Run;
    hide Apply;
    var w1 := HookIsTaken(w, a, p, retry);
    w' := HookIsDiscarded(w1, a, p, if Kept(w, retry) then None else w.push.Hook(), retry, reached);
    RunConcat(w, [Settle(a, retry), TakeHook(a)], [Discard(a, reached), CloseSelection(a)]);
    assert w'.callers == w.callers[a := Gone];
  }

  function PaySteps(a: CallerId, p: PreviewId, limit: nat, push: Push, created: bool, starts: bool, success: bool,
                    retry: bool, reached: bool): seq<Action>
  {
    (ApproveSteps(a, p, limit, push, created) + ServeSteps(a, starts, success)) + SettleSteps(a, retry, reached)
  }

  lemma PayRuns(w: World, a: CallerId, p: PreviewId, limit: nat, created: bool, starts: bool, success: bool,
                retry: bool, reached: bool) returns (w1: World, w': World)
    requires AtRest(w) && a !in w.callers && Payable(w, p, limit) && !w.client.started
    ensures w1 == Committed(w, a, p, limit, created, PayReturned(p, true))
                  .(active := true, client := if starts then Client(true, HookFor(w.push, created)) else w.client)
    ensures Run(w, PaySteps(a, p, limit, w.push, created, starts, success, retry, reached)) == Some(w')
    ensures AtRest(w') && w'.client == w1.client && w'.callers == w.callers[a := Gone]
    ensures Kept(w1, retry) ==> w'.push == w1.push && w'.book == w1.book
    ensures !Kept(w1, retry) ==>
      && w'.push == w1.push.(stored := None, revoked := w.push.revoked + Replaced(w1, reached))
      && w'.book == w1.book.(selection := None)
  {
    hide Run;
    hide Apply;
    var ready := ApprovedIsReady(w, a, p, limit, created);
    w1 := ReadyIsServed(ready, a, starts, success);
    assert w1.callers == w.callers[a := PayReturned(p, true)];
    RunConcat(w, ApproveSteps(a, p, limit, w.push, created), ServeSteps(a, starts, success));
    w' := ReturnedIsSettled(w1, a, p, retry, reached);
    RunConcat(w, ApproveSteps(a, p, limit, w.push, created) + ServeSteps(a, starts, success),
              SettleSteps(a, retry, reached));
    assert w'.callers == w.callers[a := Gone];
  }

  /**
   * A payment within its limit starts a formation that has the preview's hook (the stored one, or else the
   * one made now), which is not revoked; the limit is agreed, and nothing of the preview is left.
   */
  lemma PaymentStarts(client: Client, acts: seq<Action>, w: World, a: CallerId, p: PreviewId, limit: nat,
                      created: bool, retry: bool, reached: bool) returns (w': World)
    requires Run(Launch(client), acts) == Some(w)
    requires AtRest(w) && a !in w.callers && Payable(w, p, limit) && !w.client.started
    ensures Run(w, PaySteps(a, p, limit, w.push, created, true, true, retry, reached)) == Some(w')
    ensures AtRest(w') && w'.callers == w.callers[a := Gone]
    ensures w'.client == Client(true, HookFor(w.push, created))
    ensures w'.client.live.Some? ==> w'.client.live.value !in w'.push.revoked
    ensures w'.push.stored.None? && w'.push.revoked == w.push.revoked
    ensures w'.book.selection.None? && p in w'.book.agreed && w'.book.agreed[p] == limit
  {
    LaunchInv(client);
    var at := RunKeepsInv(Launch(client), None, acts);
    ReadyHookIsUsable(w, at, p, limit, created);
    hide Run;
    hide Inv;
    hide Apply;
    var w1;
    w1, w' := PayRuns(w, a, p, limit, created, true, true, retry, reached);
  }

  lemma ReadyHookIsUsable(w: World, at: Option<Place>, p: PreviewId, limit: nat, created: bool)
    requires Inv(w, at) && MayApprove(w.book, p, limit)
    ensures HookFor(w.push, created).Some? ==> HookFor(w.push, created).value !in w.push.revoked
    ensures Agreed(Approved(w.book, p, limit), p, limit)
  {
    ApprovedMoves(w.book, p, limit);
  }

  /**
   * A payment that fails before a formation begins, and may be tried again, keeps the selection with its
   * agreed limit and the hook. Tried again with that limit, it starts the formation with the same hook.
   */
  lemma FailedPaymentIsTriedAgain(client: Client, acts: seq<Action>, w: World, a: CallerId, b: CallerId,
                                  p: PreviewId, limit: nat, created: bool, again: bool, reached: bool)
      returns (w': World, w'': World)
    requires Run(Launch(client), acts) == Some(w) && a != b && b !in w.callers
    requires AtRest(w) && a !in w.callers && Payable(w, p, limit) && !w.client.started
    ensures Run(w, PaySteps(a, p, limit, w.push, created, false, false, true, reached)) == Some(w')
    ensures AtRest(w') && w'.client == w.client && w'.push.revoked == w.push.revoked
    ensures w'.push.stored == Some(StoredPush(p, HookFor(w.push, created)))
    ensures w'.book.selection == Some(Selection(p, w.book.selection.value.estimate, Some(limit)))
    ensures forall other: nat :: MayApprove(w'.book, p, other) <==> other == limit
    ensures Run(w', PaySteps(b, p, limit, w'.push, again, true, true, true, reached)) == Some(w'')
    ensures w''.client == Client(true, HookFor(w'.push, again)) && w''.book.selection.None?
    ensures HookFor(w.push, created).Some? ==> w''.client.live == HookFor(w.push, created)
  {
    hide Run;
    hide Apply;
    var w1;
    w1, w' := PayRuns(w, a, p, limit, created, false, false, true, reached);
    RunConcat(Launch(client), acts, PaySteps(a, p, limit, w.push, created, false, false, true, reached));
    w'' := PaymentStarts(client, acts + PaySteps(a, p, limit, w.push, created, false, false, true, reached), w',
                         b, p, limit, again, true, reached);
  }

  /** A payment that fails for good leaves no selection and no stored hook, and its hook is revoked. */
  lemma FailedPaymentIsClosed(w: World, a: CallerId, p: PreviewId, limit: nat, created: bool, reached: bool)
      returns (w': World)
    requires AtRest(w) && a !in w.callers && Payable(w, p, limit) && !w.client.started
    ensures Run(w, PaySteps(a, p, limit, w.push, created, false, false, false, reached)) == Some(w')
    ensures AtRest(w') && w'.client == w.client && w'.callers == w.callers[a := Gone]
    ensures w'.push.stored.None? && w'.book.selection.None?
    ensures var hook := HookFor(w.push, created);
            w'.push.revoked == w.push.revoked + (if hook.Some? && reached then {hook.value} else {})
  {
    hide Run;
    hide Apply;
    var w1;
    w1, w' := PayRuns(w, a, p, limit, created, false, false, false, reached);
    assert w1.push.Hook() == HookFor(w.push, created);
  }

  /** From a preview to its formation: what was previewed can be paid for, with a hook made for it. */
  lemma PreviewedIsPaid(client: Client, acts: seq<Action>, w: World, a: CallerId, b: CallerId, estimate: nat,
                        limit: nat, reached: bool) returns (w': World, w'': World)
    requires Run(Launch(client), acts) == Some(w) && AtRest(w) && !w.client.started
    requires a !in w.callers && b !in w.callers && a != b && 0 < limit && estimate <= limit
    ensures Run(w, PreviewSteps(a, estimate, reached)) == Some(w')
    ensures Run(w', PaySteps(b, w.book.previews, limit, w'.push, true, true, true, true, reached)) == Some(w'')
    ensures w''.client == Client(true, Some(w.push.created)) && w.push.created !in w''.push.revoked
    ensures AtRest(w'') && w''.book.selection.None? && w''.push.stored.None?
  {
    hide Run;
    hide Apply;
    var p := w.book.previews;
    w' := PreviewIsStored(w, a, estimate, reached);
    RunConcat(Launch(client), acts, PreviewSteps(a, estimate, reached));
    PayableIff(w', p, limit);
    assert w'.book.selection == Some(Selection(p, estimate, None));
    assert w'.push.stored == Some(StoredPush(p, None));
    w'' := PaymentStarts(client, acts + PreviewSteps(a, estimate, reached), w', b, p, limit, true, true, reached);
  }

  /** A limit that may not be approved is refused at once, and nothing is paid or changed. */
  lemma WrongLimitIsRefused(w: World, a: CallerId, p: PreviewId, limit: nat)
    requires !w.active && a !in w.callers && !MayApprove(w.book, p, limit)
    ensures Run(w, [ClaimPay(a, p), Approve(a, limit)]) == Some(Put(w, a, Gone))
  {
    hide Run;
    var w1 := Put(w.(active := true), a, PayClaimed(p));
    assert w1.callers[a := Gone] == w.callers[a := Gone];
    RunTwo(w, ClaimPay(a, p), w1, Approve(a, limit), Put(w, a, Gone));
  }

  /** A payment whose preview's entry for a hook is gone closes the selection, and sends no command. */
  lemma ReplacedPreviewIsClosed(w: World, a: CallerId, p: PreviewId, limit: nat)
    requires AtRest(w) && a !in w.callers && MayApprove(w.book, p, limit) && !StoredFor(w.push, p)
    ensures Run(w, [ClaimPay(a, p), Approve(a, limit), LockPush(a)] + [CloseSelection(a)])
         == Some(w.(book := Approved(w.book, p, limit).(selection := None), callers := w.callers[a := Gone]))
  {
    hide Run;
    var w1 := Put(w.(active := true), a, PayClaimed(p));
    var w2 := Put(w1.(book := Approved(w.book, p, limit)), a, PayApproved(p, limit));
    var w3 := Put(Release(w2), a, PayClosing(Closing(p, false)));
    RunThree(w, ClaimPay(a, p), w1, Approve(a, limit), w2, LockPush(a), w3);
    var w4 := w.(book := Approved(w.book, p, limit).(selection := None), callers := w.callers[a := Gone]);
    assert w3.callers[a := Gone] == w4.callers;
    RunOne(w3, CloseSelection(a), w4);
    RunConcat(w, [ClaimPay(a, p), Approve(a, limit), LockPush(a)], [CloseSelection(a)]);
  }

  // ---------------------------------------------------------------- the other operations

  /**
   * Any other operation, and an abandon that fails while its formation lives on or there was none, only
   * runs in the client: the selection, the hook and the client's formation stay, and the flag is clear again.
   */
  lemma OtherOperationRuns(w: World, a: CallerId, abandon: bool, success: bool) returns (w': World)
    requires AtRest(w) && a !in w.callers && (abandon ==> !success)
    ensures Run(w, [ClaimPlain(a, abandon)] + [Send(a), DriverTake, DriverProgress(w.client.started)]
                   + [DriverFinish(success), DriverReply, Receive(a)]) == Some(w')
    ensures w' == w.(callers := w.callers[a := Gone])
  {
    hide Run;
    var op := if abandon then Abandon else OtherOperation;
    var w1 := Put(w.(active := true), a, PlainClaimed(op));
    RunOne(w, ClaimPlain(a, abandon), w1);
    hide Apply;
    var w2 := CommandIsExecuted(w1, a, op, false);
    RunConcat(w, [ClaimPlain(a, abandon)], [Send(a), DriverTake, DriverProgress(w.client.started)]);
    w' := ExecutedIsReported(w2, a, Command(a, op, false), success);
    RunConcat(w, [ClaimPlain(a, abandon)] + [Send(a), DriverTake, DriverProgress(w.client.started)],
              [DriverFinish(success), DriverReply, Receive(a)]);
    assert w'.callers == w.callers[a := Gone];
  }

  /** The driver's own jobs claim the flag, and leave everything as it was when they end. */
  lemma ResumeRuns(w: World, liquidity: bool, success: bool)
    requires AtRest(w)
    ensures Run(w, [DriverClaim(liquidity), DriverFinish(success), DriverReply]) == Some(w)
  {
    hide Run;
    var job := if liquidity then LiquidityResume else AutoResume;
    var w1 := w.(active := true, driver := Running(job, w.client.started));
    RunThree(w, DriverClaim(liquidity), w1, DriverFinish(success), w1.(driver := Revoking(job, None)),
             DriverReply, w);
  }

  // ---------------------------------------------------------------- an abandoned formation

  function AbandonSteps(a: CallerId, push: Push, success: bool, reached: bool): seq<Action> {
    ([ClaimPlain(a, true), Send(a), DriverTake] + [DriverProgress(false), DriverFinish(success), DriverClear])
    + ([DriverTakeHook] + (if push.Hook().Some? then [DriverRevoke(reached)] else []) + [DriverReply, Receive(a)])
  }

  /**
   * An abandon that succeeds, or that fails although the formation is gone after it, leaves no formation,
   * no selection and no stored hook, and its hook is revoked.
   */
  lemma AbandonClears(w: World, a: CallerId, success: bool, reached: bool) returns (w': World)
    requires AtRest(w) && a !in w.callers && (success || w.client.started)
    ensures Run(w, AbandonSteps(a, w.push, success, reached)) == Some(w') && AtRest(w')
    ensures !w'.client.started && w'.book == w.book.(selection := None) && w'.callers == w.callers[a := Gone]
    ensures w'.push.stored.None? && w'.push.created == w.push.created
    ensures w'.push.revoked
         == w.push.revoked + (if w.push.Hook().Some? && reached then {w.push.Hook().value} else {})
  {
    hide Run;
    var first := [ClaimPlain(a, true), Send(a), DriverTake];
    var second := [DriverProgress(false), DriverFinish(success), DriverClear];
    var w1 := AbandonIsTaken(w, a);
    var w2 := AbandonSucceeds(w1, success);
    RunConcat(w, first, second);
    w' := AbandonIsReported(w2, a, reached);
    RunConcat(w, first + second, [DriverTakeHook]
      + (if w.push.Hook().Some? then [DriverRevoke(reached)] else []) + [DriverReply, Receive(a)]);
    assert w'.callers == w.callers[a := Gone];
  }

  lemma AbandonIsTaken(w: World, a: CallerId) returns (w': World)
    requires AtRest(w) && a !in w.callers
    ensures Run(w, [ClaimPlain(a, true), Send(a), DriverTake]) == Some(w')
    ensures w' == w.(active := true, driver := Running(Serve(Command(a, Abandon, false)), w.client.started),
                     callers := w.callers[a := Waiting(None, None)])
  {
    hide Run;
    var w1 := Put(w.(active := true), a, PlainClaimed(Abandon));
    var w2 := Put(w1.(queue := [Command(a, Abandon, false)]), a, Waiting(None, None));
    assert w2.queue[1..] == [];
    assert w2.callers == w.callers[a := Waiting(None, None)];
    w' := w2.(queue := [], driver := Running(Serve(Command(a, Abandon, false)), w.client.started));
    RunThree(w, ClaimPlain(a, true), w1, Send(a), w2, DriverTake, w');
  }

  lemma AbandonSucceeds(w: World, success: bool) returns (w': World)
    requires w.driver.Running? && Abandons(w.driver.job) && (success || w.driver.before)
    ensures Run(w, [DriverProgress(false), DriverFinish(success), DriverClear]) == Some(w')
    ensures w' == w.(client := w.client.(started := false), book := w.book.(selection := None),
                     driver := Invalidating(w.driver.job))
  {
    hide Run;
    var w1 := w.(client := w.client.(started := false));
    var w2 := w1.(driver := Clearing(w.driver.job));
    w' := w2.(book := w.book.(selection := None), driver := Invalidating(w.driver.job));
    RunThree(w, DriverProgress(false), w1, DriverFinish(success), w2, DriverClear, w');
  }

  lemma AbandonIsReported(w: World, a: CallerId, reached: bool) returns (w': World)
    requires w.active && w.driver == Invalidating(Serve(Command(a, Abandon, false))) && w.push.lock.None?
    requires a in w.callers && w.callers[a] == Waiting(None, None)
    ensures Run(w, [DriverTakeHook] + (if w.push.Hook().Some? then [DriverRevoke(reached)] else [])
                   + [DriverReply, Receive(a)]) == Some(w')
    ensures w' == w.(active := false, driver := Resting, push := w'.push, callers := w.callers[a := Gone])
    ensures w'.push == Revoke(w.push.(stored := None), w.push.Hook(), reached)
  {
    hide Run;
    var job, hook := w.driver.job, w.push.Hook();
    var w1 := w.(push := w.push.(stored := None), driver := Revoking(job, hook));
    RunOne(w, DriverTakeHook, w1);
    var w2 := w1.(push := Revoke(w1.push, hook, reached), driver := Revoking(job, None));
    var revoke := if hook.Some? then [DriverRevoke(reached)] else [];
    if hook.Some? {
      RunOne(w1, DriverRevoke(reached), w2);
    } else {
      RunNone(w1);
    }
    RunConcat(w, [DriverTakeHook], revoke);
    var w3 := Put(w2.(driver := Resting, active := false), a, Waiting(None, Some(false)));
    w' := Put(w3, a, Gone);
    RunTwo(w2, DriverReply, w3, Receive(a), w');
    RunConcat(w, [DriverTakeHook] + revoke, [DriverReply, Receive(a)]);
    assert w'.callers == w.callers[a := Gone];
  }

  lemma RunNone(w: World)
    ensures Run(w, []) == Some(w)
  {
  }
}
