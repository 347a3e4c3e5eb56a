/**
 * The Federation Initiator's operation driver: one atomic flag whose claim travels between callers,
 * the command queue, the driver task and completions, and the push hook that claim protects. Each
 * step is what runs between two awaits; callers can be dropped at any await, the driver at any time.
 */
module FiDriver {
  import opened Options

  type CallerId = nat
  type PreviewId = nat
  type Hook = nat

  datatype Operation =
    | PayAndCreate(preview: PreviewId, limit: nat, hook: Option<Hook>)
    | Abandon
    | OtherOperation

  datatype Command = Command(from: CallerId, op: Operation, retain: bool)

  datatype Job = Serve(command: Command) | AutoResume | LiquidityResume

  datatype Driver =
    | Resting
    | Running(job: Job, before: bool)           // inside `execute`; formation status at its start
    | Clearing(job: Job)                        // abandoned; about to take the selection
    | Invalidating(job: Job)                    // about to take the stored hook
    | Revoking(job: Job, hook: Option<Hook>)
    | Dead

  /** What remains of `pay_and_create` once the hook is settled. */
  datatype Closing = Closing(preview: PreviewId, retry: bool)

  datatype Caller =
    | PreviewClaimed
    | PreviewStored(preview: PreviewId)
    | PreviewInstalling(preview: PreviewId, started: bool)
    | PayClaimed(preview: PreviewId)
    | PayApproved(preview: PreviewId, limit: nat)
    | PayHooking(preview: PreviewId, limit: nat)   // holds the push-state lock
    | PayReady(preview: PreviewId, limit: nat, hook: Option<Hook>)
    | PlainClaimed(op: Operation)
    | Waiting(paying: Option<PreviewId>, reply: Option<bool>)   // the reply says whether it carries the claim
    | PayReturned(preview: PreviewId, held: bool)
    | PaySettling(preview: PreviewId, retry: bool, started: bool, held: bool)
    | Discarding(hook: Option<Hook>, started: bool, held: bool, next: Option<Closing>)
    | PayClosing(close: Closing)
    | Gone

  datatype Selection = Selection(preview: PreviewId, estimate: nat, approved: Option<nat>)

  datatype StoredPush = StoredPush(preview: PreviewId, hook: Option<Hook>)

  /** The push coordinator: the stored hook behind its lock, and what became of all hooks. */
  datatype Push = Push(stored: Option<StoredPush>, lock: Option<CallerId>, created: nat, revoked: set<Hook>) {
    function Hook(): Option<Hook> {
      if stored.Some? then stored.value.hook else None
    }
  }

  /** The stored selection; `agreed` is history: the limit each preview was first approved with. */
  datatype Book = Book(selection: Option<Selection>, previews: nat, agreed: map<PreviewId, nat>)

  /** The external client: whether its status is `Formation`, and the hook its formation was given. */
  datatype Client = Client(started: bool, live: Option<Hook>)

  datatype World = World(
    active: bool,                       // the shared flag
    callers: map<CallerId, Caller>,
    queue: seq<Command>,
    driver: Driver,
    client: Client,
    push: Push,
    book: Book)

  /** A launch: nothing claimed or queued, no selection, and whatever the client's durable state is. */
  function Launch(client: Client): World {
    var created := if client.live.Some? then client.live.value + 1 else 0;
    World(false, map[], [], Resting, client, Push(None, None, created, {}), Book(None, 0, map[]))
  }

  datatype Action =
    | ClaimPreview(a: CallerId)
    | StoreSelection(a: CallerId, estimate: nat)
    | ReadStatus(a: CallerId)
    | InstallPreview(a: CallerId)
    | ClaimPay(a: CallerId, preview: PreviewId)
    | Approve(a: CallerId, limit: nat)
    | LockPush(a: CallerId)
    | CreateHook(a: CallerId, created: bool)
    | ClaimPlain(a: CallerId, abandon: bool)
    | Send(a: CallerId)
    | Receive(a: CallerId)
    | Settle(a: CallerId, retry: bool)
    | TakeHook(a: CallerId)
    | Discard(a: CallerId, reached: bool)
    | CloseSelection(a: CallerId)
    | Leave(a: CallerId)               // an early error return, or the future is dropped
    | DriverTake
    | DriverClaim(liquidity: bool)
    | DriverProgress(started: bool)    // the client's status changes inside `execute`
    | DriverFinish(success: bool)
    | DriverClear
    | DriverTakeHook
    | DriverRevoke(reached: bool)
    | DriverReply
    | DriverDie

  predicate IsDriverAction(act: Action) {
    act.DriverTake? || act.DriverClaim? || act.DriverProgress? || act.DriverFinish? || act.DriverClear?
    || act.DriverTakeHook? || act.DriverRevoke? || act.DriverReply? || act.DriverDie?
  }

  /** Where a claim can be. */
  predicate CallerHolds(c: Caller) {
    match c
    case Waiting(_, reply) => reply == Some(true)
    case PayReturned(_, held) => held
    case PaySettling(_, _, _, held) => held
    case Discarding(_, _, held, _) => held
    case PayClosing(_) => false
    case Gone => false
    case _ => true
  }

  predicate DriverHolds(d: Driver) {
    !d.Resting? && !d.Dead?
  }

  function Put(w: World, a: CallerId, c: Caller): World {
    w.(callers := w.callers[a := c])
  }

  /** Dropping a claim clears the flag. */
  function Release(w: World): World {
    w.(active := false)
  }

  function Give(w: World, a: CallerId): World {
    Put(Release(w), a, Gone)
  }

  // ---------------------------------------------------------------- the push hook and the selection

  function Install(p: Push, preview: PreviewId): Push {
    p.(stored := Some(StoredPush(preview, None)))
  }

  /** `ensure_formation_push_hook`, under the lock, when nothing is stored yet. */
  function Create(p: Push, preview: PreviewId, created: bool): Push {
    if created then p.(lock := None, created := p.created + 1, stored := Some(StoredPush(preview, Some(p.created))))
    else p.(lock := None)
  }

  predicate StoredFor(p: Push, preview: PreviewId) {
    p.stored.Some? && p.stored.value.preview == preview
  }

  /** Revocation is best effort: `reached` says whether it got through. */
  function Revoke(p: Push, hook: Option<Hook>, reached: bool): Push {
    if hook.Some? && reached then p.(revoked := p.revoked + {hook.value}) else p
  }

  predicate MayApprove(b: Book, preview: PreviewId, limit: nat) {
    && b.selection.Some? && b.selection.value.preview == preview
    && if b.selection.value.approved.Some? then b.selection.value.approved.value == limit
       else limit != 0 && limit >= b.selection.value.estimate
  }

  function Approved(b: Book, preview: PreviewId, limit: nat): Book
    requires MayApprove(b, preview, limit)
  {
    if b.selection.value.approved.Some? then b
    else b.(selection := Some(b.selection.value.(approved := Some(limit))), agreed := b.agreed[preview := limit])
  }

  function Select(b: Book, estimate: nat): Book {
    b.(selection := Some(Selection(b.previews, estimate, None)), previews := b.previews + 1)
  }

  function CloseBook(b: Book, close: Closing, started: bool): Book {
    if (!close.retry || started) && b.selection.Some? && b.selection.value.preview == close.preview
    then b.(selection := None) else b
  }

  // ---------------------------------------------------------------- steps

  /** One step; `None` when it cannot be taken. */
  function Apply(w: World, act: Action): Option<World> {
    if IsDriverAction(act) then DriverStep(w, act)
    else if act.ClaimPreview? || act.ClaimPay? || act.ClaimPlain? then ClaimStep(w, act)
    else if act.a !in w.callers then None
    else CallerStep(w, act, w.callers[act.a])
  }

  predicate Claims(act: Action) {
    act.ClaimPreview? || act.ClaimPay? || act.ClaimPlain?
  }

  /** `try_claim_operation`: a busy caller returns at once. */
  function ClaimStep(w: World, act: Action): Option<World>
    requires Claims(act)
  {
    if act.a in w.callers then None
    else if w.active then Some(Put(w, act.a, Gone))
    else
      var c := match act
        case ClaimPreview(_) => PreviewClaimed
        case ClaimPay(_, preview) => PayClaimed(preview)
        case ClaimPlain(_, abandon) => PlainClaimed(if abandon then Abandon else OtherOperation);
      Some(Put(w.(active := true), act.a, c))
  }

  function CallerStep(w: World, act: Action, c: Caller): Option<World>
    requires !IsDriverAction(act) && !Claims(act)
  {
    var a := act.a;
    match act
    // preview_selection and install_preview
    case StoreSelection(_, estimate) =>
      if !c.PreviewClaimed? then None
      else Some(Put(w.(book := Select(w.book, estimate)), a, PreviewStored(w.book.previews)))
    case ReadStatus(_) =>
      if !c.PreviewStored? then None else Some(Put(w, a, PreviewInstalling(c.preview, w.client.started)))
    case InstallPreview(_) =>
      if !c.PreviewInstalling? || w.push.lock.Some? then None
      else Some(Put(w.(push := Install(w.push, c.preview)), a, Discarding(w.push.Hook(), c.started, true, None)))
    // pay_and_create up to its command
    case Approve(_, limit) =>
      if !c.PayClaimed? then None
      else if !MayApprove(w.book, c.preview, limit) then Some(Give(w, a))
      else Some(Put(w.(book := Approved(w.book, c.preview, limit)), a, PayApproved(c.preview, limit)))
    case LockPush(_) =>
      if !c.PayApproved? || w.push.lock.Some? then None
      else if !StoredFor(w.push, c.preview) then
        Some(Put(Release(w), a, PayClosing(Closing(c.preview, false))))
      else if w.push.Hook().Some? then Some(Put(w, a, PayReady(c.preview, c.limit, w.push.Hook())))
      else Some(Put(w.(push := w.push.(lock := Some(a))), a, PayHooking(c.preview, c.limit)))
    case CreateHook(_, created) =>
      if !c.PayHooking? then None
      else
        var push := Create(w.push, c.preview, created);
        Some(Put(w.(push := push), a, PayReady(c.preview, c.limit, if created then push.Hook() else None)))
    // request_claimed
    case Send(_) =>
      if !c.PayReady? && !c.PlainClaimed? then None
      else if w.driver.Dead? then
        Some(Put(Release(w), a, if c.PayReady? then PayReturned(c.preview, false) else Gone))
      else if |w.queue| > 0 then None
      else if c.PayReady? then
        Some(Put(w.(queue := [Command(a, PayAndCreate(c.preview, c.limit, c.hook), true)]), a,
                 Waiting(Some(c.preview), None)))
      else Some(Put(w.(queue := [Command(a, c.op, false)]), a, Waiting(None, None)))
    case Receive(_) =>
      if !c.Waiting? || (c.reply.None? && !w.driver.Dead?) then None
      else if c.paying.None? then Some(Put(if c.reply == Some(true) then Release(w) else w, a, Gone))
      else Some(Put(w, a, PayReturned(c.paying.value, c.reply == Some(true))))
    // dispatch_paid_formation after its command
    case Settle(_, retry) =>
      if !c.PayReturned? then None
      else Some(Put(w, a, PaySettling(c.preview, retry, w.client.started, c.held)))
    case TakeHook(_) =>
      if !c.PaySettling? || w.push.lock.Some? then None
      else if StoredFor(w.push, c.preview) && (!c.retry || c.started) then
        Some(Put(w.(push := w.push.(stored := None)), a,
                 Discarding(w.push.Hook(), c.started, c.held, Some(Closing(c.preview, c.retry)))))
      else Some(Put(w, a, Discarding(None, c.started, c.held, Some(Closing(c.preview, c.retry)))))
    case Discard(_, reached) =>
      if !c.Discarding? then None
      else
        var push := if c.started then w.push else Revoke(w.push, c.hook, reached);
        Some(Put(w.(push := push, active := w.active && !c.held), a,
                 if c.next.Some? then PayClosing(c.next.value) else Gone))
    case CloseSelection(_) =>
      if !c.PayClosing? then None
      else Some(Put(w.(book := CloseBook(w.book, c.close, w.client.started)), a, Gone))
    case Leave(_) =>
      if c.Gone? then None
      else
        var push := if w.push.lock == Some(a) then w.push.(lock := None) else w.push;
        Some(Put(w.(push := push, active := w.active && !CallerHolds(c)), a, Gone))
  }

  predicate Abandons(job: Job) {
    job.Serve? && job.command.op.Abandon?
  }

  /** The driver loop. The client's status changes only while it runs a job. */
  function DriverStep(w: World, act: Action): Option<World>
    requires IsDriverAction(act)
  {
    var d := w.driver;
    match act
    case DriverTake =>
      if !d.Resting? || w.queue == [] then None
      else Some(w.(queue := w.queue[1..], driver := Running(Serve(w.queue[0]), w.client.started)))
    case DriverClaim(liquidity) =>
      if !d.Resting? || w.active then None
      else Some(w.(active := true,
                   driver := Running(if liquidity then LiquidityResume else AutoResume, w.client.started)))
    case DriverProgress(started) =>
      if !d.Running? then None
      else if !started then Some(w.(client := w.client.(started := false)))
      else if w.client.started then Some(w)
      else if d.job.Serve? && d.job.command.op.PayAndCreate? then
        Some(w.(client := Client(true, d.job.command.op.hook)))
      else None
    case DriverFinish(success) =>
      if !d.Running? then None
      else if !Abandons(d.job) then Some(w.(driver := Revoking(d.job, None)))
      else if success && w.client.started then None   // a successful abandon leaves no formation
      else if success || (d.before && !w.client.started) then Some(w.(driver := Clearing(d.job)))
      else Some(w.(driver := Revoking(d.job, None)))
    case DriverClear =>
      if !d.Clearing? then None
      else Some(w.(book := w.book.(selection := None), driver := Invalidating(d.job)))
    case DriverTakeHook =>
      if !d.Invalidating? || w.push.lock.Some? then None
      else Some(w.(push := w.push.(stored := None), driver := Revoking(d.job, w.push.Hook())))
    case DriverRevoke(reached) =>
      if !d.Revoking? || d.hook.None? then None
      else Some(w.(push := Revoke(w.push, d.hook, reached), driver := Revoking(d.job, None)))
    case DriverReply =>
      if !d.Revoking? || d.hook.Some? then None
      else if d.job.Serve? && d.job.command.from in w.callers && w.callers[d.job.command.from].Waiting? then
        var from, retain := d.job.command.from, d.job.command.retain;
        Some(Put(w.(driver := Resting, active := w.active && retain), from,
                 Waiting(w.callers[from].paying, Some(retain))))
      else Some(Release(w.(driver := Resting)))
    case DriverDie =>
      if d.Dead? then None
      else Some(w.(driver := Dead, queue := [], active := w.active && !DriverHolds(d) && w.queue == []))
  }

  // ---------------------------------------------------------------- the claim

  datatype Place = AtCaller(a: CallerId) | InQueue | AtDriver

  predicate Holds(w: World, p: Place) {
    match p
    case AtCaller(a) => a in w.callers && CallerHolds(w.callers[a])
    case InQueue => w.queue != []
    case AtDriver => DriverHolds(w.driver)
  }

  /** The flag is set exactly when the claim is somewhere, and `at` is the only place it is at. */
  ghost predicate ClaimIsAt(w: World, at: Option<Place>) {
    && (w.active <==> at.Some?)
    && (forall p :: Holds(w, p) <==> at == Some(p))
    && |w.queue| <= 1
  }

  /** What a caller's step may do with the claim: keep it, take it, drop it or queue it. */
  ghost predicate MovesClaim(w: World, w': World, a: CallerId) {
    var had, has := Holds(w, AtCaller(a)), Holds(w', AtCaller(a));
    && a in w'.callers && w'.callers == w.callers[a := w'.callers[a]]
    && w'.driver == w.driver && w'.client == w.client
    && (|| (has == had && w'.active == w.active && w'.queue == w.queue)
        || (!had && has && !w.active && w'.active && w'.queue == w.queue)
        || (had && !has && !w'.active && w'.queue == w.queue)
        || (had && !has && w'.active == w.active && w.queue == [] && |w'.queue| == 1))
  }

  lemma ClaimStepMoves(w: World, act: Action)
    requires Claims(act) && ClaimStep(w, act).Some?
    ensures MovesClaim(w, ClaimStep(w, act).value, act.a)
  {
  }

  lemma CallerStepMoves(w: World, act: Action)
    requires !IsDriverAction(act) && !Claims(act) && act.a in w.callers
    requires CallerStep(w, act, w.callers[act.a]).Some?
    ensures MovesClaim(w, CallerStep(w, act, w.callers[act.a]).value, act.a)
  {
    hide Install;
    hide Create;
    hide StoredFor;
    hide Revoke;
    hide MayApprove;
    hide Approved;
    hide Select;
    hide CloseBook;
  }

  lemma CallerStepMovesClaim(w: World, w': World, at: Option<Place>, a: CallerId) returns (at': Option<Place>)
    requires ClaimIsAt(w, at) && MovesClaim(w, w', a)
    ensures ClaimIsAt(w', at')
  {
    hide CallerHolds;
    assert Holds(w, AtCaller(a)) <==> at == Some(AtCaller(a));
    assert Holds(w, InQueue) <==> at == Some(InQueue);
    at' := if Holds(w', AtCaller(a)) then Some(AtCaller(a))
           else if at == Some(AtCaller(a)) then (if w'.queue != [] && w.queue == [] then Some(InQueue) else None)
           else at;
    forall p ensures Holds(w', p) <==> at' == Some(p) {
      assert Holds(w, p) <==> at == Some(p);
    }
  }

  lemma DriverStepMovesClaim(w: World, at: Option<Place>, act: Action) returns (at': Option<Place>)
    requires ClaimIsAt(w, at) && IsDriverAction(act) && DriverStep(w, act).Some?
    ensures ClaimIsAt(DriverStep(w, act).value, at')
  {
    hide Revoke;
    var w' := DriverStep(w, act).value;
    assert Holds(w, AtDriver) <==> at == Some(AtDriver);
    assert Holds(w, InQueue) <==> at == Some(InQueue);
    at' := if DriverHolds(w'.driver) then Some(AtDriver)
           else if act.DriverReply? && w.driver.job.Serve? && Holds(w', AtCaller(w.driver.job.command.from))
           then Some(AtCaller(w.driver.job.command.from))
           else if at == Some(AtDriver) || (act.DriverDie? && at == Some(InQueue)) then None
           else at;
    forall p ensures Holds(w', p) <==> at' == Some(p) {
      assert Holds(w, p) <==> at == Some(p);
    }
  }

  // ---------------------------------------------------------------- what the claim protects

  /** A hook that may still be given to a formation, or has been. */
  predicate Usable(p: Push, hook: Option<Hook>) {
    hook.Some? ==> hook.value < p.created && hook.value !in p.revoked
  }

  /** A hook taken out of the shared state, so that no later formation can get it from there. */
  predicate TakenOut(p: Push, hook: Option<Hook>) {
    hook.Some? ==> hook.value < p.created && p.Hook() != hook
  }

  ghost predicate PushMatches(p: Push) {
    (forall h :: h in p.revoked ==> h < p.created) && Usable(p, p.Hook())
  }

  predicate Agreed(b: Book, preview: PreviewId, limit: nat) {
    preview in b.agreed && b.agreed[preview] == limit
  }

  ghost predicate BookMatches(b: Book) {
    && (forall p :: p in b.agreed ==> p < b.previews)
    && (b.selection.Some? ==>
          var s := b.selection.value;
          && s.preview < b.previews
          && (if s.approved.Some? then Agreed(b, s.preview, s.approved.value) else s.preview !in b.agreed))
  }

  /** Hooks are only ever taken out of the shared state, or put there fresh. */
  ghost predicate PushGrows(p: Push, p': Push) {
    && p.created <= p'.created && p.revoked <= p'.revoked
    && (p'.Hook().None? || p'.Hook() == p.Hook() || p'.Hook().value >= p.created)
  }

  /** An agreed limit never changes. */
  ghost predicate BookGrows(b: Book, b': Book) {
    forall p :: p in b.agreed ==> p in b'.agreed && b'.agreed[p] == b.agreed[p]
  }

  lemma PushMoves(p: Push, preview: PreviewId, created: bool)
    requires PushMatches(p)
    ensures PushMatches(Install(p, preview)) && PushGrows(p, Install(p, preview)) && Install(p, preview).Hook().None?
    ensures var p' := Create(p, preview, created);
      PushMatches(p') && (p.Hook().None? ==> PushGrows(p, p')) && (created ==> Usable(p', p'.Hook()))
  {
  }

  lemma RevokeMoves(p: Push, hook: Option<Hook>, reached: bool)
    requires PushMatches(p) && TakenOut(p, hook)
    ensures var p' := Revoke(p, hook, reached);
      PushMatches(p') && PushGrows(p, p') && p'.lock == p.lock && p'.stored == p.stored
  {
  }

  lemma BookMoves(b: Book, estimate: nat, close: Closing, started: bool)
    requires BookMatches(b)
    ensures BookMatches(Select(b, estimate)) && BookGrows(b, Select(b, estimate))
    ensures BookMatches(CloseBook(b, close, started)) && BookGrows(b, CloseBook(b, close, started))
  {
  }

  lemma ApprovedMoves(b: Book, preview: PreviewId, limit: nat)
    requires BookMatches(b) && MayApprove(b, preview, limit)
    ensures var b' := Approved(b, preview, limit);
      BookMatches(b') && BookGrows(b, b') && Agreed(b', preview, limit)
  {
  }

  /** A caller waiting for a completion that returns its claim will get one that does. */
  predicate Answers(w: World, command: Command) {
    && command.from in w.callers
    && (w.callers[command.from].Waiting? && w.callers[command.from].paying.Some? ==> command.retain)
  }

  predicate CommandMatches(w: World, command: Command) {
    && (command.op.PayAndCreate? ==>
          Usable(w.push, command.op.hook) && Agreed(w.book, command.op.preview, command.op.limit))
    && Answers(w, command)
  }

  predicate CallerMatches(w: World, a: CallerId, c: Caller) {
    match c
    case PreviewInstalling(_, started) => started == w.client.started
    case PayApproved(preview, limit) => Agreed(w.book, preview, limit)
    case PayHooking(preview, limit) =>
      && Agreed(w.book, preview, limit)
      && w.push.lock == Some(a) && w.push.stored == Some(StoredPush(preview, None))
    case PayReady(preview, limit, hook) =>
      Agreed(w.book, preview, limit) && (w.driver.Dead? || Usable(w.push, hook))
    case PlainClaimed(op) => !op.PayAndCreate?
    case Waiting(paying, reply) => paying.Some? && reply.Some? ==> reply.value
    case PayReturned(_, held) => held || w.driver.Dead?
    case PaySettling(_, _, started, held) => started == w.client.started && (held || w.driver.Dead?)
    case Discarding(hook, started, held, _) =>
      started == w.client.started && (held || w.driver.Dead?) && TakenOut(w.push, hook)
    case _ => true
  }

  ghost predicate CallersMatch(w: World) {
    && (forall a :: a in w.callers ==> CallerMatches(w, a, w.callers[a]))
    && (w.push.lock.Some? ==> w.push.lock.value in w.callers && w.callers[w.push.lock.value].PayHooking?)
  }

  predicate DriverMatches(w: World) {
    && (w.queue != [] ==> !w.driver.Dead? && CommandMatches(w, w.queue[0]))
    && match w.driver
       case Running(job, _) => job.Serve? ==> CommandMatches(w, job.command)
       case Clearing(job) => !w.client.started && (job.Serve? ==> Answers(w, job.command))
       case Invalidating(job) => !w.client.started && (job.Serve? ==> Answers(w, job.command))
       case Revoking(job, hook) =>
         && (hook.Some? ==> !w.client.started) && TakenOut(w.push, hook)
         && (job.Serve? ==> Answers(w, job.command))
       case _ => true
  }

  ghost predicate Inv(w: World, at: Option<Place>) {
    && ClaimIsAt(w, at) && CallersMatch(w) && DriverMatches(w) && PushMatches(w.push) && BookMatches(w.book)
    && (w.client.started ==> Usable(w.push, w.client.live))
  }

  lemma LaunchInv(client: Client)
    ensures Inv(Launch(client), None)
  {
  }

  // ---------------------------------------------------------------- a caller's step

  /** What a caller's step does to the shared hook and selection. */
  ghost predicate SharesWell(w: World, w': World, a: CallerId) {
    && PushMatches(w'.push) && PushGrows(w.push, w'.push)
    && BookMatches(w'.book) && BookGrows(w.book, w'.book)
    && (w'.push.revoked == w.push.revoked
        || (!w.client.started && (Holds(w, AtCaller(a)) || w.driver.Dead?)))
    && (|| (w'.push.lock == w.push.lock && w'.push.stored == w.push.stored)
        || (w.push.lock.None? && (w'.push.lock.None? || w'.push.lock == Some(a)))
        || (w.push.lock == Some(a) && w'.push.lock.None?))
  }

  lemma CallerSharesWell(w: World, act: Action)
    requires !IsDriverAction(act) && !Claims(act) && act.a in w.callers
    requires CallerStep(w, act, w.callers[act.a]).Some?
    requires CallersMatch(w) && PushMatches(w.push) && BookMatches(w.book)
    ensures SharesWell(w, CallerStep(w, act, w.callers[act.a]).value, act.a)
  {
    hide Revoke;
    hide Approved;
    hide Select;
    hide CloseBook;
    hide BookMatches;
    var c := w.callers[act.a];
    match act {
      case StoreSelection(_, estimate) => BookMoves(w.book, estimate, Closing(0, false), false);
      case InstallPreview(_) => if c.PreviewInstalling? { PushMoves(w.push, c.preview, false); }
      case Approve(_, limit) =>
        if c.PayClaimed? && MayApprove(w.book, c.preview, limit) { ApprovedMoves(w.book, c.preview, limit); }
      case CreateHook(_, created) => if c.PayHooking? { PushMoves(w.push, c.preview, created); }
      case Discard(_, reached) => if c.Discarding? { RevokeMoves(w.push, c.hook, reached); }
      case CloseSelection(_) => if c.PayClosing? { BookMoves(w.book, 0, c.close, w.client.started); }
      case _ =>
    }
  }

  /** A caller waits for a completion exactly from the step that queued its command. */
  predicate Queues(w: World, w': World, a: CallerId)
    requires a in w'.callers
  {
    if w'.callers[a].Waiting? then
      |w'.queue| == 1 && !w'.driver.Dead? && CommandMatches(w', w'.queue[0]) && Holds(w, AtCaller(a))
    else w'.queue == w.queue
  }

  /** A caller's step leaves the caller with what its next stage relies on. */
  lemma CallerReaches(w: World, act: Action)
    requires !IsDriverAction(act) && !Claims(act) && act.a in w.callers
    requires CallerStep(w, act, w.callers[act.a]).Some?
    requires CallersMatch(w) && PushMatches(w.push) && BookMatches(w.book)
    ensures var w', a := CallerStep(w, act, w.callers[act.a]).value, act.a;
      && a in w'.callers && CallerMatches(w', a, w'.callers[a])
      && (w'.callers[a].PayHooking? <==> w'.push.lock == Some(a)) && Queues(w, w', a)
  {
    hide Approved;
    hide Select;
    hide CloseBook;
    hide BookMatches;
    var c := w.callers[act.a];
    if act.Approve? && c.PayClaimed? && MayApprove(w.book, c.preview, act.limit) {
      ApprovedMoves(w.book, c.preview, act.limit);
    }
  }

  // ---------------------------------------------------------------- every step keeps the invariant

  /** Everyone but the stepping caller keeps what it relies on. */
  lemma OthersKeep(w: World, w': World, at: Option<Place>, a: CallerId, b: CallerId)
    requires ClaimIsAt(w, at) && CallersMatch(w) && MovesClaim(w, w', a) && SharesWell(w, w', a)
    requires b in w.callers && b != a
    ensures CallerMatches(w', b, w.callers[b])
  {
    hide PushMatches;
    hide BookMatches;
    assert Holds(w, AtCaller(a)) <==> at == Some(AtCaller(a));
    assert Holds(w, AtCaller(b)) <==> at == Some(AtCaller(b));
  }

  lemma DriverKeeps(w: World, w': World, at: Option<Place>, a: CallerId)
    requires ClaimIsAt(w, at) && DriverMatches(w) && MovesClaim(w, w', a) && SharesWell(w, w', a)
    requires Queues(w, w', a)
    ensures DriverMatches(w')
  {
    hide PushMatches;
    hide BookMatches;
    assert Holds(w, AtCaller(a)) <==> at == Some(AtCaller(a));
    assert Holds(w, InQueue) <==> at == Some(InQueue);
    assert Holds(w, AtDriver) <==> at == Some(AtDriver);
  }

  lemma CallerStepKeepsInv(w: World, at: Option<Place>, act: Action) returns (at': Option<Place>)
    requires Inv(w, at) && !IsDriverAction(act) && !Claims(act) && act.a in w.callers
    requires CallerStep(w, act, w.callers[act.a]).Some?
    ensures Inv(CallerStep(w, act, w.callers[act.a]).value, at')
  {
    hide CallerStep;
    hide ClaimIsAt;
    hide DriverMatches;
    var a := act.a;
    var w' := CallerStep(w, act, w.callers[a]).value;
    CallerStepMoves(w, act);
    CallerSharesWell(w, act);
    CallerReaches(w, act);
    DriverKeeps(w, w', at, a);
    forall b | b in w'.callers ensures CallerMatches(w', b, w'.callers[b]) {
      if b != a {
        OthersKeep(w, w', at, a, b);
      }
    }
    at' := CallerStepMovesClaim(w, w', at, a);
    LiveKeeps(w, w', a);
  }

  /** The hook of a live formation is never revoked: hooks are revoked only while none is active. */
  lemma LiveKeeps(w: World, w': World, a: CallerId)
    requires MovesClaim(w, w', a) && SharesWell(w, w', a)
    requires w.client.started ==> Usable(w.push, w.client.live)
    ensures w'.client.started ==> Usable(w'.push, w'.client.live)
  {
  }

  lemma ClaimStepKeepsInv(w: World, at: Option<Place>, act: Action) returns (at': Option<Place>)
    requires Inv(w, at) && Claims(act) && ClaimStep(w, act).Some?
    ensures Inv(ClaimStep(w, act).value, at')
  {
    hide ClaimIsAt;
    hide PushMatches;
    hide BookMatches;
    ClaimStepMoves(w, act);
    at' := CallerStepMovesClaim(w, ClaimStep(w, act).value, at, act.a);
  }

  // ---------------------------------------------------------------- the driver's step

  lemma DriverStepKeepsCallers(w: World, at: Option<Place>, act: Action)
    requires Inv(w, at) && IsDriverAction(act) && DriverStep(w, act).Some?
    ensures CallersMatch(DriverStep(w, act).value)
  {
    hide BookMatches;
    assert Holds(w, AtDriver) <==> at == Some(AtDriver);
    forall a | a in w.callers
      ensures Holds(w, AtCaller(a)) <==> at == Some(AtCaller(a))
      ensures CallerMatches(w, a, w.callers[a])
    {
    }
  }

  lemma ClearedMatches(b: Book)
    requires BookMatches(b)
    ensures BookMatches(b.(selection := None))
  {
  }

  lemma DriverStepKeepsRest(w: World, at: Option<Place>, act: Action)
    requires Inv(w, at) && IsDriverAction(act) && DriverStep(w, act).Some?
    ensures var w' := DriverStep(w, act).value;
      && DriverMatches(w') && PushMatches(w'.push) && BookMatches(w'.book)
      && (w'.client.started ==> Usable(w'.push, w'.client.live))
  {
    hide BookMatches;
    assert Holds(w, AtDriver) <==> at == Some(AtDriver);
    assert Holds(w, InQueue) <==> at == Some(InQueue);
    ClearedMatches(w.book);
  }

  lemma ApplyKeepsInv(w: World, at: Option<Place>, act: Action) returns (at': Option<Place>)
    requires Inv(w, at) && Apply(w, act).Some?
    ensures Inv(Apply(w, act).value, at')
  {
    hide CallerStep;
    hide ClaimStep;
    hide DriverStep;
    hide ClaimIsAt;
    hide CallersMatch;
    hide DriverMatches;
    hide PushMatches;
    hide BookMatches;
    if IsDriverAction(act) {
      at' := DriverStepMovesClaim(w, at, act);
      DriverStepKeepsCallers(w, at, act);
      DriverStepKeepsRest(w, at, act);
    } else if Claims(act) {
      at' := ClaimStepKeepsInv(w, at, act);
    } else {
      at' := CallerStepKeepsInv(w, at, act);
    }
  }

  // ---------------------------------------------------------------- whole runs

  function Run(w: World, acts: seq<Action>): Option<World>
    decreases |acts|
  {
    if acts == [] then Some(w)
    else
      match Apply(w, acts[0])
      case None => None
      case Some(w') => Run(w', acts[1..])
  }

  lemma {:induction false} RunKeepsInv(w: World, at: Option<Place>, acts: seq<Action>) returns (at': Option<Place>)
    requires Inv(w, at) && Run(w, acts).Some?
    ensures Inv(Run(w, acts).value, at')
    decreases |acts|
  {
    hide Apply;
    hide Inv;
    if acts == [] {
      at' := at;
    } else {
      var next := ApplyKeepsInv(w, at, acts[0]);
      at' := RunKeepsInv(Apply(w, acts[0]).value, next, acts[1..]);
    }
  }

  /**
   * Whatever formation was active at launch, in every interleaving, with callers and the driver dropped
   * anywhere, the flag is set exactly when one claim exists, and never two: no two mutating operations
   * overlap, the queue never holds two commands, and nobody who is gone still holds the flag.
   */
  lemma ClaimIsConserved(client: Client, acts: seq<Action>)
    requires Run(Launch(client), acts).Some?
    ensures var w := Run(Launch(client), acts).value;
      && (w.active <==> exists p :: Holds(w, p))
      && (forall p, q :: Holds(w, p) && Holds(w, q) ==> p == q)
      && |w.queue| <= 1
  {
    hide CallersMatch;
    hide DriverMatches;
    hide PushMatches;
    hide BookMatches;
    hide Holds;
    LaunchInv(client);
    var at := RunKeepsInv(Launch(client), None, acts);
    var w := Run(Launch(client), acts).value;
    if at.Some? {
      assert Holds(w, at.value);
    }
  }

  /** A caller with a command ready finds room in the queue: sending it never waits. */
  lemma SendNeverWaits(client: Client, acts: seq<Action>, a: CallerId)
    requires Run(Launch(client), acts).Some?
    requires var callers := Run(Launch(client), acts).value.callers;
      a in callers && (callers[a].PayReady? || callers[a].PlainClaimed?)
    ensures Apply(Run(Launch(client), acts).value, Send(a)).Some?
  {
    LaunchInv(client);
    var at := RunKeepsInv(Launch(client), None, acts);
    var w := Run(Launch(client), acts).value;
    assert Holds(w, AtCaller(a)) && (Holds(w, InQueue) <==> at == Some(InQueue));
    assert Holds(w, AtCaller(a)) <==> at == Some(AtCaller(a));
  }

  /**
   * In every interleaving a hook is revoked only in a step taken while no formation is active, so
   * the hook of a live formation is never among the revoked ones.
   */
  lemma LiveHookIsNeverRevoked(client: Client, acts: seq<Action>, act: Action)
    requires Run(Launch(client), acts).Some? && Apply(Run(Launch(client), acts).value, act).Some?
    ensures var w := Run(Launch(client), acts).value;
      var w' := Apply(w, act).value;
      && (w'.push.revoked != w.push.revoked ==> !w.client.started)
      && (w'.client.started && w'.client.live.Some? ==> w'.client.live.value !in w'.push.revoked)
  {
    LaunchInv(client);
    var at := RunKeepsInv(Launch(client), None, acts);
    var w := Run(Launch(client), acts).value;
    var at' := ApplyKeepsInv(w, at, act);
    RevokesOnlyUnstarted(w, at, act);
  }

  lemma RevokesOnlyUnstarted(w: World, at: Option<Place>, act: Action)
    requires Inv(w, at) && Apply(w, act).Some?
    ensures Apply(w, act).value.push.revoked != w.push.revoked ==> !w.client.started
  {
    hide CallerStep;
    hide BookMatches;
    hide ClaimIsAt;
    if !IsDriverAction(act) && !Claims(act) {
      CallerSharesWell(w, act);
    }
  }

  lemma AgreedStays(w: World, at: Option<Place>, act: Action)
    requires Inv(w, at) && Apply(w, act).Some?
    ensures BookGrows(w.book, Apply(w, act).value.book)
  {
    hide CallerStep;
    if !IsDriverAction(act) && !Claims(act) {
      CallerSharesWell(w, act);
    }
  }

  lemma {:induction false} RunKeepsAgreed(w: World, at: Option<Place>, acts: seq<Action>)
    requires Inv(w, at) && Run(w, acts).Some?
    ensures BookGrows(w.book, Run(w, acts).value.book)
    decreases |acts|
  {
    hide Apply;
    hide Inv;
    if acts != [] {
      AgreedStays(w, at, acts[0]);
      var next := ApplyKeepsInv(w, at, acts[0]);
      RunKeepsAgreed(Apply(w, acts[0]).value, next, acts[1..]);
    }
  }

  /** A payment command on its way to the external client, or being executed by it. */
  function Paying(w: World): Option<Operation> {
    if w.queue != [] && w.queue[0].op.PayAndCreate? then Some(w.queue[0].op)
    else if w.driver.Running? && w.driver.job.Serve? && w.driver.job.command.op.PayAndCreate?
    then Some(w.driver.job.command.op)
    else None
  }

  /** However often a preview's payment is retried, every command for it carries the same limit. */
  lemma OneLimitPerPreview(client: Client, acts: seq<Action>, more: seq<Action>)
    requires Run(Launch(client), acts).Some? && Run(Run(Launch(client), acts).value, more).Some?
    ensures var w := Run(Launch(client), acts).value;
      var first, later := Paying(w), Paying(Run(w, more).value);
      first.Some? && later.Some? && first.value.preview == later.value.preview ==>
        first.value.limit == later.value.limit
  {
    hide Apply;
    LaunchInv(client);
    var at := RunKeepsInv(Launch(client), None, acts);
    var w := Run(Launch(client), acts).value;
    var at' := RunKeepsInv(w, at, more);
    RunKeepsAgreed(w, at, more);
  }
}
