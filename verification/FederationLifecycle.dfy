/**
 * One federation's life: joining, loading, leaving and recovering, with the reader/writer lock around
 * its state, the lock that stands for an open client, and the calls that hold on to a client meanwhile.
 * Tasks interleave at every await.
 */
module FederationLifecycle {
  import opened Options

  type TaskId = nat
  type ClientId = nat

  datatype State =
    | NewForJoin
    | NewForLoad
    | LoadFailed
    | Normal(c: ClientId)
    | Recovering(c: ClientId)
    | Left
    | Dead

  datatype Task =
    | Joining                                   // waits for the write lock
    | JoinOpening                               // has the client's lock, opens the client
    | JoinOpened(c: ClientId, recovering: bool)
    | LoadWaiting
    | LoadOpening
    | LoadOpened(c: ClientId, recovering: bool)
    | Leaving
    | LeaveHolding(c: ClientId)                 // took the client out of the state
    | LeaveRemoved(c: ClientId)                 // and the federation out of storage
    | LeaveShut                                 // client shut down; its data is next
    | MonitorWaiting                            // waits for the read lock
    | MonitorWatching
    | MonitorUpgrading                          // recovered; waits for the write lock
    | MonitorHolding(c: ClientId)
    | MonitorShut                               // about to open the client again
    | MonitorOpened(c: ClientId)
    | Call(c: ClientId)                         // a clone of the client: some call's, or a background service's
    | Done

  datatype Holder = InTask(t: TaskId) | InClient(c: ClientId)

  /** Open clients, who holds the lock that stands for one, and a history: those opened in mid-recovery. */
  datatype Clients = Clients(guard: Option<Holder>, live: set<ClientId>, made: nat, recovered: set<ClientId>)

  datatype Storage = Storage(joined: bool, data: bool)

  datatype World = World(
    state: State,
    writer: Option<TaskId>,
    reader: Option<TaskId>,
    monitor: Option<TaskId>,      // the recovery monitor under way
    tasks: map<TaskId, Task>,
    clients: Clients,
    storage: Storage,
    orphan: Option<ClientId>,     // a client no task or state is responsible for, kept open by calls
    stalled: bool,                // history: a recovery has failed
    failed: bool,                 // history: a storage call or a shutdown failed, or a leave was dropped
    panicked: bool)

  /** A first start, or a restart with the federation joined and its load about to run. */
  const FRESH := World(NewForJoin, None, None, None, map[], Clients(None, {}, 0, {}),
                       Storage(false, false), None, false, false, false)
  const RESTARTED := World(NewForLoad, None, None, None, map[0 := LoadWaiting], Clients(None, {}, 0, {}),
                           Storage(true, true), None, false, false, false)

  datatype Action =
    | StartJoin(t: TaskId)
    | StartLeave(t: TaskId)
    | CloneClient(t: TaskId)
    | EndCall(t: TaskId)
    | BeginJoin(t: TaskId, joinable: bool)
    | BeginLoad(t: TaskId)
    | Open(t: TaskId, recovering: bool)     // a join, a load or the monitor gets its client open
    | FailOpening(t: TaskId)                // or does not; a join may also be dropped here
    | Publish(t: TaskId, monitor: TaskId)   // store the state, and spawn a monitor if recovering
    | BeginLeave(t: TaskId)
    | RemoveInfo(t: TaskId, ok: bool)
    | ShutDown(t: TaskId)
    | DeleteData(t: TaskId, ok: bool)
    | Abort(t: TaskId)                      // shutting the client down fails, or the leave is dropped
    | Watch(t: TaskId)
    | Recovered(t: TaskId, ok: bool)
    | TakeOver(t: TaskId)
    | FindNonceReuse(t: TaskId)

  function Put(w: World, t: TaskId, task: Task): World {
    w.(tasks := w.tasks[t := task])
  }

  predicate Free(w: World) {
    w.writer.None? && w.reader.None?
  }

  /** Nobody else has a clone of the client: `Arc::try_unwrap` succeeds. */
  predicate Unique(w: World, c: ClientId) {
    forall t :: t in w.tasks ==> w.tasks[t] != Call(c)
  }

  /** A panic unwinds its task, which gives up whatever it held. */
  function Panic(w: World, t: TaskId): World {
    Put(w.(panicked := true), t, Done)
  }

  predicate Starts(act: Action) {
    act.StartJoin? || act.StartLeave? || act.CloneClient?
  }

  predicate Begins(act: Action) {
    act.BeginJoin? || act.BeginLoad?
  }

  predicate Opens(act: Action) {
    act.Open? || act.FailOpening?
  }

  predicate Leaves(act: Action) {
    act.BeginLeave? || act.RemoveInfo? || act.ShutDown? || act.DeleteData? || act.Abort? || act.EndCall?
  }

  /** One step; `None` when it cannot be taken. */
  function Apply(w: World, act: Action): Option<World> {
    if Starts(act) then StartStep(w, act)
    else if act.t !in w.tasks then None
    else if Begins(act) then BeginStep(w, act, w.tasks[act.t])
    else if Opens(act) then OpenStep(w, act, w.tasks[act.t])
    else if Leaves(act) then LeaveStep(w, act, w.tasks[act.t])
    else if act.Publish? then PublishStep(w, act.t, act.monitor, w.tasks[act.t])
    else MonitorStep(w, act, w.tasks[act.t])
  }

  function StartStep(w: World, act: Action): Option<World>
    requires Starts(act)
  {
    if act.t in w.tasks then None
    else if act.StartJoin? then Some(Put(w, act.t, Joining))
    else if act.StartLeave? then Some(Put(w, act.t, Leaving))
    else if w.writer.None? && (w.state.Normal? || w.state.Recovering?) then Some(Put(w, act.t, Call(w.state.c)))
    else None
  }

  function OpenClient(cs: Clients, recovering: bool): Clients {
    Clients(Some(InClient(cs.made)), cs.live + {cs.made}, cs.made + 1,
            if recovering then cs.recovered + {cs.made} else cs.recovered)
  }

  function CloseClient(cs: Clients, c: ClientId, t: TaskId): Clients {
    Clients(Some(InTask(t)), cs.live - {c}, cs.made, cs.recovered)
  }

  /** The last owner of a client drops it: it closes, and its lock with it. */
  function DropClient(cs: Clients, c: ClientId): Clients {
    Clients(None, cs.live - {c}, cs.made, cs.recovered)
  }

  /**
   * A task returns early with the client in its hands and drops it. A call that still holds a clone
   * keeps the client open, and its lock held.
   */
  function GiveUp(w: World, t: TaskId, c: ClientId): World {
    var w' := Put(w.(writer := None, failed := true, monitor := if w.monitor == Some(t) then None else w.monitor),
                  t, Done);
    if Unique(w, c) then w'.(clients := DropClient(w.clients, c)) else w'.(orphan := Some(c))
  }

  /** A call drops its clone. The last one of an orphan closes it. */
  function LetGo(w: World, t: TaskId, c: ClientId): World {
    var w' := Put(w, t, Done);
    if w.orphan == Some(c) && Unique(w', c) then w'.(orphan := None, clients := DropClient(w.clients, c)) else w'
  }

  /** `join` and `load_from_db` up to the client's lock, which they expect to be free. */
  function BeginStep(w: World, act: Action, task: Task): Option<World>
    requires Begins(act)
  {
    var t := act.t;
    match act
    case BeginJoin(_, joinable) =>
      if !task.Joining? || !Free(w) then None
      else if (w.state != NewForJoin && w.state != Left) || !joinable then Some(Put(w, t, Done))
      else if w.clients.guard.Some? then Some(Panic(w, t))
      else Some(Put(w.(writer := Some(t), clients := w.clients.(guard := Some(InTask(t)))), t, JoinOpening))
    case BeginLoad(_) =>
      if !task.LoadWaiting? || !Free(w) then None
      else if w.state != NewForLoad || w.clients.guard.Some? then Some(Panic(w, t))
      else Some(Put(w.(writer := Some(t), clients := w.clients.(guard := Some(InTask(t)))), t, LoadOpening))
  }

  /** Opening a client, for a join, a load or the monitor. */
  function OpenStep(w: World, act: Action, task: Task): Option<World>
    requires Opens(act)
  {
    var t := act.t;
    match act
    case Open(_, recovering) =>
      var w' := w.(clients := OpenClient(w.clients, recovering && !task.MonitorShut?));
      if task.JoinOpening? then
        Some(Put(w'.(storage := Storage(true, true)), t, JoinOpened(w.clients.made, recovering)))
      else if task.LoadOpening? then Some(Put(w', t, LoadOpened(w.clients.made, recovering)))
      else if task.MonitorShut? then Some(Put(w', t, MonitorOpened(w.clients.made)))   // recovery is complete
      else None
    case FailOpening(_) =>
      var w' := Put(w.(writer := None, clients := w.clients.(guard := None)), t, Done);
      if task.JoinOpening? then Some(w')
      else if task.LoadOpening? then Some(w'.(state := LoadFailed))
      else if task.MonitorShut? then Some(w'.(state := LoadFailed, monitor := None))
      else None
  }

  /** Storing the new state under the write lock, with a monitor if the client is recovering. */
  function PublishStep(w: World, t: TaskId, m: TaskId, task: Task): Option<World> {
    if task.MonitorOpened? then
      Some(Put(w.(state := Normal(task.c), writer := None, monitor := None), t, Done))
    else if !task.JoinOpened? && !task.LoadOpened? then None
    else if !task.recovering then Some(Put(w.(state := Normal(task.c), writer := None), t, Done))
    else if m in w.tasks then None
    else Some(Put(Put(w.(state := Recovering(task.c), writer := None, monitor := Some(m)), t, Done), m, MonitorWaiting))
  }

  /** `leave` and `leave_internal`; and a call letting go of its clone. */
  function LeaveStep(w: World, act: Action, task: Task): Option<World>
    requires Leaves(act)
  {
    var t := act.t;
    match act
    case EndCall(_) =>
      if task.Call? then Some(LetGo(w, t, task.c)) else None
    case BeginLeave(_) =>
      if !task.Leaving? || !Free(w) then None
      else if !w.state.Normal? then Some(Put(w, t, Done))
      else Some(Put(w.(state := Left, writer := Some(t)), t, LeaveHolding(w.state.c)))
    case RemoveInfo(_, ok) =>
      if !task.LeaveHolding? then None
      else if ok && w.storage.joined then Some(Put(w.(storage := w.storage.(joined := false)), t, LeaveRemoved(task.c)))
      else if ok then Some(Panic(w, t))    // "federation must be present"
      else Some(GiveUp(w, t, task.c))
    case ShutDown(_) =>
      if (!task.LeaveRemoved? && !task.MonitorHolding?) || !Unique(w, task.c) then None
      else Some(Put(w.(clients := CloseClient(w.clients, task.c, t)), t,
                    if task.LeaveRemoved? then LeaveShut else MonitorShut))
    case Abort(_) =>
      if task.LeaveRemoved? || task.MonitorHolding? then Some(GiveUp(w, t, task.c)) else None
    case DeleteData(_, ok) =>
      if !task.LeaveShut? then None
      else Some(Put(w.(writer := None, clients := w.clients.(guard := None), failed := w.failed || !ok,
                       storage := if ok then w.storage.(data := false) else w.storage,
                       monitor := if w.monitor == Some(t) then None else w.monitor), t, Done))
  }

  /** `start_recovery_monitoring_inner`. */
  function MonitorStep(w: World, act: Action, task: Task): Option<World>
    requires act.Watch? || act.Recovered? || act.TakeOver? || act.FindNonceReuse?
  {
    var t := act.t;
    match act
    case Watch(_) =>
      if !task.MonitorWaiting? || w.writer.Some? then None
      else if !w.state.Recovering? then Some(Panic(w, t))
      else Some(Put(w.(reader := Some(t)), t, MonitorWatching))
    case Recovered(_, ok) =>
      if !task.MonitorWatching? then None
      else if ok then Some(Put(w.(reader := None), t, MonitorUpgrading))
      else Some(Put(w.(reader := None, monitor := None, stalled := true), t, Done))
    case TakeOver(_) =>
      if !task.MonitorUpgrading? || !Free(w) then None
      else if !w.state.Recovering? then Some(Panic(w, t))
      else Some(Put(w.(writer := Some(t), state := Dead), t, MonitorHolding(w.state.c)))
    case FindNonceReuse(_) =>
      if !task.MonitorOpened? then None
      else Some(Put(w.(state := Left), t, LeaveHolding(task.c)))
  }

  // ---------------------------------------------------------------- invariant

  predicate Writes(task: Task) {
    match task
    case JoinOpening => true
    case JoinOpened(_, _) => true
    case LoadOpening => true
    case LoadOpened(_, _) => true
    case LeaveHolding(_) => true
    case LeaveRemoved(_) => true
    case LeaveShut => true
    case MonitorHolding(_) => true
    case MonitorShut => true
    case MonitorOpened(_) => true
    case _ => false
  }

  predicate Monitors(task: Task) {
    task.MonitorWaiting? || task.MonitorWatching? || task.MonitorUpgrading? || task.MonitorHolding?
    || task.MonitorShut? || task.MonitorOpened?
  }

  /** The locks are held by the tasks whose stage says so, and one monitor is under way at most. */
  ghost predicate LocksMatch(w: World) {
    && (forall t :: t in w.tasks ==>
          && (Writes(w.tasks[t]) <==> w.writer == Some(t))
          && (w.tasks[t].MonitorWatching? <==> w.reader == Some(t))
          && (Monitors(w.tasks[t]) ==> w.monitor == Some(t)))
    && (w.writer.Some? ==> w.writer.value in w.tasks && w.reader.None?)
    && (w.reader.Some? ==> w.reader.value in w.tasks)
    && (w.monitor.Some? ==> w.monitor.value in w.tasks)
  }

  /** Where the client is: nowhere, between two clients in a task's hands, or open. */
  datatype Seat = Nobody | Carried(t: TaskId) | Opened(c: ClientId)

  function SeatOf(w: World): Seat {
    if w.writer.Some? && w.writer.value in w.tasks then
      match w.tasks[w.writer.value]
      case JoinOpened(c, _) => Opened(c)
      case LoadOpened(c, _) => Opened(c)
      case LeaveHolding(c) => Opened(c)
      case LeaveRemoved(c) => Opened(c)
      case MonitorHolding(c) => Opened(c)
      case MonitorOpened(c) => Opened(c)
      case _ => Carried(w.writer.value)
    else if w.state.Normal? || w.state.Recovering? then Opened(w.state.c)
    else if w.orphan.Some? then Opened(w.orphan.value)
    else Nobody
  }

  predicate ClientsMatch(w: World) {
    match SeatOf(w)
    case Nobody => w.clients.guard.None? && w.clients.live == {}
    case Carried(t) => w.clients.guard == Some(InTask(t)) && w.clients.live == {}
    case Opened(c) => w.clients.guard == Some(InClient(c)) && w.clients.live == {c} && c < w.clients.made
  }

  /** Calls hold clones of the open client only. */
  ghost predicate CallsMatch(w: World) {
    forall t :: t in w.tasks && w.tasks[t].Call? ==> SeatOf(w) == Opened(w.tasks[t].c)
  }

  /** An orphan is left by a failure, and held by some call. */
  ghost predicate OrphanMatches(w: World) {
    w.orphan.Some? ==>
      w.failed && w.writer.None? && (w.state == Left || w.state == Dead) && !Unique(w, w.orphan.value)
  }

  /** How the state goes with the writer and with storage. */
  ghost predicate WriterFits(w: World) {
    && (w.writer.None? ==>
          && (w.state == Dead ==> w.failed)
          && (w.state.Normal? || w.state.Recovering? ==> w.storage == Storage(true, true)))
    && (w.writer.Some? && w.writer.value in w.tasks ==>
          var task := w.tasks[w.writer.value];
          && (task.JoinOpening? || task.JoinOpened? ==> w.state == NewForJoin || w.state == Left)
          && (task.LoadOpening? || task.LoadOpened? ==> w.state == NewForLoad)
          && (task.LeaveHolding? || task.LeaveRemoved? || task.LeaveShut? ==> w.state == Left)
          && (task.MonitorHolding? || task.MonitorShut? || task.MonitorOpened? ==> w.state == Dead)
          && (!task.JoinOpening? && !task.LeaveRemoved? && !task.LeaveShut? ==> w.storage == Storage(true, true)))
    && (w.state == NewForLoad ==> w.storage == Storage(true, true))
  }

  /** A monitor is under way while its federation recovers, and until it has reopened or left it. */
  ghost predicate MonitorFits(w: World) {
    w.monitor.Some? && w.monitor.value in w.tasks ==>
      var task := w.tasks[w.monitor.value];
      && (Monitors(task) && !Writes(task) ==> w.state.Recovering?)
      && (Monitors(task) || task.LeaveHolding? || task.LeaveRemoved? || task.LeaveShut?)
  }

  /** The one load at start finds the state it expects. */
  ghost predicate LoadsFit(w: World) {
    && (forall t :: t in w.tasks && w.tasks[t].LoadWaiting? ==> w.state == NewForLoad && w.writer.None?)
    && (forall t, u :: t in w.tasks && u in w.tasks && w.tasks[t].LoadWaiting? && w.tasks[u].LoadWaiting? ==> t == u)
  }

  ghost predicate StateMatches(w: World) {
    WriterFits(w) && MonitorFits(w) && LoadsFit(w)
  }

  ghost predicate Inv(w: World) {
    LocksMatch(w) && ClientsMatch(w) && CallsMatch(w) && StateMatches(w) && OrphanMatches(w)
  }

  lemma StartInv()
    ensures Inv(FRESH) && Inv(RESTARTED)
  {
  }

  // ---------------------------------------------------------------- one task moves

  /** A step of one task, seen from the locks. */
  ghost predicate MovesLocks(w: World, w': World, t: TaskId)
    requires t in w.tasks
  {
    && t in w'.tasks && w'.tasks == w.tasks[t := w'.tasks[t]]
    && var task, task' := w.tasks[t], w'.tasks[t];
       && (|| (Writes(task') == Writes(task) && w'.writer == w.writer)
           || (!Writes(task) && Writes(task') && Free(w) && w'.writer == Some(t))
           || (Writes(task) && !Writes(task') && w'.writer.None?))
       && (|| (task'.MonitorWatching? == task.MonitorWatching? && w'.reader == w.reader)
           || (task'.MonitorWatching? && !Writes(task') && Free(w) && w'.reader == Some(t))
           || (task.MonitorWatching? && !task'.MonitorWatching? && w'.reader.None?))
       && (Monitors(task') ==> Monitors(task))
       && (w'.monitor == w.monitor || (w'.monitor.None? && w.monitor == Some(t) && !Monitors(task')))
  }

  /** A clone stays while its own task does not let it go. */
  lemma ClonesStay(w: World, w': World, t: TaskId, c: ClientId)
    requires t in w'.tasks && w'.tasks == w.tasks[t := w'.tasks[t]]
    requires t in w.tasks ==> w.tasks[t] != Call(c)
    ensures !Unique(w, c) ==> !Unique(w', c)
  {
    if !Unique(w, c) {
      var u :| u in w.tasks && w.tasks[u] == Call(c);
      assert w'.tasks[u] == Call(c);
    }
  }

  lemma OnlyTasksMatter(w: World, w': World)
    requires w'.tasks == w.tasks
    ensures forall c :: Unique(w', c) <==> Unique(w, c)
  {
  }

  lemma MoveKeepsLocks(w: World, w': World, t: TaskId)
    requires LocksMatch(w) && t in w.tasks && MovesLocks(w, w', t)
    ensures LocksMatch(w')
  {
  }

  /** A join that expects the client's lock free, while an orphan has it. */
  predicate FindsOrphan(w: World, act: Action) {
    act.BeginJoin? && act.joinable && w.state == Left && w.orphan.Some?
  }

  lemma OrphanHoldsLock(w: World)
    requires Inv(w)
    ensures w.orphan.Some? ==> w.clients.guard.Some?
  {
  }

  lemma BeginStepPanicsIff(w: World, act: Action)
    requires Inv(w)
    requires Begins(act) && act.t in w.tasks
    requires BeginStep(w, act, w.tasks[act.t]).Some?
    ensures BeginStep(w, act, w.tasks[act.t]).value.panicked <==> w.panicked || FindsOrphan(w, act)
  {
    hide CallsMatch;
    hide Unique;
  }

  lemma BeginStepMoves(w: World, act: Action)
    requires Inv(w)
    requires Begins(act) && act.t in w.tasks
    requires BeginStep(w, act, w.tasks[act.t]).Some?
    ensures MovesLocks(w, BeginStep(w, act, w.tasks[act.t]).value, act.t)
  {
    hide Inv;
    hide Unique;
  }

  lemma BeginJoinKeepsClients(w: World, act: Action)
    requires Inv(w)
    requires Begins(act) && act.t in w.tasks
    requires BeginStep(w, act, w.tasks[act.t]).Some?
    requires act.BeginJoin?
    ensures ClientsMatch(BeginStep(w, act, w.tasks[act.t]).value)
  {
    hide OrphanMatches;
    hide CallsMatch;
    hide Unique;
  }

  lemma BeginLoadKeepsClients(w: World, act: Action)
    requires Inv(w)
    requires Begins(act) && act.t in w.tasks
    requires BeginStep(w, act, w.tasks[act.t]).Some?
    requires !act.BeginJoin?
    ensures ClientsMatch(BeginStep(w, act, w.tasks[act.t]).value)
  {
    hide OrphanMatches;
    hide CallsMatch;
    hide Unique;
  }

  lemma BeginStepKeepsClients(w: World, act: Action)
    requires Inv(w)
    requires Begins(act) && act.t in w.tasks
    requires BeginStep(w, act, w.tasks[act.t]).Some?
    ensures ClientsMatch(BeginStep(w, act, w.tasks[act.t]).value)
  {
    hide Inv;
    hide BeginStep;
    hide ClientsMatch;
    if act.BeginJoin? {
      BeginJoinKeepsClients(w, act);
    } else {
      BeginLoadKeepsClients(w, act);
    }
  }

  /** What the locks say of one task. */
  lemma TaskLocks(w: World, t: TaskId)
    requires LocksMatch(w) && t in w.tasks
    ensures Writes(w.tasks[t]) <==> w.writer == Some(t)
    ensures w.tasks[t].MonitorWatching? <==> w.reader == Some(t)
    ensures Monitors(w.tasks[t]) ==> w.monitor == Some(t)
  {
  }

  /** Without an open client there are no clones. */
  lemma NoCallsUnlessOpen(w: World)
    requires Inv(w) && (w.clients.guard.None? || w.clients.guard.value.InTask?)
    ensures forall t :: t in w.tasks ==> !w.tasks[t].Call?
  {
    hide LocksMatch;
    hide StateMatches;
    hide OrphanMatches;
    hide SeatOf;
  }

  lemma OpeningHasLock(w: World, t: TaskId)
    requires Inv(w) && t in w.tasks && (w.tasks[t].JoinOpening? || w.tasks[t].LoadOpening? || w.tasks[t].MonitorShut?)
    ensures w.clients.guard == Some(InTask(t)) && w.clients.live == {} && w.writer == Some(t)
  {
    hide CallsMatch;
    hide StateMatches;
    hide OrphanMatches;
    TaskLocks(w, t);
  }

  lemma BeginStepKeepsCalls(w: World, act: Action)
    requires Inv(w)
    requires Begins(act) && act.t in w.tasks
    requires BeginStep(w, act, w.tasks[act.t]).Some?
    ensures CallsMatch(BeginStep(w, act, w.tasks[act.t]).value)
  {
    hide LocksMatch;
    hide ClientsMatch;
    hide StateMatches;
    hide OrphanMatches;
    hide Unique;
    if w.clients.guard.None? {
      NoCallsUnlessOpen(w);
    }
  }

  lemma BeginStepKeepsOrphan(w: World, act: Action)
    requires Inv(w)
    requires Begins(act) && act.t in w.tasks
    requires BeginStep(w, act, w.tasks[act.t]).Some?
    ensures OrphanMatches(BeginStep(w, act, w.tasks[act.t]).value)
  {
    hide ClientsMatch;
    hide CallsMatch;
    hide SeatOf;
    hide Unique;
    OrphanHoldsLock(w);
    if w.orphan.Some? && !w.tasks[act.t].Call? {
      ClonesStay(w, BeginStep(w, act, w.tasks[act.t]).value, act.t, w.orphan.value);
    }
  }

  lemma BeginJoinKeepsState(w: World, act: Action)
    requires Inv(w)
    requires Begins(act) && act.t in w.tasks
    requires BeginStep(w, act, w.tasks[act.t]).Some?
    requires act.BeginJoin?
    ensures StateMatches(BeginStep(w, act, w.tasks[act.t]).value)
  {
    hide OrphanMatches;
    hide ClientsMatch;
    hide CallsMatch;
    hide Unique;
  }

  lemma BeginLoadKeepsState(w: World, act: Action)
    requires Inv(w)
    requires Begins(act) && act.t in w.tasks
    requires BeginStep(w, act, w.tasks[act.t]).Some?
    requires !act.BeginJoin?
    ensures StateMatches(BeginStep(w, act, w.tasks[act.t]).value)
  {
    hide OrphanMatches;
    hide ClientsMatch;
    hide CallsMatch;
    hide Unique;
  }

  lemma BeginStepKeepsState(w: World, act: Action)
    requires Inv(w)
    requires Begins(act) && act.t in w.tasks
    requires BeginStep(w, act, w.tasks[act.t]).Some?
    ensures StateMatches(BeginStep(w, act, w.tasks[act.t]).value)
  {
    hide Inv;
    hide BeginStep;
    hide StateMatches;
    if act.BeginJoin? {
      BeginJoinKeepsState(w, act);
    } else {
      BeginLoadKeepsState(w, act);
    }
  }

  lemma LeavingIsStored(w: World, t: TaskId)
    requires Inv(w) && t in w.tasks && w.tasks[t].LeaveHolding?
    ensures w.storage.joined
  {
    hide ClientsMatch;
    hide CallsMatch;
    hide OrphanMatches;
    TaskLocks(w, t);
  }

  lemma InvIsLocks(w: World)
    requires Inv(w)
    ensures LocksMatch(w)
  {
  }

  lemma OpenMoves(w: World, act: Action)
    requires LocksMatch(w) && act.Open? && act.t in w.tasks && OpenStep(w, act, w.tasks[act.t]).Some?
    ensures OpenStep(w, act, w.tasks[act.t]).value.panicked == w.panicked
    ensures MovesLocks(w, OpenStep(w, act, w.tasks[act.t]).value, act.t)
  {
    hide LocksMatch;
    TaskLocks(w, act.t);
  }

  lemma FailOpeningMoves(w: World, act: Action)
    requires LocksMatch(w) && act.FailOpening? && act.t in w.tasks && OpenStep(w, act, w.tasks[act.t]).Some?
    ensures OpenStep(w, act, w.tasks[act.t]).value.panicked == w.panicked
    ensures MovesLocks(w, OpenStep(w, act, w.tasks[act.t]).value, act.t)
  {
    hide LocksMatch;
    TaskLocks(w, act.t);
  }

  lemma OpenStepMoves(w: World, act: Action)
    requires Inv(w)
    requires Opens(act) && act.t in w.tasks
    requires OpenStep(w, act, w.tasks[act.t]).Some?
    ensures OpenStep(w, act, w.tasks[act.t]).value.panicked == w.panicked
    ensures MovesLocks(w, OpenStep(w, act, w.tasks[act.t]).value, act.t)
  {
    hide OpenStep;
    hide MovesLocks;
    InvIsLocks(w);
    hide Inv;
    if act.Open? {
      OpenMoves(w, act);
    } else {
      FailOpeningMoves(w, act);
    }
  }

  lemma OpenKeepsClients(w: World, act: Action)
    requires Inv(w)
    requires Opens(act) && act.t in w.tasks
    requires OpenStep(w, act, w.tasks[act.t]).Some?
    requires act.Open?
    ensures ClientsMatch(OpenStep(w, act, w.tasks[act.t]).value)
  {
    hide Inv;
    hide Unique;
    if w.tasks[act.t].JoinOpening? || w.tasks[act.t].LoadOpening? || w.tasks[act.t].MonitorShut? {
      OpeningHasLock(w, act.t);
    }
  }

  lemma FailOpeningKeepsClients(w: World, act: Action)
    requires Inv(w)
    requires Opens(act) && act.t in w.tasks
    requires OpenStep(w, act, w.tasks[act.t]).Some?
    requires !act.Open?
    ensures ClientsMatch(OpenStep(w, act, w.tasks[act.t]).value)
  {
    hide CallsMatch;
    hide Unique;
  }

  lemma OpenStepKeepsClients(w: World, act: Action)
    requires Inv(w)
    requires Opens(act) && act.t in w.tasks
    requires OpenStep(w, act, w.tasks[act.t]).Some?
    ensures ClientsMatch(OpenStep(w, act, w.tasks[act.t]).value)
  {
    hide Inv;
    hide OpenStep;
    hide ClientsMatch;
    if act.Open? {
      OpenKeepsClients(w, act);
    } else {
      FailOpeningKeepsClients(w, act);
    }
  }

  lemma OpenStepKeepsCalls(w: World, act: Action)
    requires Inv(w)
    requires Opens(act) && act.t in w.tasks
    requires OpenStep(w, act, w.tasks[act.t]).Some?
    ensures CallsMatch(OpenStep(w, act, w.tasks[act.t]).value)
  {
    hide Inv;
    hide SeatOf;
    var t := act.t;
    if w.tasks[t].JoinOpening? || w.tasks[t].LoadOpening? || w.tasks[t].MonitorShut? {
      OpeningHasLock(w, t);
      NoCallsUnlessOpen(w);
    }
  }

  lemma OpenStepKeepsOrphan(w: World, act: Action)
    requires Inv(w)
    requires Opens(act) && act.t in w.tasks
    requires OpenStep(w, act, w.tasks[act.t]).Some?
    ensures OrphanMatches(OpenStep(w, act, w.tasks[act.t]).value)
  {
    hide ClientsMatch;
    hide CallsMatch;
    hide SeatOf;
    hide Unique;
  }

  /** A load only waits while nobody writes. */
  lemma WritersLeaveNoLoads(w: World, w': World, t: TaskId)
    requires LoadsFit(w) && w.writer.Some? && w'.tasks.Keys == w.tasks.Keys + {t}
    requires t in w'.tasks && !w'.tasks[t].LoadWaiting?
    requires forall u :: u in w.tasks && u != t ==> w'.tasks[u] == w.tasks[u]
    ensures LoadsFit(w')
  {
  }

  lemma OpenKeepsWriterFits(w: World, act: Action)
    requires Inv(w)
    requires Opens(act) && act.t in w.tasks
    requires OpenStep(w, act, w.tasks[act.t]).Some?
    requires act.Open?
    ensures WriterFits(OpenStep(w, act, w.tasks[act.t]).value)
  {
    hide LocksMatch;
    hide MonitorFits;
    hide LoadsFit;
    hide OrphanMatches;
    hide ClientsMatch;
    hide CallsMatch;
    hide SeatOf;
    hide Unique;
    TaskLocks(w, act.t);
  }

  lemma OpenKeepsMonitorFits(w: World, act: Action)
    requires Inv(w)
    requires Opens(act) && act.t in w.tasks
    requires OpenStep(w, act, w.tasks[act.t]).Some?
    requires act.Open?
    ensures MonitorFits(OpenStep(w, act, w.tasks[act.t]).value)
  {
    hide LoadsFit;
    hide OrphanMatches;
    hide ClientsMatch;
    hide CallsMatch;
    hide SeatOf;
    hide Unique;
  }

  lemma OpenKeepsLoadsFit(w: World, act: Action)
    requires Inv(w)
    requires Opens(act) && act.t in w.tasks
    requires OpenStep(w, act, w.tasks[act.t]).Some?
    requires act.Open?
    ensures LoadsFit(OpenStep(w, act, w.tasks[act.t]).value)
  {
    hide WriterFits;
    hide MonitorFits;
    hide OrphanMatches;
    hide ClientsMatch;
    hide CallsMatch;
    hide SeatOf;
    hide Unique;
    hide LoadsFit;
    assert w.writer == Some(act.t) by {
      assert Writes(w.tasks[act.t]);
    }
    WritersLeaveNoLoads(w, OpenStep(w, act, w.tasks[act.t]).value, act.t);
  }

  lemma OpenKeepsState(w: World, act: Action)
    requires Inv(w)
    requires Opens(act) && act.t in w.tasks
    requires OpenStep(w, act, w.tasks[act.t]).Some?
    requires act.Open?
    ensures StateMatches(OpenStep(w, act, w.tasks[act.t]).value)
  {
    hide Inv;
    hide OpenStep;
    hide WriterFits;
    hide MonitorFits;
    hide LoadsFit;
    OpenKeepsWriterFits(w, act);
    OpenKeepsMonitorFits(w, act);
    OpenKeepsLoadsFit(w, act);
  }

  lemma FailOpeningKeepsState(w: World, act: Action)
    requires Inv(w)
    requires Opens(act) && act.t in w.tasks
    requires OpenStep(w, act, w.tasks[act.t]).Some?
    requires !act.Open?
    ensures StateMatches(OpenStep(w, act, w.tasks[act.t]).value)
  {
    hide OrphanMatches;
    hide ClientsMatch;
    hide CallsMatch;
    hide SeatOf;
    hide Unique;
  }

  lemma OpenStepKeepsState(w: World, act: Action)
    requires Inv(w)
    requires Opens(act) && act.t in w.tasks
    requires OpenStep(w, act, w.tasks[act.t]).Some?
    ensures StateMatches(OpenStep(w, act, w.tasks[act.t]).value)
  {
    hide Inv;
    hide OpenStep;
    hide StateMatches;
    if act.Open? {
      OpenKeepsState(w, act);
    } else {
      FailOpeningKeepsState(w, act);
    }
  }

  lemma GiveUpMoves(w: World, t: TaskId)
    requires Inv(w)
    requires t in w.tasks && (w.tasks[t].LeaveHolding? || w.tasks[t].LeaveRemoved? || w.tasks[t].MonitorHolding?)
    ensures MovesLocks(w, GiveUp(w, t, w.tasks[t].c), t)
  {
    hide CallsMatch;
    hide SeatOf;
    hide Unique;
  }

  lemma GiveUpKeepsClients(w: World, t: TaskId)
    requires Inv(w)
    requires t in w.tasks && (w.tasks[t].LeaveHolding? || w.tasks[t].LeaveRemoved? || w.tasks[t].MonitorHolding?)
    ensures ClientsMatch(GiveUp(w, t, w.tasks[t].c))
  {
  }

  lemma GiveUpKeepsCalls(w: World, t: TaskId)
    requires Inv(w)
    requires t in w.tasks && (w.tasks[t].LeaveHolding? || w.tasks[t].LeaveRemoved? || w.tasks[t].MonitorHolding?)
    ensures CallsMatch(GiveUp(w, t, w.tasks[t].c))
  {
    hide ClientsMatch;
  }

  lemma GiveUpKeepsOrphan(w: World, t: TaskId)
    requires Inv(w)
    requires t in w.tasks && (w.tasks[t].LeaveHolding? || w.tasks[t].LeaveRemoved? || w.tasks[t].MonitorHolding?)
    ensures OrphanMatches(GiveUp(w, t, w.tasks[t].c))
  {
    hide ClientsMatch;
    hide CallsMatch;
    hide SeatOf;
    hide Unique;
    ClonesStay(w, GiveUp(w, t, w.tasks[t].c), t, w.tasks[t].c);
  }

  lemma GiveUpKeepsState(w: World, t: TaskId)
    requires Inv(w)
    requires t in w.tasks && (w.tasks[t].LeaveHolding? || w.tasks[t].LeaveRemoved? || w.tasks[t].MonitorHolding?)
    ensures StateMatches(GiveUp(w, t, w.tasks[t].c))
  {
    hide CallsMatch;
    hide SeatOf;
    hide Unique;
  }

  lemma LetGoMoves(w: World, t: TaskId)
    requires Inv(w)
    requires t in w.tasks && w.tasks[t].Call?
    ensures MovesLocks(w, LetGo(w, t, w.tasks[t].c), t)
  {
    hide CallsMatch;
    hide SeatOf;
    hide Unique;
  }

  lemma LetGoKeepsClients(w: World, t: TaskId)
    requires Inv(w)
    requires t in w.tasks && w.tasks[t].Call?
    ensures ClientsMatch(LetGo(w, t, w.tasks[t].c))
  {
  }

  lemma LetGoKeepsCalls(w: World, t: TaskId)
    requires Inv(w)
    requires t in w.tasks && w.tasks[t].Call?
    ensures CallsMatch(LetGo(w, t, w.tasks[t].c))
  {
    hide ClientsMatch;
  }

  lemma LetGoKeepsOrphan(w: World, t: TaskId)
    requires Inv(w)
    requires t in w.tasks && w.tasks[t].Call?
    ensures OrphanMatches(LetGo(w, t, w.tasks[t].c))
  {
    hide ClientsMatch;
    hide CallsMatch;
    hide SeatOf;
    hide Unique;
    if w.orphan.Some? && w.orphan.value != w.tasks[t].c {
      ClonesStay(w, Put(w, t, Done), t, w.orphan.value);
    }
    OnlyTasksMatter(Put(w, t, Done), LetGo(w, t, w.tasks[t].c));
  }

  lemma LetGoKeepsState(w: World, t: TaskId)
    requires Inv(w)
    requires t in w.tasks && w.tasks[t].Call?
    ensures StateMatches(LetGo(w, t, w.tasks[t].c))
  {
    hide CallsMatch;
    hide SeatOf;
    hide Unique;
  }

  lemma LeaveStepMoves(w: World, act: Action)
    requires Inv(w)
    requires Leaves(act) && act.t in w.tasks
    requires LeaveStep(w, act, w.tasks[act.t]).Some?
    ensures MovesLocks(w, LeaveStep(w, act, w.tasks[act.t]).value, act.t)
  {
    hide LocksMatch;
    hide ClientsMatch;
    hide CallsMatch;
    hide StateMatches;
    hide OrphanMatches;
    hide GiveUp;
    hide LetGo;
    hide Unique;
    var t := act.t;
    TaskLocks(w, t);
    if w.tasks[t].LeaveHolding? || w.tasks[t].LeaveRemoved? || w.tasks[t].MonitorHolding? {
      GiveUpMoves(w, t);
      if w.tasks[t].LeaveHolding? {
        LeavingIsStored(w, t);
      }
    } else if w.tasks[t].Call? {
      LetGoMoves(w, t);
    }
  }

  lemma LeaveStepIsQuiet(w: World, act: Action)
    requires Inv(w)
    requires Leaves(act) && act.t in w.tasks
    requires LeaveStep(w, act, w.tasks[act.t]).Some?
    ensures LeaveStep(w, act, w.tasks[act.t]).value.panicked == w.panicked
  {
    hide Inv;
    hide Unique;
    if w.tasks[act.t].LeaveHolding? {
      LeavingIsStored(w, act.t);
    }
  }

  lemma LeaveStepKeepsClients(w: World, act: Action)
    requires Inv(w)
    requires Leaves(act) && act.t in w.tasks
    requires LeaveStep(w, act, w.tasks[act.t]).Some?
    ensures ClientsMatch(LeaveStep(w, act, w.tasks[act.t]).value)
  {
    hide GiveUp;
    hide LetGo;
    hide CallsMatch;
    hide Unique;
    var t := act.t;
    if w.tasks[t].LeaveHolding? || w.tasks[t].LeaveRemoved? || w.tasks[t].MonitorHolding? {
      GiveUpKeepsClients(w, t);
    } else if w.tasks[t].Call? {
      LetGoKeepsClients(w, t);
    }
  }

  lemma LeaveStepKeepsCalls(w: World, act: Action)
    requires Inv(w)
    requires Leaves(act) && act.t in w.tasks
    requires LeaveStep(w, act, w.tasks[act.t]).Some?
    ensures CallsMatch(LeaveStep(w, act, w.tasks[act.t]).value)
  {
    hide OrphanMatches;
    hide GiveUp;
    hide LetGo;
    hide ClientsMatch;
    var t := act.t;
    if w.tasks[t].LeaveHolding? || w.tasks[t].LeaveRemoved? || w.tasks[t].MonitorHolding? {
      GiveUpKeepsCalls(w, t);
    } else if w.tasks[t].Call? {
      LetGoKeepsCalls(w, t);
    }
  }

  lemma LeaveStepKeepsOrphan(w: World, act: Action)
    requires Inv(w)
    requires Leaves(act) && act.t in w.tasks
    requires LeaveStep(w, act, w.tasks[act.t]).Some?
    ensures OrphanMatches(LeaveStep(w, act, w.tasks[act.t]).value)
  {
    hide GiveUp;
    hide LetGo;
    hide ClientsMatch;
    hide CallsMatch;
    hide SeatOf;
    hide Unique;
    var t := act.t;
    if w.tasks[t].LeaveHolding? || w.tasks[t].LeaveRemoved? || w.tasks[t].MonitorHolding? {
      GiveUpKeepsOrphan(w, t);
    } else if w.tasks[t].Call? {
      LetGoKeepsOrphan(w, t);
    } else if w.orphan.Some? {
      ClonesStay(w, LeaveStep(w, act, w.tasks[t]).value, t, w.orphan.value);
    }
  }

  lemma LeaveKeepsWriterFits(w: World, act: Action)
    requires Inv(w)
    requires Leaves(act) && act.t in w.tasks
    requires LeaveStep(w, act, w.tasks[act.t]).Some?
    ensures WriterFits(LeaveStep(w, act, w.tasks[act.t]).value)
  {
    hide MonitorFits;
    hide LoadsFit;
    hide OrphanMatches;
    hide GiveUp;
    hide LetGo;
    hide ClientsMatch;
    hide CallsMatch;
    hide SeatOf;
    hide Unique;
    var t := act.t;
    if w.tasks[t].LeaveHolding? || w.tasks[t].LeaveRemoved? || w.tasks[t].MonitorHolding? {
      GiveUpKeepsState(w, t);
    } else if w.tasks[t].Call? {
      LetGoKeepsState(w, t);
    }
  }

  lemma LeaveKeepsMonitorFits(w: World, act: Action)
    requires Inv(w)
    requires Leaves(act) && act.t in w.tasks
    requires LeaveStep(w, act, w.tasks[act.t]).Some?
    ensures MonitorFits(LeaveStep(w, act, w.tasks[act.t]).value)
  {
    hide LoadsFit;
    hide OrphanMatches;
    hide GiveUp;
    hide LetGo;
    hide ClientsMatch;
    hide CallsMatch;
    hide SeatOf;
    hide Unique;
    var t := act.t;
    if w.tasks[t].LeaveHolding? || w.tasks[t].LeaveRemoved? || w.tasks[t].MonitorHolding? {
      GiveUpKeepsState(w, t);
    } else if w.tasks[t].Call? {
      LetGoKeepsState(w, t);
    }
  }

  /** A load waits only for the state it was made for, and while nobody writes. */
  lemma LoadsStay(w: World, w': World, t: TaskId)
    requires LoadsFit(w) && t in w'.tasks && w'.tasks == w.tasks[t := w'.tasks[t]] && !w'.tasks[t].LoadWaiting?
    requires (w'.state == w.state && w'.writer == w.writer) || w.state != NewForLoad || w.writer.Some?
    ensures LoadsFit(w')
  {
  }

  lemma LeaveKeepsLoadsFit(w: World, act: Action)
    requires Inv(w)
    requires Leaves(act) && act.t in w.tasks
    requires LeaveStep(w, act, w.tasks[act.t]).Some?
    ensures LoadsFit(LeaveStep(w, act, w.tasks[act.t]).value)
  {
    hide LoadsFit;
    hide WriterFits;
    hide MonitorFits;
    hide OrphanMatches;
    hide LocksMatch;
    hide ClientsMatch;
    hide CallsMatch;
    hide SeatOf;
    hide Unique;
    TaskLocks(w, act.t);
    LoadsStay(w, LeaveStep(w, act, w.tasks[act.t]).value, act.t);
  }

  lemma LeaveStepKeepsState(w: World, act: Action)
    requires Inv(w)
    requires Leaves(act) && act.t in w.tasks
    requires LeaveStep(w, act, w.tasks[act.t]).Some?
    ensures StateMatches(LeaveStep(w, act, w.tasks[act.t]).value)
  {
    hide Inv;
    hide LeaveStep;
    hide WriterFits;
    hide MonitorFits;
    hide LoadsFit;
    LeaveKeepsWriterFits(w, act);
    LeaveKeepsMonitorFits(w, act);
    LeaveKeepsLoadsFit(w, act);
  }

  lemma MonitorStepMoves(w: World, act: Action)
    requires Inv(w)
    requires (act.Watch? || act.Recovered? || act.TakeOver? || act.FindNonceReuse?) && act.t in w.tasks
    requires MonitorStep(w, act, w.tasks[act.t]).Some?
    ensures MonitorStep(w, act, w.tasks[act.t]).value.panicked == w.panicked
    ensures MovesLocks(w, MonitorStep(w, act, w.tasks[act.t]).value, act.t)
  {
    hide OrphanMatches;
    hide CallsMatch;
    hide SeatOf;
    hide Unique;
  }

  lemma MonitorStepKeepsClients(w: World, act: Action)
    requires Inv(w)
    requires (act.Watch? || act.Recovered? || act.TakeOver? || act.FindNonceReuse?) && act.t in w.tasks
    requires MonitorStep(w, act, w.tasks[act.t]).Some?
    ensures ClientsMatch(MonitorStep(w, act, w.tasks[act.t]).value)
  {
    hide OrphanMatches;
    hide CallsMatch;
    hide Unique;
  }

  lemma MonitorStepKeepsCalls(w: World, act: Action)
    requires Inv(w)
    requires (act.Watch? || act.Recovered? || act.TakeOver? || act.FindNonceReuse?) && act.t in w.tasks
    requires MonitorStep(w, act, w.tasks[act.t]).Some?
    ensures CallsMatch(MonitorStep(w, act, w.tasks[act.t]).value)
  {
    hide OrphanMatches;
    hide ClientsMatch;
  }

  lemma MonitorStepKeepsOrphan(w: World, act: Action)
    requires Inv(w)
    requires (act.Watch? || act.Recovered? || act.TakeOver? || act.FindNonceReuse?) && act.t in w.tasks
    requires MonitorStep(w, act, w.tasks[act.t]).Some?
    ensures OrphanMatches(MonitorStep(w, act, w.tasks[act.t]).value)
  {
    hide ClientsMatch;
    hide CallsMatch;
    hide SeatOf;
    hide Unique;
  }

  lemma MonitorStepKeepsState(w: World, act: Action)
    requires Inv(w)
    requires (act.Watch? || act.Recovered? || act.TakeOver? || act.FindNonceReuse?) && act.t in w.tasks
    requires MonitorStep(w, act, w.tasks[act.t]).Some?
    ensures StateMatches(MonitorStep(w, act, w.tasks[act.t]).value)
  {
    hide OrphanMatches;
    hide ClientsMatch;
    hide CallsMatch;
    hide SeatOf;
    hide Unique;
  }

  lemma StartStepKeepsLocks(w: World, act: Action)
    requires Inv(w)
    requires Starts(act)
    requires StartStep(w, act).Some?
    ensures LocksMatch(StartStep(w, act).value)
  {
    hide ClientsMatch;
    hide CallsMatch;
    hide StateMatches;
  }

  lemma StartStepKeepsClients(w: World, act: Action)
    requires Inv(w)
    requires Starts(act)
    requires StartStep(w, act).Some?
    ensures ClientsMatch(StartStep(w, act).value)
  {
    hide OrphanMatches;
    hide CallsMatch;
    hide Unique;
  }

  lemma StartStepKeepsCalls(w: World, act: Action)
    requires Inv(w)
    requires Starts(act)
    requires StartStep(w, act).Some?
    ensures CallsMatch(StartStep(w, act).value)
  {
    hide OrphanMatches;
    hide ClientsMatch;
  }

  lemma StartStepKeepsOrphan(w: World, act: Action)
    requires Inv(w)
    requires Starts(act)
    requires StartStep(w, act).Some?
    ensures OrphanMatches(StartStep(w, act).value)
  {
    hide ClientsMatch;
    hide CallsMatch;
    hide SeatOf;
    if w.orphan.Some? {
      hide Unique;
      ClonesStay(w, StartStep(w, act).value, act.t, w.orphan.value);
    }
  }

  lemma StartStepKeepsState(w: World, act: Action)
    requires Inv(w)
    requires Starts(act)
    requires StartStep(w, act).Some?
    ensures StateMatches(StartStep(w, act).value)
  {
    hide OrphanMatches;
    hide ClientsMatch;
    hide CallsMatch;
    hide SeatOf;
    hide Unique;
  }

  /** A recovering client is published with its monitor, in one step under the write lock. */
  lemma PublishStepKeepsLocks(w: World, t: TaskId, m: TaskId)
    requires Inv(w) && t in w.tasks
    requires PublishStep(w, t, m, w.tasks[t]).Some?
    ensures LocksMatch(PublishStep(w, t, m, w.tasks[t]).value)
  {
    hide ClientsMatch;
    hide CallsMatch;
    var w' := PublishStep(w, t, m, w.tasks[t]).value;
    if w'.state.Normal? {
      hide StateMatches;
      hide OrphanMatches;
      MoveKeepsLocks(w, w', t);
    } else {
      NoMonitorYet(w, t);
      hide StateMatches;
      hide OrphanMatches;
      SpawnKeepsLocks(w, w', t, m);
    }
  }

  lemma NoMonitorYet(w: World, t: TaskId)
    requires LocksMatch(w) && StateMatches(w) && t in w.tasks && (w.tasks[t].JoinOpened? || w.tasks[t].LoadOpened?)
    ensures forall u :: u in w.tasks ==> !Monitors(w.tasks[u])
    ensures w.writer == Some(t)
  {
    forall u | u in w.tasks ensures !Monitors(w.tasks[u]) {
      assert Writes(w.tasks[t]);
    }
  }

  lemma SpawnKeepsLocks(w: World, w': World, t: TaskId, m: TaskId)
    requires LocksMatch(w) && t in w.tasks && m !in w.tasks && w.writer == Some(t)
    requires forall u :: u in w.tasks ==> !Monitors(w.tasks[u])
    requires w'.tasks == w.tasks[t := Done][m := MonitorWaiting] && w'.writer.None? && w'.reader == w.reader
    requires w'.monitor == Some(m)
    ensures LocksMatch(w')
  {
  }

  lemma PublishStepKeepsClients(w: World, t: TaskId, m: TaskId)
    requires Inv(w) && t in w.tasks
    requires PublishStep(w, t, m, w.tasks[t]).Some?
    ensures ClientsMatch(PublishStep(w, t, m, w.tasks[t]).value)
  {
    hide OrphanMatches;
    hide CallsMatch;
    hide Unique;
  }

  lemma PublishStepKeepsCalls(w: World, t: TaskId, m: TaskId)
    requires Inv(w) && t in w.tasks
    requires PublishStep(w, t, m, w.tasks[t]).Some?
    ensures CallsMatch(PublishStep(w, t, m, w.tasks[t]).value)
  {
    hide OrphanMatches;
    hide ClientsMatch;
  }

  lemma PublishStepKeepsOrphan(w: World, t: TaskId, m: TaskId)
    requires Inv(w) && t in w.tasks
    requires PublishStep(w, t, m, w.tasks[t]).Some?
    ensures OrphanMatches(PublishStep(w, t, m, w.tasks[t]).value)
  {
    hide ClientsMatch;
    hide CallsMatch;
    hide SeatOf;
    hide Unique;
  }

  lemma PublishStepKeepsState(w: World, t: TaskId, m: TaskId)
    requires Inv(w) && t in w.tasks
    requires PublishStep(w, t, m, w.tasks[t]).Some?
    ensures StateMatches(PublishStep(w, t, m, w.tasks[t]).value)
  {
    hide OrphanMatches;
    hide ClientsMatch;
    hide CallsMatch;
    hide SeatOf;
    hide Unique;
  }

  // ---------------------------------------------------------------- every step keeps the invariant

  lemma BeginStepKeepsInv(w: World, act: Action)
    requires Inv(w) && Begins(act)
    requires Apply(w, act).Some?
    ensures Inv(Apply(w, act).value)
    ensures Apply(w, act).value.panicked <==> w.panicked || FindsOrphan(w, act)
  {
    hide BeginStep;
    hide LocksMatch;
    hide ClientsMatch;
    hide CallsMatch;
    hide StateMatches;
    hide OrphanMatches;
    BeginStepPanicsIff(w, act);
    BeginStepMoves(w, act);
    MoveKeepsLocks(w, Apply(w, act).value, act.t);
    BeginStepKeepsClients(w, act);
    BeginStepKeepsCalls(w, act);
    BeginStepKeepsState(w, act);
    BeginStepKeepsOrphan(w, act);
  }

  lemma OpenStepKeepsInv(w: World, act: Action)
    requires Inv(w) && Opens(act)
    requires Apply(w, act).Some?
    ensures Inv(Apply(w, act).value) && Apply(w, act).value.panicked == w.panicked
  {
    hide OpenStep;
    hide LocksMatch;
    hide ClientsMatch;
    hide CallsMatch;
    hide StateMatches;
    hide OrphanMatches;
    OpenStepMoves(w, act);
    MoveKeepsLocks(w, Apply(w, act).value, act.t);
    OpenStepKeepsClients(w, act);
    OpenStepKeepsCalls(w, act);
    OpenStepKeepsState(w, act);
    OpenStepKeepsOrphan(w, act);
  }

  lemma LeaveStepKeepsInv(w: World, act: Action)
    requires Inv(w) && Leaves(act)
    requires Apply(w, act).Some?
    ensures Inv(Apply(w, act).value) && Apply(w, act).value.panicked == w.panicked
  {
    hide LeaveStep;
    hide LocksMatch;
    hide ClientsMatch;
    hide CallsMatch;
    hide StateMatches;
    hide OrphanMatches;
    LeaveStepMoves(w, act);
    LeaveStepIsQuiet(w, act);
    MoveKeepsLocks(w, Apply(w, act).value, act.t);
    LeaveStepKeepsClients(w, act);
    LeaveStepKeepsCalls(w, act);
    LeaveStepKeepsState(w, act);
    LeaveStepKeepsOrphan(w, act);
  }

  lemma MonitorStepKeepsInv(w: World, act: Action)
    requires Inv(w) && (act.Watch? || act.Recovered? || act.TakeOver? || act.FindNonceReuse?)
    requires Apply(w, act).Some?
    ensures Inv(Apply(w, act).value) && Apply(w, act).value.panicked == w.panicked
  {
    hide MonitorStep;
    hide LocksMatch;
    hide ClientsMatch;
    hide CallsMatch;
    hide StateMatches;
    hide OrphanMatches;
    MonitorStepMoves(w, act);
    MoveKeepsLocks(w, Apply(w, act).value, act.t);
    MonitorStepKeepsClients(w, act);
    MonitorStepKeepsCalls(w, act);
    MonitorStepKeepsState(w, act);
    MonitorStepKeepsOrphan(w, act);
  }

  /** Every step keeps the invariant, failing ones included; the only panic is a join that finds an orphan. */
  lemma ApplyKeepsInv(w: World, act: Action)
    requires Inv(w) && Apply(w, act).Some?
    ensures Inv(Apply(w, act).value)
    ensures Apply(w, act).value.panicked <==> w.panicked || FindsOrphan(w, act)
  {
    hide LocksMatch;
    hide ClientsMatch;
    hide CallsMatch;
    hide StateMatches;
    hide OrphanMatches;
    if Starts(act) {
      StartStepKeepsLocks(w, act);
      StartStepKeepsClients(w, act);
      StartStepKeepsCalls(w, act);
      StartStepKeepsState(w, act);
      StartStepKeepsOrphan(w, act);
    } else if Begins(act) {
      BeginStepKeepsInv(w, act);
    } else if Opens(act) {
      OpenStepKeepsInv(w, act);
    } else if Leaves(act) {
      LeaveStepKeepsInv(w, act);
    } else if act.Publish? {
      PublishStepKeepsLocks(w, act.t, act.monitor);
      PublishStepKeepsClients(w, act.t, act.monitor);
      PublishStepKeepsCalls(w, act.t, act.monitor);
      PublishStepKeepsState(w, act.t, act.monitor);
      PublishStepKeepsOrphan(w, act.t, act.monitor);
    } else {
      MonitorStepKeepsInv(w, act);
    }
  }

  // ---------------------------------------------------------------- whole runs

  function Run(w: World, acts: seq<Action>): Option<World>
    decreases |acts|
  {
    if acts == [] then Some(w)
    else
      match Apply(w, acts[0])
      case None => None
      case Some(w') => Run(w', acts[1..])
  }

  lemma {:induction false} RunKeepsInv(w: World, acts: seq<Action>)
    requires Inv(w) && Run(w, acts).Some?
    ensures Inv(Run(w, acts).value)
    decreases |acts|
  {
    hide Apply;
    hide Inv;
    if acts != [] {
      ApplyKeepsInv(w, acts[0]);
      RunKeepsInv(Apply(w, acts[0]).value, acts[1..]);
    }
  }

  predicate Reaches(acts: seq<Action>, w: World) {
    Run(FRESH, acts) == Some(w) || Run(RESTARTED, acts) == Some(w)
  }

  lemma ReachedInv(acts: seq<Action>, w: World)
    requires Reaches(acts, w)
    ensures Inv(w)
  {
    StartInv();
    if Run(FRESH, acts) == Some(w) {
      RunKeepsInv(FRESH, acts);
    } else {
      RunKeepsInv(RESTARTED, acts);
    }
  }

  /**
   * In every interleaving, whatever fails, at most one client is open, exactly when its lock is held for
   * it; a federation that is joined, and one about to be opened again after recovery, is in storage.
   */
  lemma OneClientAtATime(acts: seq<Action>, w: World, c: ClientId, d: ClientId)
    requires Reaches(acts, w)
    ensures c in w.clients.live && d in w.clients.live ==> c == d
    ensures c in w.clients.live <==> w.clients.guard == Some(InClient(c))
    ensures w.writer.None? && (w.state.Normal? || w.state.Recovering?) ==> w.storage.joined
    ensures forall t :: t in w.tasks && w.tasks[t].MonitorShut? ==> w.storage.joined
  {
    hide Unique;
    ReachedInv(acts, w);
    forall t | t in w.tasks && w.tasks[t].MonitorShut? ensures w.storage.joined {
      assert Writes(w.tasks[t]);
    }
  }

  predicate SomeCall(w: World) {
    exists t :: t in w.tasks && w.tasks[t].Call?
  }

  /**
   * No `expect` or panic of the state machine is reached but one, and exactly then: a join of a left
   * federation while some call still holds the client it had before. That takes an earlier failure. The
   * client's own background services hold it like calls do, and a leave that fails in storage returns
   * before it stops them.
   */
  lemma PanicsIff(acts: seq<Action>, w: World, act: Action)
    requires Reaches(acts, w) && Apply(w, act).Some?
    ensures Apply(w, act).value.panicked && !w.panicked ==> w.failed
    ensures Apply(w, act).value.panicked <==>
              w.panicked || (act.BeginJoin? && act.joinable && w.state == Left && SomeCall(w))
  {
    hide Apply;
    ReachedInv(acts, w);
    ApplyKeepsInv(w, act);
    if act.BeginJoin? && w.state == Left {
      JoinIsFree(w, act);
      LeftHoldsOrphan(w);
    }
    OrphanFailed(w);
  }

  lemma JoinIsFree(w: World, act: Action)
    requires act.BeginJoin? && Apply(w, act).Some?
    ensures w.writer.None?
  {
  }

  lemma OrphanFailed(w: World)
    requires Inv(w)
    ensures w.orphan.Some? ==> w.failed
  {
  }

  /** In a left federation, calls hold clones exactly when there is an orphan. */
  lemma LeftHoldsOrphan(w: World)
    requires Inv(w) && w.state == Left && w.writer.None?
    ensures w.orphan.Some? <==> SomeCall(w)
  {
    if w.orphan.Some? {
      assert !Unique(w, w.orphan.value);
      var t :| t in w.tasks && w.tasks[t] == Call(w.orphan.value);
    }
    if SomeCall(w) {
      var t :| t in w.tasks && w.tasks[t].Call?;
      assert SeatOf(w) == Opened(w.tasks[t].c);
    }
  }

  /**
   * Recovering is left only by the monitor started with it, and the federation's data is deleted only
   * once its client has been shut down and nobody holds a clone of it.
   */
  lemma OnlyItsMonitorEndsRecovery(acts: seq<Action>, w: World, act: Action)
    requires Reaches(acts, w) && Apply(w, act).Some?
    ensures var w' := Apply(w, act).value;
      && (w.state.Recovering? && w'.state != w.state ==> act.TakeOver? && w.monitor == Some(act.t))
      && (w.storage.data && !w'.storage.data ==>
            && w.clients.live == {} && w'.clients.live == {}
            && forall t :: t in w.tasks ==> !w.tasks[t].Call?)
  {
    hide Apply;
    hide Inv;
    ReachedInv(acts, w);
    RecoveryEnds(w, act);
    DataGoes(w, act);
  }

  lemma RecoveryEnds(w: World, act: Action)
    requires Inv(w) && Apply(w, act).Some?
    ensures w.state.Recovering? && Apply(w, act).value.state != w.state ==> act.TakeOver? && w.monitor == Some(act.t)
  {
    hide OrphanMatches;
    hide LoadsFit;
    hide ClientsMatch;
    hide CallsMatch;
    hide Unique;
  }

  lemma OnlyLeavesDelete(w: World, act: Action)
    requires Apply(w, act).Some? && w.storage.data && !Apply(w, act).value.storage.data
    ensures act.DeleteData? && act.t in w.tasks && w.tasks[act.t].LeaveShut?
    ensures Apply(w, act).value.clients.live == w.clients.live
  {
    hide Unique;
  }

  lemma DataGoes(w: World, act: Action)
    requires Inv(w) && Apply(w, act).Some?
    ensures w.storage.data && !Apply(w, act).value.storage.data ==>
              && w.clients.live == {} && Apply(w, act).value.clients.live == {}
              && forall t :: t in w.tasks ==> !w.tasks[t].Call?
  {
    hide Apply;
    hide Unique;
    if w.storage.data && !Apply(w, act).value.storage.data {
      OnlyLeavesDelete(w, act);
      assert Writes(w.tasks[act.t]);
    }
  }

  // ---------------------------------------------------------------- failures

  /** What a failed leave leaves: no lock taken, and an orphan if and only if a call holds a clone. */
  lemma FailedLeave(w: World, t: TaskId)
    requires Inv(w) && t in w.tasks && w.tasks[t].LeaveHolding?
    ensures var after := GiveUp(w, t, w.tasks[t].c);
      && Free(after) && after.state == Left && after.tasks.Keys == w.tasks.Keys && after.panicked == w.panicked
      && (after.orphan.Some? <==> !Unique(w, w.tasks[t].c))
  {
    hide ClientsMatch;
    hide CallsMatch;
    hide Unique;
    assert Writes(w.tasks[t]);
  }

  lemma FailingLeaveSteps(w: World, t: TaskId)
    requires t in w.tasks && w.tasks[t].LeaveHolding?
    ensures Apply(w, RemoveInfo(t, false)) == Some(GiveUp(w, t, w.tasks[t].c))
  {
    hide GiveUp;
  }

  lemma JoinSteps(w: World, j: TaskId)
    requires j !in w.tasks && Free(w)
    ensures Apply(w, StartJoin(j)) == Some(Put(w, j, Joining))
    ensures Apply(Put(w, j, Joining), BeginJoin(j, true)).Some?
  {
  }

  /**
   * A leave that fails in storage makes the next join panic if and only if some call or background service
   * still holds the client: without one, the error return closes it and frees its lock.
   */
  lemma FailedLeaveBreaksJoinIff(w: World, t: TaskId, j: TaskId)
    requires Inv(w) && !w.panicked && t in w.tasks && w.tasks[t].LeaveHolding? && j !in w.tasks
    ensures var after := Run(w, [RemoveInfo(t, false), StartJoin(j), BeginJoin(j, true)]);
      after.Some? && (after.value.panicked <==> !Unique(w, w.tasks[t].c))
  {
    hide Apply;
    hide Inv;
    hide GiveUp;
    hide Unique;
    var c := w.tasks[t].c;
    var remove, start, begin := RemoveInfo(t, false), StartJoin(j), BeginJoin(j, true);
    var w1 := GiveUp(w, t, c);
    var w2 := Put(w1, j, Joining);
    FailingLeaveSteps(w, t);
    FailedLeave(w, t);
    JoinSteps(w1, j);
    ApplyKeepsInv(w, remove);
    ApplyKeepsInv(w1, start);
    ApplyKeepsInv(w2, begin);
    RunThree(w, remove, w1, start, w2, begin);
  }

  lemma RunThree(w: World, a: Action, w1: World, b: Action, w2: World, c: Action)
    requires Apply(w, a) == Some(w1) && Apply(w1, b) == Some(w2) && Apply(w2, c).Some?
    ensures Run(w, [a, b, c]) == Apply(w2, c)
  {
    hide Apply;
    assert [a, b, c][1..] == [b, c] && [b, c][1..] == [c] && [c][1..] == [];
    assert Run(w, [a, b, c]) == Run(w1, [b, c]) == Run(w2, [c]) == Run(Apply(w2, c).value, []);
  }

  lemma {:induction false} RunExtends(w: World, acts: seq<Action>, act: Action)
    requires Run(w, acts).Some?
    ensures Run(w, acts + [act]) == Apply(Run(w, acts).value, act)
    decreases |acts|
  {
    hide Apply;
    if acts == [] {
      assert [act][1..] == [] && acts + [act] == [act];
    } else {
      RunExtends(Apply(w, acts[0]).value, acts[1..], act);
      assert (acts + [act])[1..] == acts[1..] + [act];
    }
  }

  lemma Then(acts: seq<Action>, w: World, act: Action) returns (acts': seq<Action>)
    requires Run(FRESH, acts) == Some(w) && Apply(w, act).Some?
    ensures Run(FRESH, acts') == Apply(w, act)
  {
    hide Apply;
    RunExtends(FRESH, acts, act);
    acts' := acts + [act];
  }

  /** A joined federation whose client 0 some call still holds. */
  predicate InUse(w: World) {
    && w.state == Normal(0) && Free(w) && 1 in w.tasks && w.tasks[1] == Call(0) && 2 !in w.tasks && 3 !in w.tasks
    && w.clients.guard == Some(InClient(0)) && w.storage.joined
  }

  lemma OpensFirst() returns (acts: seq<Action>, w: World)
    ensures Run(FRESH, acts) == Some(w) && w.tasks.Keys == {0} && w.tasks[0] == JoinOpened(0, false)
    ensures w.writer == Some(0) && w.reader.None? && w.clients.guard == Some(InClient(0)) && w.storage.joined
  {
    hide Unique;
    hide GiveUp;
    hide LetGo;
    var w1 := Put(FRESH, 0, Joining);
    var w2 := Put(w1.(writer := Some(0), clients := Clients(Some(InTask(0)), {}, 0, {})), 0, JoinOpening);
    acts := Then([], FRESH, StartJoin(0));
    acts := Then(acts, w1, BeginJoin(0, true));
    acts := Then(acts, w2, Open(0, false));
    w := Put(w2.(clients := OpenClient(w2.clients, false), storage := Storage(true, true)), 0, JoinOpened(0, false));
  }

  lemma OpensAndClones() returns (acts: seq<Action>, w: World)
    ensures Run(FRESH, acts) == Some(w) && InUse(w)
  {
    hide Unique;
    hide GiveUp;
    hide LetGo;
    var before, w1 := OpensFirst();
    var w2 := Put(w1.(state := Normal(0), writer := None), 0, Done);
    acts := Then(before, w1, Publish(0, 1));
    acts := Then(acts, w2, CloneClient(1));
    w := Put(w2, 1, Call(0));
  }

  lemma BeginsToLeave(before: seq<Action>, w: World) returns (acts: seq<Action>, w': World)
    requires Run(FRESH, before) == Some(w) && InUse(w)
    ensures Run(FRESH, acts) == Some(w') && w'.state == Left && w'.writer == Some(2) && w'.reader.None?
    ensures 1 in w'.tasks && w'.tasks[1] == Call(0) && 2 in w'.tasks && w'.tasks[2] == LeaveHolding(0) && 3 !in w'.tasks
    ensures w'.clients.guard.Some?
  {
    hide Unique;
    hide GiveUp;
    hide LetGo;
    var w1 := Put(w, 2, Leaving);
    acts := Then(before, w, StartLeave(2));
    acts := Then(acts, w1, BeginLeave(2));
    w' := Put(w1.(state := Left, writer := Some(2)), 2, LeaveHolding(0));
  }

  lemma FailsToLeave(before: seq<Action>, w: World) returns (acts: seq<Action>, w': World)
    requires Run(FRESH, before) == Some(w) && w.state == Left && w.writer == Some(2) && w.reader.None?
    requires 1 in w.tasks && w.tasks[1] == Call(0) && 2 in w.tasks && w.tasks[2] == LeaveHolding(0) && 3 !in w.tasks
    requires w.clients.guard.Some?
    ensures Run(FRESH, acts) == Some(w') && w'.state == Left && Free(w') && w'.clients.guard.Some? && 3 !in w'.tasks
  {
    assert !Unique(w, 0) by { assert w.tasks[1] == Call(0); }
    hide Unique;
    acts := Then(before, w, RemoveInfo(2, false));
    w' := GiveUp(w, 2, 0);
  }

  /**
   * That panic is reached from a first start: join, clone the client for a call, fail to leave in storage
   * while the call goes on, and join again.
   */
  lemma StorageFailureCanPanic() returns (acts: seq<Action>)
    ensures Run(FRESH, acts).Some? && Run(FRESH, acts).value.panicked
  {
    var before, w := OpensAndClones();
    acts, w := BeginsToLeave(before, w);
    acts, w := FailsToLeave(acts, w);
    var w1 := Put(w, 3, Joining);
    acts := Then(acts, w, StartJoin(3));
    acts := Then(acts, w1, BeginJoin(3, true));
  }
}
