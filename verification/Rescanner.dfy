/**
 * The rescan service of one room as interleaved steps: callers that queue a rescan or wait for one,
 * and the background task. Each step is what runs between two points where others can interfere.
 */
module Rescanner {
  import opened Options

  type AgentId = nat

  datatype RoomState = Idle | Queued | Running

  /** Where the background task stands. `requests` and `seen` are what its scan started from. */
  datatype TaskPc =
    | Unspawned
    | Starting
    | Marked
    | Scanning(requests: nat, seen: nat)
    | Committed
    | Parked
    | Dead            // a scan panicked; nothing starts the task again

  /** Where a caller stands inside `queue_rescan` or `wait_for_scanned`. */
  datatype Pc =
    | Free
    | QueueEnter
    | QueueStored     // state set under the map lock, wakeup not stored yet
    | QueueInserted   // room inserted, task not spawned yet
    | QueueDone
    | WaitEnter
    | WaitReady
    | WaitRegistered(notified: bool, idlesThen: nat)
    | WaitBlocked(notified: bool, idlesThen: nat)
    | WaitDone

  /** What had been asked for, and could be read, when `wait_for_scanned` was called. */
  datatype Goal = Goal(requests: nat, demand: nat)

  /** `goal` is set while the caller is inside `wait_for_scanned`, which may itself queue a rescan. */
  datatype Agent = Agent(pc: Pc, goal: Option<Goal>)

  datatype World = World(
    present: bool,             // the room is in `rescan_states`
    state: RoomState,
    permit: bool,              // a stored wakeup
    task: TaskPc,
    lock: Option<AgentId>,     // the caller holding the map lock between the state and its wakeup
    spawner: Option<AgentId>,  // the caller that inserted the room and has yet to spawn the task
    agents: map<AgentId, Agent>,
    visible: nat,              // how many room events a scan can read
    folded: nat,               // how many of them are committed to the tables
    requested: nat,            // rescan requests so far
    demand: nat,               // events visible at the last request
    served: nat,               // requests made before the last finished scan began
    idles: nat,                // transitions to Idle so far
    failed: bool)              // some scan failed

  const START := World(false, Idle, false, Unspawned, None, None, map[], 0, 0, 0, 0, 0, 0, false)

  datatype Action =
    | NewAgent(a: AgentId)
    | CallQueue(a: AgentId)
    | CallWait(a: AgentId)
    | CheckRoom(a: AgentId)
    | SetQueued(a: AgentId)
    | StoreWakeup(a: AgentId)
    | SpawnTask(a: AgentId)
    | Register(a: AgentId)
    | ReadState(a: AgentId)
    | Wake(a: AgentId)
    | Leave(a: AgentId)      // the call returned, or its waiting caller was dropped
    | TaskMark
    | TaskBegin
    | TaskCommit(ok: bool)
    | TaskPanic
    | TaskSettle
    | TaskWake
    | Arrive

  function Move(w: World, a: AgentId, pc: Pc): World
    requires a in w.agents
  {
    w.(agents := w.agents[a := w.agents[a].(pc := pc)])
  }

  /** After `queue_rescan`, a plain caller is done and a waiting one goes on to wait. */
  function AfterQueue(agent: Agent): Pc {
    if agent.goal.Some? then WaitReady else QueueDone
  }

  function Notify(agent: Agent): Agent {
    match agent.pc
    case WaitRegistered(_, idles) => agent.(pc := WaitRegistered(true, idles))
    case WaitBlocked(_, idles) => agent.(pc := WaitBlocked(true, idles))
    case _ => agent
  }

  predicate IsTaskAction(act: Action) {
    act.TaskMark? || act.TaskBegin? || act.TaskCommit? || act.TaskPanic?
    || act.TaskSettle? || act.TaskWake? || act.Arrive?
  }

  /** One step; `None` when it cannot be taken. */
  function Apply(w: World, act: Action): Option<World> {
    if IsTaskAction(act) then TaskStep(w, act) else CallerStep(w, act)
  }

  function CallerStep(w: World, act: Action): Option<World>
    requires !IsTaskAction(act)
  {
    if act.NewAgent? then
      if act.a in w.agents then None else Some(w.(agents := w.agents[act.a := Agent(Free, None)]))
    else if act.a !in w.agents then None
    else
      var a, pc := act.a, w.agents[act.a].pc;
      match act
      case CallQueue(_) =>
        if pc != Free then None else Some(w.(agents := w.agents[a := Agent(QueueEnter, None)]))
      case CallWait(_) =>
        if pc != Free then None
        else Some(w.(agents := w.agents[a := Agent(WaitEnter, Some(Goal(w.requested, w.demand)))]))
      case CheckRoom(_) =>
        if pc != WaitEnter || w.lock.Some? then None
        else Some(Move(w, a, if w.present then WaitReady else QueueEnter))
      case SetQueued(_) =>
        if pc != QueueEnter || w.lock.Some? then None
        else
          var w' := w.(state := Queued, requested := w.requested + 1, demand := w.visible);
          if w.present then Some(Move(w'.(lock := Some(a)), a, QueueStored))
          else Some(Move(w'.(present := true, spawner := Some(a)), a, QueueInserted))
      case StoreWakeup(_) =>
        if pc != QueueStored then None
        else Some(Move(w.(permit := true, lock := None), a, AfterQueue(w.agents[a])))
      case SpawnTask(_) =>
        if pc != QueueInserted then None
        else Some(Move(w.(task := Starting, spawner := None), a, AfterQueue(w.agents[a])))
      case Register(_) =>
        if pc != WaitReady || w.lock.Some? then None
        else Some(Move(w, a, WaitRegistered(false, w.idles)))
      case ReadState(_) =>
        if !pc.WaitRegistered? then None
        else if w.state == Idle then Some(Move(w, a, WaitDone))
        else Some(Move(w, a, WaitBlocked(pc.notified, pc.idlesThen)))
      case Wake(_) =>
        if !pc.WaitBlocked? || !pc.notified then None else Some(Move(w, a, WaitDone))
      case Leave(_) =>
        if pc.QueueStored? || pc.QueueInserted? || pc.QueueEnter? then None
        else Some(w.(agents := w.agents[a := Agent(Free, None)]))
      case NewAgent(_) => None
  }

  function TaskStep(w: World, act: Action): Option<World>
    requires IsTaskAction(act)
  {
    match act
    case TaskMark =>
      if w.task != Starting then None else Some(w.(state := Running, task := Marked))
    case TaskBegin =>
      if w.task != Marked then None else Some(w.(task := Scanning(w.requested, w.visible)))
    case TaskCommit(ok) =>
      if !w.task.Scanning? then None else
        Some(w.(task := Committed, served := w.task.requests,
                folded := if ok then w.task.seen else w.folded, failed := w.failed || !ok))
    case TaskPanic =>
      if !w.task.Scanning? then None else Some(w.(task := Dead))   // its transaction is dropped
    case TaskSettle =>
      if w.task != Committed then None
      else if w.state != Running then Some(w.(task := Parked))
      else Some(w.(task := Parked, state := Idle, idles := w.idles + 1,
                   agents := map a | a in w.agents :: Notify(w.agents[a])))
    case TaskWake =>
      if w.task != Parked || !w.permit then None else Some(w.(permit := false, task := Starting))
    case Arrive => Some(w.(visible := w.visible + 1))
  }

  // ---------------------------------------------------------------- invariant

  ghost predicate LockMatches(w: World) {
    && (forall a :: a in w.agents ==> (w.agents[a].pc.QueueStored? <==> w.lock == Some(a)))
    && (w.lock.Some? ==> w.lock.value in w.agents)
  }

  /** One caller is about to spawn the task, from the insertion of the room until it does. */
  ghost predicate SpawnerMatches(w: World) {
    && (forall a :: a in w.agents ==> (w.agents[a].pc.QueueInserted? <==> w.spawner == Some(a)))
    && (w.spawner.Some? ==> w.spawner.value in w.agents)
    && (w.task.Unspawned? && w.present <==> w.spawner.Some?)
    && (!w.present ==> w.task.Unspawned? && w.lock.None? && w.requested == w.demand == w.served == 0)
  }

  ghost predicate StateMatchesTask(w: World) {
    && (w.present && w.state == Queued ==>
          w.permit || w.lock.Some? || w.task.Unspawned? || w.task.Starting? || w.task.Dead?)
    && (w.state == Running ==> w.task.Marked? || w.task.Scanning? || w.task.Committed? || w.task.Dead?)
    && (w.present && w.state == Idle ==> w.task.Starting? || w.task.Parked?)
    && (w.present && w.task.Unspawned? ==> w.state == Queued)
  }

  ghost predicate ScansServeRequests(w: World) {
    && w.served <= w.requested && w.demand <= w.visible && w.folded <= w.visible
    && (w.task.Scanning? ==> w.served <= w.task.requests <= w.requested && w.folded <= w.task.seen <= w.visible)
    && (w.task.Scanning? && w.state == Running ==> w.task.requests == w.requested && w.task.seen >= w.demand)
    && (w.task.Committed? && w.state == Running ==> w.served == w.requested && (!w.failed ==> w.folded >= w.demand))
    && (w.present && w.state == Idle ==> w.served == w.requested && (!w.failed ==> w.folded >= w.demand))
  }

  ghost predicate Reached(w: World, goal: Goal) {
    w.served >= goal.requests && (!w.failed ==> w.folded >= goal.demand)
  }

  predicate OnlyQueues(pc: Pc) {
    pc.QueueEnter? || pc.QueueStored? || pc.QueueInserted? || pc.QueueDone?
  }

  /** What each caller inside `wait_for_scanned` can rely on. */
  ghost predicate WaiterMatches(w: World, agent: Agent) {
    && (agent.goal.Some? ==> agent.goal.value.requests <= w.requested && agent.goal.value.demand <= w.demand)
    && (agent.goal.None? ==> agent.pc.Free? || OnlyQueues(agent.pc))
    && (!(agent.pc.Free? || agent.pc.QueueEnter? || agent.pc.WaitEnter?) ==> w.present)
    && (agent.pc.WaitRegistered? || agent.pc.WaitBlocked? ==>
          if agent.pc.notified then Reached(w, agent.goal.value) else agent.pc.idlesThen == w.idles)
    && (agent.pc.WaitBlocked? && !agent.pc.notified ==> w.state != Idle)
    && (agent.pc.WaitDone? ==> Reached(w, agent.goal.value))
  }

  ghost predicate WaitersMatch(w: World) {
    forall a :: a in w.agents ==> WaiterMatches(w, w.agents[a])
  }

  ghost predicate Inv(w: World) {
    LockMatches(w) && SpawnerMatches(w) && StateMatchesTask(w) && ScansServeRequests(w) && WaitersMatch(w)
  }

  lemma StartInv()
    ensures Inv(START)
  {
  }

  lemma CallerKeepsLock(w: World, act: Action)
    requires !IsTaskAction(act) && Inv(w) && CallerStep(w, act).Some?
    ensures LockMatches(CallerStep(w, act).value)
  {
    hide WaitersMatch;
    hide ScansServeRequests;
  }

  lemma TaskKeepsLock(w: World, act: Action)
    requires IsTaskAction(act) && Inv(w) && TaskStep(w, act).Some?
    ensures LockMatches(TaskStep(w, act).value)
  {
    hide WaitersMatch;
    hide ScansServeRequests;
  }

  lemma CallerKeepsSpawner(w: World, act: Action)
    requires !IsTaskAction(act) && Inv(w) && CallerStep(w, act).Some?
    ensures SpawnerMatches(CallerStep(w, act).value)
  {
    hide WaitersMatch;
    hide ScansServeRequests;
  }

  lemma TaskKeepsSpawner(w: World, act: Action)
    requires IsTaskAction(act) && Inv(w) && TaskStep(w, act).Some?
    ensures SpawnerMatches(TaskStep(w, act).value)
  {
    hide WaitersMatch;
    hide ScansServeRequests;
  }

  lemma ApplyKeepsState(w: World, act: Action)
    requires Inv(w) && Apply(w, act).Some?
    ensures StateMatchesTask(Apply(w, act).value)
  {
    hide WaitersMatch;
  }

  lemma ApplyKeepsScans(w: World, act: Action)
    requires Inv(w) && Apply(w, act).Some?
    ensures ScansServeRequests(Apply(w, act).value)
  {
    hide WaitersMatch;
    hide LockMatches;
  }

  /** What may happen around a caller that does not itself move, short of a transition to Idle. */
  ghost predicate Grows(w: World, w': World) {
    && w.requested <= w'.requested && w.demand <= w'.demand && w.served <= w'.served
    && w.folded <= w'.folded && (w.failed ==> w'.failed) && (w.present ==> w'.present)
    && w.idles == w'.idles && (w.state != Idle ==> w'.state != Idle)
  }

  lemma WaiterSurvives(w: World, w': World, agent: Agent)
    requires WaiterMatches(w, agent) && Grows(w, w')
    ensures WaiterMatches(w', agent)
  {
  }

  /** The transition to Idle notifies everyone who registered, and their goals are then reached. */
  lemma IdleReachesGoals(w: World, agent: Agent)
    requires Inv(w) && WaiterMatches(w, agent) && w.task.Committed? && w.state == Running
    ensures WaiterMatches(Apply(w, TaskSettle).value, Notify(agent))
  {
    hide LockMatches;
    hide SpawnerMatches;
  }

  lemma TaskGrows(w: World, act: Action)
    requires Inv(w) && Apply(w, act).Some? && IsTaskAction(act)
    ensures (act.TaskSettle? && w.state == Running)
            || (Grows(w, Apply(w, act).value) && Apply(w, act).value.agents == w.agents)
  {
  }

  /** A caller's step moves that caller only. */
  lemma CallerGrows(w: World, act: Action)
    requires Inv(w) && Apply(w, act).Some? && !IsTaskAction(act)
    ensures var w', a := Apply(w, act).value, act.a;
            Grows(w, w') && a in w'.agents && w'.agents == w.agents[a := w'.agents[a]]
  {
    hide WaitersMatch;
    hide LockMatches;
    hide SpawnerMatches;
  }

  /** The steps of `queue_rescan`, and those that enter or leave a call. */
  predicate Queues(act: Action) {
    act.SetQueued? || act.StoreWakeup? || act.SpawnTask?
  }

  predicate Enters(act: Action) {
    act.NewAgent? || act.CallQueue? || act.CallWait? || act.CheckRoom? || act.Leave?
  }

  /** Each step leaves its caller with what its new place relies on. */
  lemma QueuingLands(w: World, act: Action)
    requires Inv(w) && Apply(w, act).Some? && Queues(act)
    ensures act.a in Apply(w, act).value.agents
    ensures WaiterMatches(Apply(w, act).value, Apply(w, act).value.agents[act.a])
  {
    hide LockMatches;
    hide StateMatchesTask;
    hide WaitersMatch;
    hide SpawnerMatches;
    PresentWhileQueuing(w, act);
  }

  /** A caller between the state and its wakeup has found or inserted the room, and keeps its goal. */
  lemma PresentWhileQueuing(w: World, act: Action)
    requires Inv(w) && Apply(w, act).Some? && Queues(act)
    ensures act.a in w.agents && WaiterMatches(w, w.agents[act.a])
  {
    hide LockMatches;
    hide StateMatchesTask;
    hide ScansServeRequests;
  }

  lemma EnteringLands(w: World, act: Action)
    requires Inv(w) && Apply(w, act).Some? && Enters(act)
    ensures act.a in Apply(w, act).value.agents
    ensures WaiterMatches(Apply(w, act).value, Apply(w, act).value.agents[act.a])
  {
    hide LockMatches;
    hide SpawnerMatches;
    hide StateMatchesTask;
  }

  lemma WaitingLands(w: World, act: Action)
    requires Inv(w) && Apply(w, act).Some? && (act.Register? || act.ReadState? || act.Wake?)
    ensures act.a in Apply(w, act).value.agents
    ensures WaiterMatches(Apply(w, act).value, Apply(w, act).value.agents[act.a])
  {
    hide LockMatches;
    hide SpawnerMatches;
    hide StateMatchesTask;
  }

  lemma CallerLands(w: World, act: Action)
    requires Inv(w) && Apply(w, act).Some? && !IsTaskAction(act)
    ensures act.a in Apply(w, act).value.agents
    ensures WaiterMatches(Apply(w, act).value, Apply(w, act).value.agents[act.a])
  {
    hide Inv;
    hide Apply;
    hide WaiterMatches;
    if Queues(act) {
      QueuingLands(w, act);
    } else if Enters(act) {
      EnteringLands(w, act);
    } else {
      WaitingLands(w, act);
    }
  }

  lemma ApplyKeepsWaiters(w: World, act: Action)
    requires Inv(w) && Apply(w, act).Some?
    ensures WaitersMatch(Apply(w, act).value)
  {
    var w' := Apply(w, act).value;
    if IsTaskAction(act) {
      TaskGrows(w, act);
    } else {
      CallerGrows(w, act);
      CallerLands(w, act);
    }
    forall a | a in w'.agents ensures WaiterMatches(w', w'.agents[a]) {
      if act.TaskSettle? && w.state == Running {
        IdleReachesGoals(w, w.agents[a]);
      } else if a in w.agents && w'.agents[a] == w.agents[a] {
        hide Apply;
        WaiterSurvives(w, w', w.agents[a]);
      }
    }
  }

  lemma ApplyKeepsInv(w: World, act: Action)
    requires Inv(w) && Apply(w, act).Some?
    ensures Inv(Apply(w, act).value)
  {
    if IsTaskAction(act) {
      TaskKeepsLock(w, act);
      TaskKeepsSpawner(w, act);
    } else {
      CallerKeepsLock(w, act);
      CallerKeepsSpawner(w, act);
    }
    ApplyKeepsState(w, act);
    ApplyKeepsScans(w, act);
    ApplyKeepsWaiters(w, act);
  }

  // ---------------------------------------------------------------- whole runs

  /** The world after a list of steps, if each of them could be taken. */
  function Run(w: World, acts: seq<Action>): Option<World>
    decreases |acts|
  {
    if acts == [] then Some(w)
    else
      match Apply(w, acts[0])
      case None => None
      case Some(w') => Run(w', acts[1..])
  }

  lemma {:induction false} RunKeepsInv(w: World, acts: seq<Action>)
    requires Inv(w) && Run(w, acts).Some?
    ensures Inv(Run(w, acts).value)
    decreases |acts|
  {
    hide Apply;
    hide Inv;
    if acts != [] {
      ApplyKeepsInv(w, acts[0]);
      RunKeepsInv(Apply(w, acts[0]).value, acts[1..]);
    }
  }

  /** In every interleaving a queued rescan is still owed a scan, unless one panicked, and Idle owes nothing. */
  lemma NoRescanIsLost(acts: seq<Action>)
    requires Run(START, acts).Some? && Run(START, acts).value.present
    ensures var w := Run(START, acts).value;
      && (w.state == Queued ==> w.permit || w.lock.Some? || w.spawner.Some? || w.task.Starting? || w.task.Dead?)
      && (w.state == Idle ==> w.served == w.requested && (!w.failed ==> w.folded >= w.demand))
  {
    StartInv();
    RunKeepsInv(START, acts);
  }

  /**
   * In every interleaving a caller of `wait_for_scanned` finds its room inserted; blocked, it is
   * either notified already or still has its Idle ahead; come through, everything requested before
   * its call has been scanned.
   */
  lemma NoWaiterMissesIdle(acts: seq<Action>, a: AgentId)
    requires Run(START, acts).Some? && a in Run(START, acts).value.agents
    ensures var w := Run(START, acts).value;
      var agent := w.agents[a];
      && (agent.pc.WaitReady? ==> w.present)
      && (agent.pc.WaitBlocked? ==> agent.pc.notified || w.state != Idle)
      && (agent.pc.WaitDone? ==>
            && agent.goal.Some? && w.served >= agent.goal.value.requests
            && (w.failed || w.folded >= agent.goal.value.demand))
  {
    StartInv();
    RunKeepsInv(START, acts);
    var w := Run(START, acts).value;
    assert WaiterMatches(w, w.agents[a]);
  }

  // ---------------------------------------------------------------- after a panic

  lemma DeadStepServesNobody(w: World, act: Action, a: AgentId)
    requires Inv(w) && w.present && w.task.Dead? && Apply(w, act).Some?
    ensures var w' := Apply(w, act).value;
      && w'.present && w'.task.Dead? && w'.idles == w.idles && w'.served == w.served && w'.folded == w.folded
      && (a in w.agents && w.agents[a].pc.WaitBlocked? && !w.agents[a].pc.notified && act != Leave(a) ==>
            a in w'.agents && w'.agents[a] == w.agents[a])
  {
    hide WaitersMatch;
    hide ScansServeRequests;
    hide LockMatches;
  }

  /**
   * A panicking scan is the service's end. No later step folds an event, serves a request or reaches Idle,
   * and who is blocked without a notification stays so until dropped.
   */
  lemma {:induction false} DeadTaskServesNobody(w: World, acts: seq<Action>, a: AgentId)
    requires Inv(w) && w.present && w.task.Dead? && Run(w, acts).Some?
    ensures var w' := Run(w, acts).value;
      && w'.task.Dead? && w'.state != Idle && w'.served == w.served && w'.folded == w.folded
      && (a in w.agents && w.agents[a].pc.WaitBlocked? && !w.agents[a].pc.notified && Leave(a) !in acts ==>
            a in w'.agents && w'.agents[a] == w.agents[a])
    decreases |acts|
  {
    hide Apply;
    hide WaitersMatch;
    hide LockMatches;
    hide SpawnerMatches;
    hide ScansServeRequests;
    if acts != [] {
      DeadStepServesNobody(w, acts[0], a);
      ApplyKeepsInv(w, acts[0]);
      DeadTaskServesNobody(Apply(w, acts[0]).value, acts[1..], a);
    }
  }

  // ---------------------------------------------------------------- progress

  /** How many steps the service is away from resting in Idle, at most. */
  function Rank(w: World): nat {
    (if w.lock.Some? then 6 else 0) + (if w.permit && !w.task.Dead? then 5 else 0)
    + (match w.task
       case Unspawned => 5
       case Starting => 4
       case Marked => 3
       case Scanning(_, _) => 2
       case Committed => 1
       case Parked => 0
       case Dead => 0)
  }

  /** The steps of the task and of whoever owes it a wakeup or a start; nobody can cancel these. */
  predicate Drives(act: Action) {
    act.StoreWakeup? || act.SpawnTask? || (IsTaskAction(act) && !act.Arrive?)
  }

  /** A driving step that can be taken whenever the service is not at rest. */
  function NextDrive(w: World): (act: Action)
    ensures Drives(act)
  {
    if w.lock.Some? then StoreWakeup(w.lock.value)
    else if w.spawner.Some? then SpawnTask(w.spawner.value)
    else match w.task
      case Starting => TaskMark
      case Marked => TaskBegin
      case Scanning(_, _) => TaskCommit(true)
      case Committed => TaskSettle
      case _ => TaskWake
  }

  /**
   * Short of rest there is always a driving step to take, and rest means Idle with nothing owed, or a task
   * that died.
   */
  lemma NeverStuck(w: World)
    requires Inv(w) && w.present
    ensures Rank(w) == 0 <==>
              w.lock.None? && (w.task.Dead? || (w.state == Idle && w.task == Parked && !w.permit))
    ensures Rank(w) > 0 ==> Apply(w, NextDrive(w)).Some?
  {
    hide WaitersMatch;
    hide ScansServeRequests;
  }

  lemma DrivingLowersRank(w: World, act: Action)
    requires Inv(w) && Apply(w, act).Some? && !act.SetQueued?
    ensures Rank(Apply(w, act).value) + (if Drives(act) then 1 else 0) <= Rank(w)
  {
    hide StateMatchesTask;
    hide ScansServeRequests;
    if act.StoreWakeup? || act.SpawnTask? {
      assert act.a in w.agents;
    }
    hide WaitersMatch;
  }

  function CountDrives(acts: seq<Action>): nat {
    if acts == [] then 0 else (if Drives(acts[0]) then 1 else 0) + CountDrives(acts[1..])
  }

  /** Until the next request, no interleaving holds more than `Rank` driving steps. */
  lemma {:induction false} ComesToRest(w: World, acts: seq<Action>)
    requires Inv(w) && Run(w, acts).Some?
    requires forall i :: 0 <= i < |acts| ==> !acts[i].SetQueued?
    ensures CountDrives(acts) + Rank(Run(w, acts).value) <= Rank(w)
    decreases |acts|
  {
    hide Inv;
    hide Apply;
    hide Rank;
    hide Drives;
    if acts != [] {
      ApplyKeepsInv(w, acts[0]);
      DrivingLowersRank(w, acts[0]);
      ComesToRest(Apply(w, acts[0]).value, acts[1..]);
    }
  }
}
