/**
 * Automatic joining of a formed federation against leaving it: both go through a table of weakly
 * held locks, one per federation, and a durable marker. Tasks interleave, and the process can stop
 * and start again at any point.
 */
module Handoff {
  import opened Options

  type FederationId = nat
  type TaskId = nat
  type LockRef = nat

  datatype Stage =
    | Begun                       // before `lock`
    | Queued(lock: LockRef)       // holds the Arc, waits for the mutex
    | Guarded(lock: LockRef)      // holds the guard
    | Cleared(lock: LockRef)      // auto-join: the marker was absent
    | Absent(lock: LockRef)       // auto-join: and so was the federation
    | Completing(lock: LockRef)   // auto-join: joined, or found joined; about to write the marker
    | Suppressed(lock: LockRef)   // leave: the marker is written
    | Finished

  datatype Task = AutoJoin(id: FederationId, stage: Stage) | LeaveCall(id: FederationId, stage: Stage)

  datatype World = World(
    locks: map<FederationId, LockRef>,    // the weak references
    made: nat,                            // locks created
    owner: map<LockRef, TaskId>,          // who holds each locked mutex
    tasks: map<TaskId, Task>,
    joined: set<FederationId>,            // durable
    loading: set<FederationId>,           // joined earlier, not loaded in this process yet
    completed: set<FederationId>,         // durable markers
    left: set<FederationId>)              // history: ids some leave got as far as leaving

  datatype Action =
    | Start(t: TaskId, id: FederationId, leave: bool)
    | FindLock(t: TaskId)
    | Acquire(t: TaskId)
    | CheckMarker(t: TaskId)
    | CheckState(t: TaskId)
    | Join(t: TaskId, ok: bool)
    | WriteMarker(t: TaskId)
    | LeaveNow(t: TaskId, ok: bool)
    | Drop(t: TaskId)                     // the task ends or is cancelled
    | Loaded(id: FederationId)
    | JoinByHand(id: FederationId)
    | Restart

  function Lock(task: Task): Option<LockRef> {
    if task.stage.Begun? || task.stage.Finished? then None else Some(task.stage.lock)
  }

  predicate Owns(task: Task) {
    !task.stage.Begun? && !task.stage.Queued? && !task.stage.Finished?
  }

  /** The strong count of a lock is positive while some task holds or waits for it. */
  predicate Alive(tasks: map<TaskId, Task>, lock: LockRef) {
    exists t :: t in tasks && Lock(tasks[t]) == Some(lock)
  }

  function Retain(locks: map<FederationId, LockRef>, tasks: map<TaskId, Task>): map<FederationId, LockRef> {
    map id | id in locks && Alive(tasks, locks[id]) :: locks[id]
  }

  function To(w: World, t: TaskId, stage: Stage): World
    requires t in w.tasks
  {
    w.(tasks := w.tasks[t := w.tasks[t].(stage := stage)])
  }

  /** One step; `None` when it cannot be taken. */
  function Apply(w: World, act: Action): Option<World> {
    match act
    case Loaded(id) => if id in w.loading then Some(w.(loading := w.loading - {id})) else None
    case JoinByHand(id) => Some(w.(joined := w.joined + {id}))
    case Restart => Some(World(map[], w.made, map[], map[], w.joined, w.joined, w.completed, w.left))
    case Start(t, id, leave) =>
      if t in w.tasks then None
      else Some(w.(tasks := w.tasks[t := if leave then LeaveCall(id, Begun) else AutoJoin(id, Begun)]))
    case _ => if act.t in w.tasks then TaskStep(w, act, w.tasks[act.t]) else None
  }

  function TaskStep(w: World, act: Action, task: Task): Option<World>
    requires !act.Loaded? && !act.JoinByHand? && !act.Restart? && !act.Start? && act.t in w.tasks
  {
    var t, stage := act.t, task.stage;
    match act
    case FindLock(_) =>
      if !stage.Begun? then None
      else
        var locks := Retain(w.locks, w.tasks);
        if task.id in locks then Some(To(w.(locks := locks), t, Queued(locks[task.id])))
        else Some(To(w.(locks := locks[task.id := w.made], made := w.made + 1), t, Queued(w.made)))
    case Acquire(_) =>
      if !stage.Queued? || stage.lock in w.owner then None
      else Some(To(w.(owner := w.owner[stage.lock := t]), t, Guarded(stage.lock)))
    case CheckMarker(_) =>
      if !task.AutoJoin? || !stage.Guarded? || task.id in w.completed then None
      else Some(To(w, t, Cleared(stage.lock)))
    case CheckState(_) =>
      if !task.AutoJoin? || !stage.Cleared? || task.id in w.loading then None
      else Some(To(w, t, if task.id in w.joined then Completing(stage.lock) else Absent(stage.lock)))
    case Join(_, ok) =>
      if !task.AutoJoin? || !stage.Absent? then None
      else if ok && task.id !in w.joined then
        Some(To(w.(joined := w.joined + {task.id}), t, Completing(stage.lock)))
      else if !ok then Some(To(w.(owner := w.owner - {stage.lock}), t, Finished))
      else None
    case WriteMarker(_) =>
      if task.AutoJoin? && stage.Completing? then
        Some(To(w.(completed := w.completed + {task.id}, owner := w.owner - {stage.lock}), t, Finished))
      else if task.LeaveCall? && stage.Guarded? then
        Some(To(w.(completed := w.completed + {task.id}), t, Suppressed(stage.lock)))
      else None
    case LeaveNow(_, ok) =>
      if !task.LeaveCall? || !stage.Suppressed? then None
      else
        var w' := w.(owner := w.owner - {stage.lock});
        if ok then Some(To(w'.(joined := w.joined - {task.id}, loading := w.loading - {task.id},
                              left := w.left + {task.id}), t, Finished))
        else Some(To(w', t, Finished))
    case Drop(_) =>
      if stage.Finished? then None
      else Some(To(if Owns(task) then w.(owner := w.owner - {stage.lock}) else w, t, Finished))
  }

  // ---------------------------------------------------------------- invariant

  /** Everyone holding or waiting for a federation's lock has the one the table points to. */
  ghost predicate OneLockEach(w: World) {
    && (forall t :: t in w.tasks && Lock(w.tasks[t]).Some? ==>
          w.tasks[t].id in w.locks && w.locks[w.tasks[t].id] == Lock(w.tasks[t]).value)
    && (forall i, j :: i in w.locks && j in w.locks && w.locks[i] == w.locks[j] ==> i == j)
    && (forall i :: i in w.locks ==> w.locks[i] < w.made)
  }

  ghost predicate OwnersMatch(w: World) {
    && (forall t :: t in w.tasks && Owns(w.tasks[t]) ==>
          w.tasks[t].stage.lock in w.owner && w.owner[w.tasks[t].stage.lock] == t)
    && (forall l :: l in w.owner ==>
          && l < w.made && w.owner[l] in w.tasks && Owns(w.tasks[w.owner[l]])
          && w.tasks[w.owner[l]].stage.lock == l)
  }

  ghost predicate StagesMatch(w: World) {
    && (forall t :: t in w.tasks ==>
          var task := w.tasks[t];
          && (task.AutoJoin? && (task.stage.Cleared? || task.stage.Absent?) ==> task.id !in w.completed)
          && (task.stage.Suppressed? ==> task.LeaveCall? && task.id in w.completed))
    && w.left <= w.completed
  }

  ghost predicate Inv(w: World) {
    OneLockEach(w) && OwnersMatch(w) && StagesMatch(w)
  }

  const START := World(map[], 0, map[], map[], {}, {}, {}, {})

  lemma StartInv()
    ensures Inv(START)
  {
  }

  /** Retaining the live entries loses no lock that anyone holds or waits for. */
  lemma RetainKeeps(w: World, t: TaskId)
    requires OneLockEach(w) && t in w.tasks && Lock(w.tasks[t]).Some?
    ensures var locks, id := Retain(w.locks, w.tasks), w.tasks[t].id;
      id in locks && locks[id] == w.locks[id]
  {
    assert Alive(w.tasks, w.locks[w.tasks[t].id]);
  }

  lemma FindLockKeepsOneEach(w: World, t: TaskId)
    requires OneLockEach(w) && Apply(w, FindLock(t)).Some?
    ensures OneLockEach(Apply(w, FindLock(t)).value)
  {
    hide Alive;
    forall u | u in w.tasks && Lock(w.tasks[u]).Some?
      ensures w.tasks[u].id in Retain(w.locks, w.tasks)
    {
      RetainKeeps(w, u);
    }
  }

  lemma FindLockKeepsInv(w: World, t: TaskId)
    requires Inv(w) && Apply(w, FindLock(t)).Some?
    ensures Inv(Apply(w, FindLock(t)).value)
  {
    hide Alive;
    hide Retain;
    hide OneLockEach;
    FindLockKeepsOneEach(w, t);
  }

  /** At most one task at a time holds the guard of a federation. */
  lemma GuardsExclude(w: World, t: TaskId, u: TaskId)
    requires Inv(w) && t in w.tasks && u in w.tasks && Owns(w.tasks[t]) && Owns(w.tasks[u])
    requires w.tasks[t].id == w.tasks[u].id
    ensures t == u
  {
  }

  /** What a task's step does to its own hold on the lock. */
  ghost predicate MovesHold(w: World, w': World, t: TaskId)
    requires t in w.tasks
  {
    && t in w'.tasks && w'.tasks == w.tasks[t := w'.tasks[t]] && w'.tasks[t].id == w.tasks[t].id
    && w'.locks == w.locks && w'.made == w.made
    && var task, task' := w.tasks[t], w'.tasks[t];
       || (Lock(task') == Lock(task) && Owns(task') == Owns(task) && w'.owner == w.owner)
       || (Lock(task').None? && w'.owner == if Owns(task) then w.owner - {task.stage.lock} else w.owner)
       || (Lock(task') == Lock(task) && Owns(task') && task.stage.Queued? && task.stage.lock !in w.owner
           && w'.owner == w.owner[task.stage.lock := t])
  }

  predicate IsHoldAction(act: Action) {
    !act.Loaded? && !act.JoinByHand? && !act.Restart? && !act.Start? && !act.FindLock?
  }

  lemma TaskMovesHold(w: World, act: Action)
    requires IsHoldAction(act) && act.t in w.tasks && TaskStep(w, act, w.tasks[act.t]).Some?
    ensures MovesHold(w, TaskStep(w, act, w.tasks[act.t]).value, act.t)
  {
  }

  lemma HoldKeepsOneEach(w: World, w': World, t: TaskId)
    requires OneLockEach(w) && t in w.tasks && MovesHold(w, w', t)
    ensures OneLockEach(w')
  {
  }

  lemma HoldKeepsOwners(w: World, w': World, t: TaskId)
    requires OneLockEach(w) && OwnersMatch(w) && t in w.tasks && MovesHold(w, w', t)
    ensures OwnersMatch(w')
  {
    if w.tasks[t].stage.Queued? {
      assert w.tasks[t].stage.lock < w.made by { assert Lock(w.tasks[t]).Some?; }
    }
    hide OneLockEach;
  }

  lemma StartKeepsLocks(w: World, t: TaskId, id: FederationId, leave: bool)
    requires OneLockEach(w) && OwnersMatch(w) && Apply(w, Start(t, id, leave)).Some?
    ensures OneLockEach(Apply(w, Start(t, id, leave)).value) && OwnersMatch(Apply(w, Start(t, id, leave)).value)
  {
  }

  lemma TaskKeepsLocks(w: World, act: Action)
    requires Inv(w) && Apply(w, act).Some? && !act.FindLock?
    ensures OneLockEach(Apply(w, act).value) && OwnersMatch(Apply(w, act).value)
  {
    hide TaskStep;
    hide StagesMatch;
    if IsHoldAction(act) {
      hide OneLockEach;
      hide OwnersMatch;
      TaskMovesHold(w, act);
      HoldKeepsOneEach(w, Apply(w, act).value, act.t);
      HoldKeepsOwners(w, Apply(w, act).value, act.t);
    } else if act.Start? {
      hide OneLockEach;
      hide OwnersMatch;
      StartKeepsLocks(w, act.t, act.id, act.leave);
    }
  }

  lemma TaskKeepsStages(w: World, act: Action)
    requires Inv(w) && Apply(w, act).Some? && !act.FindLock?
    ensures StagesMatch(Apply(w, act).value)
  {
    hide Alive;
    hide Retain;
    hide OneLockEach;
    hide OwnersMatch;
    if act.WriteMarker? {
      forall u | u in w.tasks && Owns(w.tasks[u]) && Owns(w.tasks[act.t]) && w.tasks[u].id == w.tasks[act.t].id
        ensures u == act.t
      {
        GuardsExclude(w, u, act.t);
      }
    }
  }

  lemma ApplyKeepsInv(w: World, act: Action)
    requires Inv(w) && Apply(w, act).Some?
    ensures Inv(Apply(w, act).value)
  {
    hide Apply;
    hide OneLockEach;
    hide OwnersMatch;
    hide StagesMatch;
    if act.FindLock? {
      FindLockKeepsInv(w, act.t);
    } else {
      TaskKeepsLocks(w, act);
      TaskKeepsStages(w, act);
    }
  }

  // ---------------------------------------------------------------- whole runs

  function Run(w: World, acts: seq<Action>): Option<World>
    decreases |acts|
  {
    if acts == [] then Some(w)
    else
      match Apply(w, acts[0])
      case None => None
      case Some(w') => Run(w', acts[1..])
  }

  lemma {:induction false} RunKeepsInv(w: World, acts: seq<Action>)
    requires Inv(w) && Run(w, acts).Some?
    ensures Inv(Run(w, acts).value)
    ensures w.completed <= Run(w, acts).value.completed && w.left <= Run(w, acts).value.left
    decreases |acts|
  {
    hide Inv;
    if acts != [] {
      ApplyKeepsInv(w, acts[0]);
      RunKeepsInv(Apply(w, acts[0]).value, acts[1..]);
    }
  }

  /** In every interleaving, at most one task holds the guard of a federation. */
  lemma OneGuardPerFederation(acts: seq<Action>, t: TaskId, u: TaskId)
    requires Run(START, acts).Some?
    ensures var w := Run(START, acts).value;
      t in w.tasks && u in w.tasks && Owns(w.tasks[t]) && Owns(w.tasks[u]) ==>
        w.tasks[t].id != w.tasks[u].id || t == u
  {
    StartInv();
    RunKeepsInv(START, acts);
    var w := Run(START, acts).value;
    if t in w.tasks && u in w.tasks && Owns(w.tasks[t]) && Owns(w.tasks[u]) && w.tasks[t].id == w.tasks[u].id {
      GuardsExclude(w, t, u);
    }
  }

  /**
   * Once a federation has been left, no later step of any interleaving, across any restarts, joins
   * it automatically.
   */
  lemma LeftIsNeverAutoJoined(acts: seq<Action>, more: seq<Action>, t: TaskId)
    requires Run(START, acts).Some? && Run(Run(START, acts).value, more).Some?
    ensures var w, w' := Run(START, acts).value, Run(Run(START, acts).value, more).value;
      t in w'.tasks && Apply(w', Join(t, true)).Some? ==>
        w'.tasks[t].id !in w.left && w'.tasks[t].id !in w'.completed
  {
    StartInv();
    RunKeepsInv(START, acts);
    RunKeepsInv(Run(START, acts).value, more);
  }

  // ---------------------------------------------------------------- undisturbed calls

  lemma {:induction false} RunConcat(w: World, a: seq<Action>, b: seq<Action>)
    requires Run(w, a).Some?
    ensures Run(w, a + b) == Run(Run(w, a).value, b)
    decreases |a|
  {
    hide Apply;
    if a == [] {
      assert a + b == b;
    } else {
      assert (a + b)[0] == a[0] && (a + b)[1..] == a[1..] + b;
      RunConcat(Apply(w, a[0]).value, a[1..], b);
    }
  }

  lemma RunTwo(w: World, a: Action, w1: World, b: Action, w2: World)
    requires Apply(w, a) == Some(w1) && Apply(w1, b) == Some(w2)
    ensures Run(w, [a, b]) == Some(w2)
  {
    hide Apply;
    assert Run(w2, []) == Some(w2) && [b][1..] == [];
    assert Run(w1, [b]) == Some(w2) && [a, b][1..] == [b];
  }

  /** Nobody holds the guard of a federation. */
  ghost predicate Unguarded(w: World, id: FederationId) {
    forall u :: u in w.tasks && Owns(w.tasks[u]) ==> w.tasks[u].id != id
  }

  function Enter(t: TaskId, id: FederationId, leave: bool): seq<Action> {
    [Start(t, id, leave)] + [FindLock(t), Acquire(t)]
  }

  /** A task that is alone gets the guard, whatever the table held before. */
  lemma GuardIsTaken(w: World, t: TaskId, id: FederationId, leave: bool) returns (w': World, lock: LockRef)
    requires Inv(w) && t !in w.tasks && Unguarded(w, id)
    ensures Run(w, Enter(t, id, leave)) == Some(w') && lock !in w.owner
    ensures w' == w.(locks := w'.locks, made := w'.made, owner := w.owner[lock := t], tasks := w.tasks[t :=
                       if leave then LeaveCall(id, Guarded(lock)) else AutoJoin(id, Guarded(lock))])
  {
    hide Run;
    var task := if leave then LeaveCall(id, Begun) else AutoJoin(id, Begun);
    var w1 := w.(tasks := w.tasks[t := task]);
    RunOne(w, Start(t, id, leave), w1);
    var w2 := Apply(w1, FindLock(t)).value;
    lock := w2.tasks[t].stage.lock;
    FoundIsFree(w, w1, t, id);
    w' := To(w2.(owner := w.owner[lock := t]), t, Guarded(lock));
    RunTwo(w1, FindLock(t), w2, Acquire(t), w');
    RunConcat(w, [Start(t, id, leave)], [FindLock(t), Acquire(t)]);
    assert w'.tasks == w.tasks[t := w'.tasks[t]];
  }

  lemma RunOne(w: World, a: Action, w1: World)
    requires Apply(w, a) == Some(w1)
    ensures Run(w, [a]) == Some(w1)
  {
    hide Apply;
    assert Run(w1, []) == Some(w1) && [a][1..] == [];
  }

  /** A locked mutex is the one its owner's federation has in the table. */
  lemma OwnerHasEntry(w: World, lock: LockRef)
    requires Inv(w) && lock in w.owner
    ensures w.owner[lock] in w.tasks && Owns(w.tasks[w.owner[lock]])
    ensures w.tasks[w.owner[lock]].id in w.locks && w.locks[w.tasks[w.owner[lock]].id] == lock
    ensures lock < w.made
  {
    assert Lock(w.tasks[w.owner[lock]]) == Some(lock);
  }

  /** The lock that the table leads to is new, or one that nobody has locked. */
  lemma FoundIsFree(w: World, w1: World, t: TaskId, id: FederationId)
    requires Inv(w) && t !in w.tasks && Unguarded(w, id)
    requires t in w1.tasks && w1 == w.(tasks := w.tasks[t := w1.tasks[t]])
    requires w1.tasks[t] == AutoJoin(id, Begun) || w1.tasks[t] == LeaveCall(id, Begun)
    ensures var locks := Retain(w1.locks, w1.tasks);
            (if id in locks then locks[id] else w1.made) !in w.owner
  {
    hide Alive;
    forall lock | lock in w.owner
      ensures w.owner[lock] in w.tasks && Owns(w.tasks[w.owner[lock]]) && lock < w.made
      ensures w.tasks[w.owner[lock]].id in w.locks && w.locks[w.tasks[w.owner[lock]].id] == lock
    {
      OwnerHasEntry(w, lock);
    }
  }

  /** An automatic join with the guard looks at the marker and at the federation. */
  lemma LooksUp(w: World, t: TaskId) returns (w': World)
    requires t in w.tasks && w.tasks[t].AutoJoin? && w.tasks[t].stage.Guarded?
    requires w.tasks[t].id !in w.completed && w.tasks[t].id !in w.loading
    ensures Run(w, [CheckMarker(t), CheckState(t)]) == Some(w')
    ensures var lock := w.tasks[t].stage.lock;
            w' == To(w, t, if w.tasks[t].id in w.joined then Completing(lock) else Absent(lock))
  {
    var lock := w.tasks[t].stage.lock;
    var w1 := To(w, t, Cleared(lock));
    w' := To(w, t, if w.tasks[t].id in w.joined then Completing(lock) else Absent(lock));
    assert w'.tasks == w1.tasks[t := w'.tasks[t]];
    RunTwo(w, CheckMarker(t), w1, CheckState(t), w');
  }

  /** What an automatic join does once it has looked: join and mark, only mark, or give up. */
  function Conclude(t: TaskId, joined: bool, ok: bool): seq<Action> {
    if joined then [WriteMarker(t)] else if ok then [Join(t, true), WriteMarker(t)] else [Join(t, false)]
  }

  lemma Concludes(w: World, t: TaskId, ok: bool) returns (w': World)
    requires t in w.tasks && w.tasks[t].AutoJoin?
    requires if w.tasks[t].id in w.joined then w.tasks[t].stage.Completing? else w.tasks[t].stage.Absent?
    ensures Run(w, Conclude(t, w.tasks[t].id in w.joined, ok)) == Some(w')
    ensures var task, marked := w.tasks[t], if ok || w.tasks[t].id in w.joined then {w.tasks[t].id} else {};
            w' == To(w.(joined := w.joined + marked, completed := w.completed + marked,
                        owner := w.owner - {task.stage.lock}), t, Finished)
  {
    hide Run;
    var id, lock := w.tasks[t].id, w.tasks[t].stage.lock;
    if id in w.joined {
      w' := Apply(w, WriteMarker(t)).value;
      assert w.joined + {id} == w.joined;
      RunOne(w, WriteMarker(t), w');
    } else if ok {
      var w1 := To(w.(joined := w.joined + {id}), t, Completing(lock));
      w' := Apply(w1, WriteMarker(t)).value;
      assert w'.tasks == w.tasks[t := w'.tasks[t]];
      RunTwo(w, Join(t, true), w1, WriteMarker(t), w');
    } else {
      w' := Apply(w, Join(t, false)).value;
      RunOne(w, Join(t, false), w');
    }
  }

  /**
   * An automatic join that nobody disturbs joins a federation it finds unmarked, loaded and not joined, and
   * marks it; one found joined is only marked. A join that fails leaves it unmarked, to be tried again.
   */
  lemma AutoJoinConcludes(acts: seq<Action>, w: World, t: TaskId, id: FederationId, ok: bool) returns (w': World)
    requires Run(START, acts) == Some(w) && t !in w.tasks && Unguarded(w, id)
    requires id !in w.completed && id !in w.loading
    ensures Run(w, Enter(t, id, false) + [CheckMarker(t), CheckState(t)] + Conclude(t, id in w.joined, ok)) == Some(w')
    ensures var marked := if ok || id in w.joined then {id} else {};
            w'.joined == w.joined + marked && w'.completed == w.completed + marked && w'.left == w.left
    ensures w'.owner == w.owner && w'.tasks == w.tasks[t := AutoJoin(id, Finished)]
  {
    hide Inv;
    hide Run;
    hide Apply;
    StartInv();
    RunKeepsInv(START, acts);
    var w1, lock := GuardIsTaken(w, t, id, false);
    hide Unguarded;
    var w2 := LooksUp(w1, t);
    RunConcat(w, Enter(t, id, false), [CheckMarker(t), CheckState(t)]);
    w' := Concludes(w2, t, ok);
    RunConcat(w, Enter(t, id, false) + [CheckMarker(t), CheckState(t)], Conclude(t, id in w.joined, ok));
    assert w'.tasks == w.tasks[t := AutoJoin(id, Finished)];
  }

  lemma LeaveConcludes(w: World, t: TaskId, ok: bool) returns (w': World)
    requires t in w.tasks && w.tasks[t].LeaveCall? && w.tasks[t].stage.Guarded?
    ensures Run(w, [WriteMarker(t), LeaveNow(t, ok)]) == Some(w')
    ensures var id, lock := w.tasks[t].id, w.tasks[t].stage.lock;
            var marked := w.(completed := w.completed + {id}, owner := w.owner - {lock});
            w' == To(if ok then marked.(joined := w.joined - {id}, loading := w.loading - {id}, left := w.left + {id})
                     else marked, t, Finished)
  {
    var id, lock := w.tasks[t].id, w.tasks[t].stage.lock;
    var w1 := To(w.(completed := w.completed + {id}), t, Suppressed(lock));
    w' := Apply(w1, LeaveNow(t, ok)).value;
    assert w'.tasks == w.tasks[t := w'.tasks[t]];
    hide Run;
    RunTwo(w, WriteMarker(t), w1, LeaveNow(t, ok), w');
  }

  /** An automatic join that finds the marker can only end. */
  lemma MarkedStops(w: World, u: TaskId, act: Action)
    requires u in w.tasks && w.tasks[u].AutoJoin? && w.tasks[u].stage.Guarded? && w.tasks[u].id in w.completed
    requires Apply(w, act).Some? && !act.Loaded? && !act.JoinByHand? && !act.Restart? && act.t == u
    ensures act.Drop?
  {
  }

  /**
   * A leave that nobody disturbs marks the federation first, and then leaves it, if it can. Either way an
   * automatic join that follows gets no further than the marker.
   */
  lemma LeaveMarksAndLeaves(acts: seq<Action>, w: World, t: TaskId, u: TaskId, id: FederationId, ok: bool)
      returns (w': World, w'': World)
    requires Run(START, acts) == Some(w) && t !in w.tasks && u !in w.tasks && u != t && Unguarded(w, id)
    ensures Run(w, Enter(t, id, true) + [WriteMarker(t), LeaveNow(t, ok)]) == Some(w')
    ensures w'.joined == (if ok then w.joined - {id} else w.joined) && w'.completed == w.completed + {id}
    ensures w'.left == (if ok then w.left + {id} else w.left)
    ensures w'.owner == w.owner && w'.tasks == w.tasks[t := LeaveCall(id, Finished)]
    ensures Run(w', Enter(u, id, false)) == Some(w'')
    ensures forall act :: Apply(w'', act).Some? && !act.Loaded? && !act.JoinByHand? && !act.Restart? && act.t == u ==>
              act.Drop?
  {
    hide Inv;
    hide Run;
    hide Apply;
    StartInv();
    RunKeepsInv(START, acts);
    w' := LeaveRuns(w, t, id, ok);
    RunKeepsInv(w, Enter(t, id, true) + [WriteMarker(t), LeaveNow(t, ok)]);
    w'' := JoinStops(w', u, id);
  }

  lemma LeaveRuns(w: World, t: TaskId, id: FederationId, ok: bool) returns (w': World)
    requires Inv(w) && t !in w.tasks && Unguarded(w, id)
    ensures Run(w, Enter(t, id, true) + [WriteMarker(t), LeaveNow(t, ok)]) == Some(w')
    ensures w'.joined == (if ok then w.joined - {id} else w.joined) && w'.completed == w.completed + {id}
    ensures w'.left == (if ok then w.left + {id} else w.left)
    ensures w'.owner == w.owner && w'.tasks == w.tasks[t := LeaveCall(id, Finished)]
  {
    hide Inv;
    hide Run;
    hide Apply;
    hide Unguarded;
    var w1, lock := GuardIsTaken(w, t, id, true);
    w' := LeaveConcludes(w1, t, ok);
    RunConcat(w, Enter(t, id, true), [WriteMarker(t), LeaveNow(t, ok)]);
    assert w'.tasks == w.tasks[t := LeaveCall(id, Finished)];
  }

  lemma JoinStops(w: World, u: TaskId, id: FederationId) returns (w': World)
    requires Inv(w) && u !in w.tasks && Unguarded(w, id) && id in w.completed
    ensures Run(w, Enter(u, id, false)) == Some(w')
    ensures forall act :: Apply(w', act).Some? && !act.Loaded? && !act.JoinByHand? && !act.Restart? && act.t == u ==>
              act.Drop?
  {
    hide Inv;
    hide Run;
    hide Apply;
    hide Unguarded;
    var lock;
    w', lock := GuardIsTaken(w, u, id, false);
    forall act | Apply(w', act).Some? && !act.Loaded? && !act.JoinByHand? && !act.Restart? && act.t == u
      ensures act.Drop?
    {
      MarkedStops(w', u, act);
    }
  }
}
