/**
 * What the rescan service comes to when nothing panics and nobody new calls: every call returns, every
 * request is served, and the service comes to rest.
 */
module RescanRuns {
  import opened Options
  import opened Rescanner

  /** Nobody enters or drops a call, nothing arrives, and no scan fails or panics. */
  predicate IsCalm(act: Action) {
    && !act.NewAgent? && !act.CallQueue? && !act.CallWait? && !act.Leave? && !act.Arrive? && !act.TaskPanic?
    && act != TaskCommit(false)
  }

  predicate Calm(acts: seq<Action>) {
    forall i :: 0 <= i < |acts| ==> IsCalm(acts[i])
  }

  /** The service can go from one world to the other by calm steps. */
  ghost predicate Leads(w: World, w': World) {
    exists acts :: Calm(acts) && Run(w, acts) == Some(w')
  }

  lemma LeadsHere(w: World)
    ensures Leads(w, w)
  {
    assert Calm([]) && Run(w, []) == Some(w);
  }

  lemma {:induction false} RunConcat(w: World, a: seq<Action>, b: seq<Action>)
    requires Run(w, a).Some?
    ensures Run(w, a + b) == Run(Run(w, a).value, b)
    decreases |a|
  {
    hide Apply;
    if a == [] {
      assert a + b == b;
    } else {
      assert (a + b)[0] == a[0] && (a + b)[1..] == a[1..] + b;
      RunConcat(Apply(w, a[0]).value, a[1..], b);
    }
  }

  lemma LeadsOn(w: World, w1: World, w2: World)
    requires Leads(w, w1) && Leads(w1, w2)
    ensures Leads(w, w2)
  {
    hide Run;
    var a :| Calm(a) && Run(w, a) == Some(w1);
    var b :| Calm(b) && Run(w1, b) == Some(w2);
    RunConcat(w, a, b);
    assert Calm(a + b);
  }

  lemma Steps(w: World, act: Action)
    requires IsCalm(act) && Apply(w, act).Some?
    ensures Leads(w, Apply(w, act).value)
  {
    hide Apply;
    hide IsCalm;
    var acts := [act];
    assert acts[1..] == [] && Run(Apply(w, act).value, []) == Some(Apply(w, act).value);
    assert Calm(acts) && Run(w, acts) == Some(Apply(w, act).value);
  }

  /** What calm steps keep, as far as those who watch agent `a` care. */
  ghost predicate Same(w: World, w': World, a: AgentId) {
    && Inv(w') && !w'.task.Dead? && w'.failed == w.failed && w'.visible == w.visible && w.demand <= w'.demand
    && w'.agents.Keys == w.agents.Keys
    && (a in w.agents ==> w'.agents[a].goal == w.agents[a].goal)
    && (forall b :: b in w.agents && w.agents[b].pc.Free? ==> w'.agents[b] == w.agents[b])
  }

  lemma SameOn(w: World, w1: World, w2: World, a: AgentId)
    requires Same(w, w1, a) && Same(w1, w2, a)
    ensures Same(w, w2, a)
  {
  }

  lemma StepIsSame(w: World, act: Action, a: AgentId)
    requires Inv(w) && !w.task.Dead? && IsCalm(act) && Apply(w, act).Some?
    ensures Same(w, Apply(w, act).value, a)
  {
    ApplyKeepsInv(w, act);
    StepIsPlain(w, act, a);
    StepSparesFree(w, act);
    hide Apply;
    hide Inv;
  }

  lemma StepIsPlain(w: World, act: Action, a: AgentId)
    requires Inv(w) && !w.task.Dead? && IsCalm(act) && Apply(w, act).Some?
    ensures var w' := Apply(w, act).value;
      && !w'.task.Dead? && w'.failed == w.failed && w'.visible == w.visible && w.demand <= w'.demand
      && (a in w.agents ==> a in w'.agents && w'.agents[a].goal == w.agents[a].goal)
  {
    hide WaitersMatch;
    hide LockMatches;
    hide SpawnerMatches;
    hide StateMatchesTask;
  }

  /** A calm step moves nobody who is outside the service's calls. */
  lemma StepSparesFree(w: World, act: Action)
    requires IsCalm(act) && Apply(w, act).Some?
    ensures var w' := Apply(w, act).value;
      && w'.agents.Keys == w.agents.Keys
      && forall b :: b in w.agents && w.agents[b].pc.Free? ==> w'.agents[b] == w.agents[b]
  {
  }

  /** One calm step, and where agent `a` then stands. */
  lemma Take(w: World, act: Action, a: AgentId) returns (w': World)
    requires Inv(w) && !w.task.Dead? && IsCalm(act) && Apply(w, act).Some?
    ensures w' == Apply(w, act).value && Leads(w, w') && Same(w, w', a)
  {
    hide Apply;
    hide Inv;
    hide IsCalm;
    w' := Apply(w, act).value;
    Steps(w, act);
    StepIsSame(w, act, a);
  }

  /** The map lock is only held between setting a state and storing its wakeup. */
  lemma LockIsFreed(w: World, a: AgentId) returns (w': World)
    requires Inv(w) && !w.task.Dead? && a in w.agents
    requires !w.agents[a].pc.QueueStored?
    ensures Leads(w, w') && Same(w, w', a) && w'.lock.None? && w'.agents[a] == w.agents[a]
    ensures w'.present == w.present
  {
    if w.lock.Some? {
      assert w.lock.value in w.agents && w.agents[w.lock.value].pc.QueueStored?;
      w' := Take(w, StoreWakeup(w.lock.value), a);
    } else {
      w' := w;
      LeadsHere(w);
    }
  }

  lemma BlockedIsPresent(w: World, a: AgentId)
    requires Inv(w) && a in w.agents && w.agents[a].pc.WaitBlocked?
    ensures w.present && (!w.agents[a].pc.notified ==> w.state != Idle)
  {
    assert WaiterMatches(w, w.agents[a]);
  }

  lemma NextDriveIsCalm(w: World)
    requires Inv(w) && w.present && !w.task.Dead? && Rank(w) > 0
    ensures IsCalm(NextDrive(w)) && Drives(NextDrive(w)) && !NextDrive(w).SetQueued? && Apply(w, NextDrive(w)).Some?
  {
    NeverStuck(w);
  }

  /** A driving step leaves a blocked waiter blocked, or notifies it. */
  lemma DriveKeepsBlocked(w: World, a: AgentId)
    requires Inv(w) && w.present && !w.task.Dead? && Rank(w) > 0
    requires a in w.agents && w.agents[a].pc.WaitBlocked?
    ensures Apply(w, NextDrive(w)).Some?
    ensures a in Apply(w, NextDrive(w)).value.agents && Apply(w, NextDrive(w)).value.agents[a].pc.WaitBlocked?
  {
    NeverStuck(w);
    hide WaitersMatch;
    hide ScansServeRequests;
    hide StateMatchesTask;
  }

  /** A blocked waiter is notified by the scan it waits for, and returns. */
  lemma {:induction false} BlockedReturns(w: World, a: AgentId) returns (w': World)
    requires Inv(w) && !w.task.Dead? && a in w.agents && w.agents[a].pc.WaitBlocked?
    ensures Leads(w, w') && Same(w, w', a) && w'.agents[a].pc.WaitDone?
    decreases Rank(w)
  {
    BlockedIsPresent(w, a);
    if w.agents[a].pc.notified {
      w' := Wakes(w, a);
    } else {
      NeverStuck(w);
      NextDriveIsCalm(w);
      DriveKeepsBlocked(w, a);
      DrivingLowersRank(w, NextDrive(w));
      hide Apply;
      hide Inv;
      hide Rank;
      hide NextDrive;
      var w1 := Take(w, NextDrive(w), a);
      w' := BlockedReturns(w1, a);
      LeadsOn(w, w1, w');
      SameOn(w, w1, w', a);
    }
  }

  lemma Wakes(w: World, a: AgentId) returns (w': World)
    requires Inv(w) && !w.task.Dead? && a in w.agents && w.agents[a].pc.WaitBlocked? && w.agents[a].pc.notified
    ensures Leads(w, w') && Same(w, w', a) && w'.agents[a].pc.WaitDone?
  {
    w' := Take(w, Wake(a), a);
  }

  lemma RegisteredReturns(w: World, a: AgentId) returns (w': World)
    requires Inv(w) && !w.task.Dead? && a in w.agents && w.agents[a].pc.WaitRegistered?
    ensures Leads(w, w') && Same(w, w', a) && w'.agents[a].pc.WaitDone?
  {
    var w1 := Take(w, ReadState(a), a);
    if w1.agents[a].pc.WaitDone? {
      w' := w1;
    } else {
      w' := BlockedReturns(w1, a);
      LeadsOn(w, w1, w');
      SameOn(w, w1, w', a);
    }
  }

  lemma ReadyReturns(w: World, a: AgentId) returns (w': World)
    requires Inv(w) && !w.task.Dead? && a in w.agents && w.agents[a].pc.WaitReady?
    ensures Leads(w, w') && Same(w, w', a) && w'.agents[a].pc.WaitDone?
  {
    var w1 := LockIsFreed(w, a);
    var w2 := Take(w1, Register(a), a);
    w' := RegisteredReturns(w2, a);
    hide Apply;
    hide Inv;
    LeadsOn(w, w1, w2);
    LeadsOn(w, w2, w');
    SameOn(w, w1, w2, a);
    SameOn(w, w2, w', a);
  }

  /** A caller inside `queue_rescan` gets through it. */
  lemma QueueReturns(w: World, a: AgentId) returns (w': World)
    requires Inv(w) && !w.task.Dead? && a in w.agents
    requires w.agents[a].pc.QueueEnter? || w.agents[a].pc.QueueStored? || w.agents[a].pc.QueueInserted?
    ensures Leads(w, w') && Same(w, w', a)
    ensures w'.agents[a].pc == if w.agents[a].goal.Some? then WaitReady else QueueDone
    ensures w.agents[a].pc.QueueEnter? ==> w'.demand == w.visible && w'.requested > w.requested
  {
    if w.agents[a].pc.QueueEnter? {
      var w1 := LockIsFreed(w, a);
      RequestsStay(w, w1);
      var w2 := Take(w1, SetQueued(a), a);
      w' := QueueFinishes(w2, a);
      hide Apply;
      hide Inv;
      LeadsOn(w, w1, w2);
      LeadsOn(w, w2, w');
      SameOn(w, w1, w2, a);
      SameOn(w, w2, w', a);
    } else {
      w' := QueueFinishes(w, a);
    }
  }

  lemma RequestsStay(w: World, w': World)
    requires Leads(w, w')
    ensures w.requested <= w'.requested
  {
    var acts :| Calm(acts) && Run(w, acts) == Some(w');
    RunKeepsRequests(w, acts);
  }

  lemma {:induction false} RunKeepsRequests(w: World, acts: seq<Action>)
    requires Run(w, acts).Some?
    ensures w.requested <= Run(w, acts).value.requested
    decreases |acts|
  {
    if acts != [] {
      RunKeepsRequests(Apply(w, acts[0]).value, acts[1..]);
    }
  }

  lemma QueueFinishes(w: World, a: AgentId) returns (w': World)
    requires Inv(w) && !w.task.Dead? && a in w.agents
    requires w.agents[a].pc.QueueStored? || w.agents[a].pc.QueueInserted?
    ensures Leads(w, w') && Same(w, w', a)
    ensures w'.agents[a].pc == if w.agents[a].goal.Some? then WaitReady else QueueDone
    ensures w'.demand == w.demand && w'.requested == w.requested
  {
    if w.agents[a].pc.QueueStored? {
      w' := Take(w, StoreWakeup(a), a);
    } else {
      w' := Take(w, SpawnTask(a), a);
    }
  }

  predicate Waits(agent: Agent) {
    agent.goal.Some? && !agent.pc.Free? && !agent.pc.QueueDone?
  }

  /**
   * Whoever is inside `wait_for_scanned`, in any world in which no scan has panicked, can be brought to its
   * end by calm steps; and by `NoWaiterMissesIdle` all it waited for is then done.
   */
  lemma WaitReturns(w: World, a: AgentId) returns (w': World)
    requires Inv(w) && !w.task.Dead? && a in w.agents && Waits(w.agents[a])
    ensures Leads(w, w') && Same(w, w', a) && w'.agents[a].pc.WaitDone?
  {
    var pc := w.agents[a].pc;
    if pc.WaitDone? {
      w' := w;
      LeadsHere(w);
    } else if pc.WaitBlocked? {
      w' := BlockedReturns(w, a);
    } else if pc.WaitRegistered? {
      w' := RegisteredReturns(w, a);
    } else if pc.WaitReady? {
      w' := ReadyReturns(w, a);
    } else if pc.WaitEnter? {
      w' := EnteredReturns(w, a);
    } else {
      w' := QueuedReturns(w, a);
    }
  }

  lemma QueuedReturns(w: World, a: AgentId) returns (w': World)
    requires Inv(w) && !w.task.Dead? && a in w.agents && w.agents[a].goal.Some?
    requires w.agents[a].pc.QueueEnter? || w.agents[a].pc.QueueStored? || w.agents[a].pc.QueueInserted?
    ensures Leads(w, w') && Same(w, w', a) && w'.agents[a].pc.WaitDone?
  {
    hide Inv;
    var w1 := QueueReturns(w, a);
    w' := ReadyReturns(w1, a);
    LeadsOn(w, w1, w');
    SameOn(w, w1, w', a);
  }

  lemma EnteredReturns(w: World, a: AgentId) returns (w': World)
    requires Inv(w) && !w.task.Dead? && a in w.agents && w.agents[a].goal.Some? && w.agents[a].pc.WaitEnter?
    ensures Leads(w, w') && Same(w, w', a) && w'.agents[a].pc.WaitDone?
  {
    var w1 := LockIsFreed(w, a);
    var w2 := Take(w1, CheckRoom(a), a);
    if w2.agents[a].pc.WaitReady? {
      w' := ReadyReturns(w2, a);
    } else {
      w' := QueuedReturns(w2, a);
    }
    hide Apply;
    hide Inv;
    LeadsOn(w, w1, w2);
    LeadsOn(w, w2, w');
    SameOn(w, w1, w2, a);
    SameOn(w, w2, w', a);
  }

  /** Whatever was requested is served: calm steps bring the service to rest, with everything demanded folded. */
  lemma {:induction false} RequestsAreServed(w: World) returns (w': World)
    requires Inv(w) && w.present && !w.task.Dead?
    ensures Leads(w, w') && Inv(w') && w'.state == Idle && Rank(w') == 0
    ensures w'.served == w'.requested && w.requested <= w'.requested && (!w.failed ==> w'.folded >= w.demand)
    decreases Rank(w)
  {
    NeverStuck(w);
    if Rank(w) == 0 {
      w' := w;
      LeadsHere(w);
    } else {
      NextDriveIsCalm(w);
      DrivingLowersRank(w, NextDrive(w));
      StaysPresent(w);
      hide Apply;
      hide Inv;
      hide Rank;
      hide NextDrive;
      var w1 := Take(w, NextDrive(w), 0);
      w' := RequestsAreServed(w1);
      LeadsOn(w, w1, w');
      RequestsStay(w, w1);
    }
  }

  lemma StaysPresent(w: World)
    requires w.present && Apply(w, NextDrive(w)).Some?
    ensures Apply(w, NextDrive(w)).value.present
  {
  }

  /** A caller outside any call can enter either one; the two calls, run through, leave nothing undone. */
  lemma CallsCanBegin(w: World, a: AgentId)
    requires a in w.agents && w.agents[a].pc.Free?
    ensures Apply(w, CallQueue(a)) == Some(w.(agents := w.agents[a := Agent(QueueEnter, None)]))
    ensures var goal := Goal(w.requested, w.demand);
            Apply(w, CallWait(a)) == Some(w.(agents := w.agents[a := Agent(WaitEnter, Some(goal))]))
  {
  }
}
