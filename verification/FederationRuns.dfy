/**
 * What runs of a federation come to: which clients show as recovering and who attends to them, and that a
 * join, a load, a recovery and a leave which nothing interrupts end as they should.
 */
module FederationRuns {
  import opened Options
  import opened FederationLifecycle

  // ---------------------------------------------------------------- recovering clients and their monitors

  /** The monitor's stages before it takes the client over: the federation shows as recovering. */
  predicate Attends(task: Task) {
    task.MonitorWaiting? || task.MonitorWatching? || task.MonitorUpgrading?
  }

  ghost predicate Attended(w: World) {
    w.stalled || (w.monitor.Some? && w.monitor.value in w.tasks && Attends(w.tasks[w.monitor.value]))
  }

  /** What the state says of a client is how it was opened. */
  ghost predicate StateTellsRecovery(w: World) {
    && (w.state.Normal? ==> w.state.c !in w.clients.recovered)
    && (w.state.Recovering? ==> w.state.c in w.clients.recovered && Attended(w))
  }

  ghost predicate TasksTellRecovery(w: World) {
    && (forall c :: c in w.clients.recovered ==> c < w.clients.made)
    && (forall t :: t in w.tasks ==>
          match w.tasks[t]
          case JoinOpened(c, recovering) => c in w.clients.recovered <==> recovering
          case LoadOpened(c, recovering) => c in w.clients.recovered <==> recovering
          case MonitorOpened(c) => c !in w.clients.recovered
          case _ => true)
  }

  /** Whoever writes is the only one that can have a client opened and not published. */
  lemma OnlyWriterOpened(w: World, t: TaskId)
    requires Inv(w) && w.writer == Some(t)
    ensures forall u :: u in w.tasks && u != t ==>
      !w.tasks[u].JoinOpened? && !w.tasks[u].LoadOpened? && !w.tasks[u].MonitorOpened?
  {
    hide ClientsMatch;
    hide CallsMatch;
    hide StateMatches;
    hide OrphanMatches;
    forall u | u in w.tasks && u != t
      ensures !w.tasks[u].JoinOpened? && !w.tasks[u].LoadOpened? && !w.tasks[u].MonitorOpened?
    {
      TaskLocks(w, u);
    }
    hide LocksMatch;
  }

  lemma OpensTellRecovery(w: World, act: Action)
    requires Inv(w) && TasksTellRecovery(w) && Opens(act) && act.t in w.tasks
    requires OpenStep(w, act, w.tasks[act.t]).Some?
    ensures TasksTellRecovery(OpenStep(w, act, w.tasks[act.t]).value)
  {
    OpeningHasLock(w, act.t);
    OnlyWriterOpened(w, act.t);
    hide Inv;
  }

  /** Stages with a client opened and not yet published. */
  predicate HasOpened(task: Task) {
    task.JoinOpened? || task.LoadOpened? || task.MonitorOpened?
  }

  /** Neither the open clients nor those about to be published change. */
  ghost predicate OpensNothing(w: World, w': World) {
    && w'.clients.recovered == w.clients.recovered && w'.clients.made == w.clients.made
    && forall t :: t in w'.tasks && HasOpened(w'.tasks[t]) ==> t in w.tasks && w'.tasks[t] == w.tasks[t]
  }

  ghost predicate PublishesNothing(w: World, w': World) {
    w'.state.Normal? || w'.state.Recovering? ==> w'.state == w.state
  }

  lemma StartOpensNothing(w: World, act: Action)
    requires Starts(act) && StartStep(w, act).Some?
    ensures OpensNothing(w, StartStep(w, act).value) && PublishesNothing(w, StartStep(w, act).value)
  {
    hide Unique;
  }

  lemma BeginOpensNothing(w: World, act: Action)
    requires Begins(act) && act.t in w.tasks && BeginStep(w, act, w.tasks[act.t]).Some?
    ensures OpensNothing(w, BeginStep(w, act, w.tasks[act.t]).value)
    ensures PublishesNothing(w, BeginStep(w, act, w.tasks[act.t]).value)
  {
    hide Unique;
  }

  lemma LeaveOpensNothing(w: World, act: Action)
    requires Leaves(act) && act.t in w.tasks && LeaveStep(w, act, w.tasks[act.t]).Some?
    ensures OpensNothing(w, LeaveStep(w, act, w.tasks[act.t]).value)
    ensures PublishesNothing(w, LeaveStep(w, act, w.tasks[act.t]).value)
  {
    hide Unique;
  }

  lemma MonitorOpensNothing(w: World, act: Action)
    requires (act.Watch? || act.Recovered? || act.TakeOver? || act.FindNonceReuse?) && act.t in w.tasks
      && MonitorStep(w, act, w.tasks[act.t]).Some?
    ensures OpensNothing(w, MonitorStep(w, act, w.tasks[act.t]).value)
    ensures PublishesNothing(w, MonitorStep(w, act, w.tasks[act.t]).value)
  {
    hide Unique;
  }

  lemma PublishOpensNothing(w: World, t: TaskId, m: TaskId)
    requires t in w.tasks && PublishStep(w, t, m, w.tasks[t]).Some?
    ensures OpensNothing(w, PublishStep(w, t, m, w.tasks[t]).value)
  {
  }

  /** Only opening a client opens one, and only publishing it publishes it. */
  lemma OthersOpenNothing(w: World, act: Action)
    requires Apply(w, act).Some? && !Opens(act)
    ensures OpensNothing(w, Apply(w, act).value)
    ensures !act.Publish? ==> PublishesNothing(w, Apply(w, act).value)
  {
    hide StartStep;
    hide BeginStep;
    hide LeaveStep;
    hide MonitorStep;
    hide PublishStep;
    hide OpensNothing;
    hide PublishesNothing;
    if Starts(act) {
      StartOpensNothing(w, act);
    } else if Begins(act) {
      BeginOpensNothing(w, act);
    } else if Leaves(act) {
      LeaveOpensNothing(w, act);
    } else if act.Publish? {
      PublishOpensNothing(w, act.t, act.monitor);
    } else {
      MonitorOpensNothing(w, act);
    }
  }

  lemma OthersTellRecovery(w: World, act: Action)
    requires TasksTellRecovery(w) && Apply(w, act).Some? && !Opens(act)
    ensures TasksTellRecovery(Apply(w, act).value)
  {
    hide Apply;
    OthersOpenNothing(w, act);
  }

  lemma PublishTellsRecovery(w: World, t: TaskId, m: TaskId)
    requires TasksTellRecovery(w) && t in w.tasks && PublishStep(w, t, m, w.tasks[t]).Some?
    ensures StateTellsRecovery(PublishStep(w, t, m, w.tasks[t]).value)
  {
  }

  /** A step of one task, seen from the monitor of a recovering federation. */
  ghost predicate KeepsAttended(w: World, w': World) {
    w.state.Recovering? && w'.state == w.state && Attended(w) ==> Attended(w')
  }

  lemma StartKeepsAttended(w: World, act: Action)
    requires Starts(act) && StartStep(w, act).Some?
    ensures KeepsAttended(w, StartStep(w, act).value)
  {
  }

  lemma BeginKeepsAttended(w: World, act: Action)
    requires Begins(act) && act.t in w.tasks && BeginStep(w, act, w.tasks[act.t]).Some?
    ensures KeepsAttended(w, BeginStep(w, act, w.tasks[act.t]).value)
  {
  }

  lemma OpenKeepsAttended(w: World, act: Action)
    requires Opens(act) && act.t in w.tasks && OpenStep(w, act, w.tasks[act.t]).Some?
    ensures KeepsAttended(w, OpenStep(w, act, w.tasks[act.t]).value)
  {
  }

  lemma LeaveKeepsAttended(w: World, act: Action)
    requires LocksMatch(w) && Leaves(act) && act.t in w.tasks && LeaveStep(w, act, w.tasks[act.t]).Some?
    ensures KeepsAttended(w, LeaveStep(w, act, w.tasks[act.t]).value)
  {
    hide LocksMatch;
    hide Unique;
    TaskLocks(w, act.t);
  }

  lemma MonitorKeepsAttended(w: World, act: Action)
    requires (act.Watch? || act.Recovered? || act.TakeOver? || act.FindNonceReuse?) && act.t in w.tasks
    requires MonitorStep(w, act, w.tasks[act.t]).Some?
    ensures KeepsAttended(w, MonitorStep(w, act, w.tasks[act.t]).value)
  {
  }

  lemma StepKeepsAttended(w: World, act: Action)
    requires LocksMatch(w) && Apply(w, act).Some? && !act.Publish?
    ensures KeepsAttended(w, Apply(w, act).value)
  {
    hide StartStep;
    hide BeginStep;
    hide OpenStep;
    hide LeaveStep;
    hide MonitorStep;
    hide KeepsAttended;
    hide LocksMatch;
    if Starts(act) {
      StartKeepsAttended(w, act);
    } else if Begins(act) {
      BeginKeepsAttended(w, act);
    } else if Opens(act) {
      OpenKeepsAttended(w, act);
    } else if Leaves(act) {
      LeaveKeepsAttended(w, act);
    } else {
      MonitorKeepsAttended(w, act);
    }
  }

  /** Only the monitor's own steps end its attendance. */
  lemma StepTellsRecovery(w: World, act: Action)
    requires Inv(w) && StateTellsRecovery(w) && Apply(w, act).Some? && !act.Publish?
    ensures StateTellsRecovery(Apply(w, act).value)
  {
    hide Inv;
    hide Attended;
    hide OpenStep;
    if Opens(act) {
      OpensPublishNothing(w, act);
      OpeningIsNotPublished(w, act);
    } else {
      OthersOpenNothing(w, act);
    }
    if w.state.Recovering? && Apply(w, act).value.state == w.state {
      InvIsLocks(w);
      StepKeepsAttended(w, act);
    }
    hide Apply;
  }

  /** Opening a client publishes nothing either. */
  lemma OpensPublishNothing(w: World, act: Action)
    requires Opens(act) && act.t in w.tasks && OpenStep(w, act, w.tasks[act.t]).Some?
    ensures PublishesNothing(w, OpenStep(w, act, w.tasks[act.t]).value)
  {
  }

  lemma OpeningIsNotPublished(w: World, act: Action)
    requires Inv(w) && Opens(act) && act.t in w.tasks && OpenStep(w, act, w.tasks[act.t]).Some?
    ensures !w.state.Normal? && !w.state.Recovering?
  {
    hide ClientsMatch;
    hide CallsMatch;
    hide OrphanMatches;
    TaskLocks(w, act.t);
  }

  lemma ApplyTellsRecovery(w: World, act: Action)
    requires Inv(w) && StateTellsRecovery(w) && TasksTellRecovery(w) && Apply(w, act).Some?
    ensures StateTellsRecovery(Apply(w, act).value) && TasksTellRecovery(Apply(w, act).value)
  {
    hide Inv;
    hide StateTellsRecovery;
    hide TasksTellRecovery;
    hide PublishStep;
    hide OpenStep;
    if Opens(act) {
      OpensTellRecovery(w, act);
    } else {
      OthersTellRecovery(w, act);
    }
    if act.Publish? {
      PublishTellsRecovery(w, act.t, act.monitor);
    } else {
      StepTellsRecovery(w, act);
    }
  }

  lemma {:induction false} RunTellsRecovery(w: World, acts: seq<Action>)
    requires Inv(w) && StateTellsRecovery(w) && TasksTellRecovery(w) && Run(w, acts).Some?
    ensures StateTellsRecovery(Run(w, acts).value) && TasksTellRecovery(Run(w, acts).value)
    decreases |acts|
  {
    hide Apply;
    hide Inv;
    hide StateTellsRecovery;
    hide TasksTellRecovery;
    if acts != [] {
      ApplyKeepsInv(w, acts[0]);
      ApplyTellsRecovery(w, acts[0]);
      RunTellsRecovery(Apply(w, acts[0]).value, acts[1..]);
    }
  }

  /**
   * In every run the state is Normal only of a client that was opened complete, or reopened after its
   * recovery; it is Recovering only of one that was opened in the middle of it, and then its monitor is under
   * way, unless a recovery has failed.
   */
  lemma RecoveringIsMonitored(acts: seq<Action>, w: World)
    requires Reaches(acts, w)
    ensures w.state.Normal? ==> w.state.c !in w.clients.recovered
    ensures w.state.Recovering? ==>
              && w.state.c in w.clients.recovered
              && (w.stalled || (w.monitor.Some? && w.monitor.value in w.tasks && Attends(w.tasks[w.monitor.value])))
  {
    StartInv();
    if Run(FRESH, acts) == Some(w) {
      RunTellsRecovery(FRESH, acts);
    } else {
      RunTellsRecovery(RESTARTED, acts);
    }
  }

  // ---------------------------------------------------------------- what nothing interrupts

  /** Two steps after each other. */
  lemma RunTwo(w: World, a: Action, w1: World, b: Action)
    requires Apply(w, a) == Some(w1) && Apply(w1, b).Some?
    ensures Run(w, [a, b]) == Apply(w1, b)
  {
    hide Apply;
    assert [a, b][1..] == [b] && [b][1..] == [];
    assert Run(w, [a, b]) == Run(w1, [b]) == Run(Apply(w1, b).value, []);
  }

  lemma {:induction false} RunConcat(w: World, a: seq<Action>, b: seq<Action>)
    requires Run(w, a).Some?
    ensures Run(w, a + b) == Run(Run(w, a).value, b)
    decreases |a|
  {
    hide Apply;
    if a == [] {
      assert a + b == b;
    } else {
      assert (a + b)[0] == a[0] && (a + b)[1..] == a[1..] + b;
      RunConcat(Apply(w, a[0]).value, a[1..], b);
    }
  }

  /** The world in which client `c` is open and published, with the monitor `m` if it is recovering. */
  ghost predicate Published(w: World, c: ClientId, recovering: bool, m: TaskId) {
    && Free(w) && w.clients.guard == Some(InClient(c)) && w.clients.live == {c} && w.clients.made == c + 1
    && w.storage == Storage(true, true) && (c in w.clients.recovered <==> recovering)
    && w.state == (if recovering then Recovering(c) else Normal(c))
    && (recovering ==> w.monitor == Some(m) && m in w.tasks && w.tasks[m] == MonitorWaiting)
  }

  /** A join or a load whose opening succeeds publishes its client as it was opened, with its monitor. */
  lemma OpeningIsPublished(w: World, t: TaskId, m: TaskId, recovering: bool)
    requires t in w.tasks && m !in w.tasks && (w.tasks[t].JoinOpening? || w.tasks[t].LoadOpening?)
    requires w.clients.live == {} && w.reader.None? && (w.tasks[t].LoadOpening? ==> w.storage == Storage(true, true))
    requires w.clients.made !in w.clients.recovered
    ensures var after := Run(w, [Open(t, recovering), Publish(t, m)]);
            after.Some? && Published(after.value, w.clients.made, recovering, m)
  {
    hide Unique;
    var c := w.clients.made;
    var task := if w.tasks[t].JoinOpening? then JoinOpened(c, recovering) else LoadOpened(c, recovering);
    var w1 := Put(w.(clients := OpenClient(w.clients, recovering), storage := Storage(true, true)), t, task);
    OpensTo(w, t, recovering);
    PublishesTo(w1, t, m);
    hide Apply;
    RunTwo(w, Open(t, recovering), w1, Publish(t, m));
  }

  lemma OpensTo(w: World, t: TaskId, recovering: bool)
    requires t in w.tasks && (w.tasks[t].JoinOpening? || w.tasks[t].LoadOpening?)
    requires w.tasks[t].LoadOpening? ==> w.storage == Storage(true, true)
    ensures var c := w.clients.made;
            var task := if w.tasks[t].JoinOpening? then JoinOpened(c, recovering) else LoadOpened(c, recovering);
            Apply(w, Open(t, recovering))
            == Some(Put(w.(clients := OpenClient(w.clients, recovering), storage := Storage(true, true)), t, task))
  {
  }

  lemma PublishesTo(w: World, t: TaskId, m: TaskId)
    requires t in w.tasks && m !in w.tasks && (w.tasks[t].JoinOpened? || w.tasks[t].LoadOpened?)
    ensures var after := Apply(w, Publish(t, m));
      && after.Some? && after.value.writer.None? && after.value.reader == w.reader
      && after.value.clients == w.clients && after.value.storage == w.storage
      && (if w.tasks[t].recovering then
            && after.value.state == Recovering(w.tasks[t].c) && after.value.monitor == Some(m)
            && m in after.value.tasks && after.value.tasks[m] == MonitorWaiting
          else after.value.state == Normal(w.tasks[t].c))
  {
  }

  lemma NewClientsAreNew(w: World)
    requires TasksTellRecovery(w)
    ensures w.clients.made !in w.clients.recovered
  {
  }

  /** In a reached world nobody has opened the next client yet. */
  lemma ReachedIsNew(acts: seq<Action>, w: World)
    requires Reaches(acts, w)
    ensures Inv(w) && w.clients.made !in w.clients.recovered
  {
    StartInv();
    ReachedInv(acts, w);
    if Run(FRESH, acts) == Some(w) {
      RunTellsRecovery(FRESH, acts);
    } else {
      RunTellsRecovery(RESTARTED, acts);
    }
    NewClientsAreNew(w);
  }

  /** A join that nothing interrupts: of a federation never joined, or left with nobody holding its client. */
  lemma JoinCompletes(acts: seq<Action>, w: World, t: TaskId, m: TaskId, recovering: bool)
    requires Reaches(acts, w) && Free(w) && t !in w.tasks && m !in w.tasks && t != m
    requires w.state == NewForJoin || (w.state == Left && w.orphan.None?)
    ensures var after := Run(w, [StartJoin(t), BeginJoin(t, true)] + [Open(t, recovering), Publish(t, m)]);
            after.Some? && Published(after.value, w.clients.made, recovering, m)
    ensures Run(w, [StartJoin(t), BeginJoin(t, true), FailOpening(t)]) == Some(Put(w, t, Done))
    ensures Run(w, [StartJoin(t), BeginJoin(t, false)]) == Some(Put(w, t, Done))
  {
    ReachedIsNew(acts, w);
    NobodyOpen(w);
    hide Inv;
    hide Unique;
    var w1 := Put(w, t, Joining);
    var w2 := Put(w1.(writer := Some(t), clients := w.clients.(guard := Some(InTask(t)))), t, JoinOpening);
    RunTwo(w, StartJoin(t), w1, BeginJoin(t, true));
    OpeningIsPublished(w2, t, m, recovering);
    JoinIsRefused(w, t);
    RunConcat(w, [StartJoin(t), BeginJoin(t, true)], [Open(t, recovering), Publish(t, m)]);
  }

  /** A join whose opening fails, or of a federation that cannot be joined, leaves everything as it was. */
  lemma JoinIsRefused(w: World, t: TaskId)
    requires Free(w) && t !in w.tasks && (w.state == NewForJoin || w.state == Left) && w.clients.guard.None?
    ensures Run(w, [StartJoin(t), BeginJoin(t, true), FailOpening(t)]) == Some(Put(w, t, Done))
    ensures Run(w, [StartJoin(t), BeginJoin(t, false)]) == Some(Put(w, t, Done))
  {
    hide Unique;
    var w1 := Put(w, t, Joining);
    var w2 := Put(w1.(writer := Some(t), clients := w.clients.(guard := Some(InTask(t)))), t, JoinOpening);
    assert w.tasks[t := Joining][t := Done] == w.tasks[t := Done];
    assert w.tasks[t := Joining][t := JoinOpening][t := Done] == w.tasks[t := Done];
    RunThree(w, StartJoin(t), w1, BeginJoin(t, true), w2, FailOpening(t));
    RunTwo(w, StartJoin(t), w1, BeginJoin(t, false));
  }

  lemma NobodyOpen(w: World)
    requires Inv(w) && w.writer.None? && !w.state.Normal? && !w.state.Recovering? && w.orphan.None?
    ensures w.clients.guard.None? && w.clients.live == {}
  {
    hide LocksMatch;
    hide CallsMatch;
    hide StateMatches;
  }

  /** A load that nothing interrupts, and one whose opening fails. */
  lemma LoadCompletes(acts: seq<Action>, w: World, t: TaskId, m: TaskId, recovering: bool)
    requires Reaches(acts, w) && Free(w) && t in w.tasks && w.tasks[t] == LoadWaiting && m !in w.tasks
    ensures var after := Run(w, [BeginLoad(t)] + [Open(t, recovering), Publish(t, m)]);
            after.Some? && Published(after.value, w.clients.made, recovering, m)
    ensures var failed := Run(w, [BeginLoad(t), FailOpening(t)]);
            && failed.Some? && failed.value.state == LoadFailed && Free(failed.value)
            && failed.value.clients == w.clients && failed.value.clients.guard.None?
  {
    ReachedIsNew(acts, w);
    LoadFindsItsState(w, t);
    NobodyOpen(w);
    hide Inv;
    hide Unique;
    var w1 := Put(w.(writer := Some(t), clients := w.clients.(guard := Some(InTask(t)))), t, LoadOpening);
    assert [BeginLoad(t)][1..] == [];
    assert Apply(w, BeginLoad(t)) == Some(w1);
    assert Run(w, [BeginLoad(t)]) == Run(w1, []) == Some(w1);
    OpeningIsPublished(w1, t, m, recovering);
    RunConcat(w, [BeginLoad(t)], [Open(t, recovering), Publish(t, m)]);
    RunTwo(w, BeginLoad(t), w1, FailOpening(t));
  }

  lemma LoadFindsItsState(w: World, t: TaskId)
    requires Inv(w) && t in w.tasks && w.tasks[t] == LoadWaiting
    ensures w.state == NewForLoad && w.storage == Storage(true, true) && w.orphan.None?
  {
    hide LocksMatch;
    hide ClientsMatch;
    hide CallsMatch;
  }

  /**
   * A recovery that completes: its monitor watches, takes the client over, shuts it down, opens a new one and
   * publishes that one as Normal.
   */
  lemma RecoveryCompletes(acts: seq<Action>, w: World, m: TaskId, other: TaskId)
    requires Reaches(acts, w) && w.state.Recovering? && Free(w) && Unique(w, w.state.c)
    requires m in w.tasks && w.tasks[m] == MonitorWaiting
    ensures var after := Run(w, [Watch(m), Recovered(m, true), TakeOver(m)]
                                + [ShutDown(m), Open(m, false), Publish(m, other)]);
            && after.Some? && after.value.state == Normal(w.clients.made) && Free(after.value)
            && after.value.monitor.None? && after.value.clients.live == {w.clients.made}
            && after.value.clients.guard == Some(InClient(w.clients.made))
            && w.clients.made !in after.value.clients.recovered
            && after.value.storage == Storage(true, true)
    ensures var failed := Run(w, [Watch(m), Recovered(m, true), TakeOver(m)] + [ShutDown(m), FailOpening(m)]);
            && failed.Some? && failed.value.state == LoadFailed && Free(failed.value) && failed.value.monitor.None?
            && failed.value.clients == Clients(None, {}, w.clients.made, w.clients.recovered)
  {
    ReachedIsNew(acts, w);
    RecoveringClient(w, m);
    hide Inv;
    var w3 := TakesOver(w, m);
    assert Unique(w3, w.state.c) by {
      TakingOverKeepsUnique(w, w3, m);
    }
    hide Unique;
    Reopens(w3, m, w.state.c, other);
    RunConcat(w, [Watch(m), Recovered(m, true), TakeOver(m)], [ShutDown(m), Open(m, false), Publish(m, other)]);
    RunConcat(w, [Watch(m), Recovered(m, true), TakeOver(m)], [ShutDown(m), FailOpening(m)]);
  }

  lemma TakingOverKeepsUnique(w: World, w': World, m: TaskId)
    requires w.state.Recovering? && Unique(w, w.state.c) && w'.tasks == w.tasks[m := MonitorHolding(w.state.c)]
    ensures Unique(w', w.state.c)
  {
  }

  lemma Reopens(w: World, m: TaskId, c: ClientId, other: TaskId)
    requires m in w.tasks && w.tasks[m] == MonitorHolding(c) && w.writer == Some(m) && w.monitor == Some(m)
    requires w.clients.live == {c} && Unique(w, c) && w.reader.None?
    ensures var after := Run(w, [ShutDown(m), Open(m, false), Publish(m, other)]);
            && after.Some? && after.value.state == Normal(w.clients.made) && Free(after.value)
            && after.value.monitor.None? && after.value.clients.live == {w.clients.made}
            && after.value.clients.guard == Some(InClient(w.clients.made))
            && after.value.clients.recovered == w.clients.recovered && after.value.storage == w.storage
    ensures var failed := Run(w, [ShutDown(m), FailOpening(m)]);
            && failed.Some? && failed.value.state == LoadFailed && Free(failed.value) && failed.value.monitor.None?
            && failed.value.clients == Clients(None, {}, w.clients.made, w.clients.recovered)
  {
    CloseIt(w, m, c);
    hide Unique;
    var w1 := Put(w.(clients := Clients(Some(InTask(m)), {}, w.clients.made, w.clients.recovered)), m, MonitorShut);
    var w2 := Put(w1.(clients := OpenClient(w1.clients, false)), m, MonitorOpened(w.clients.made));
    assert Apply(w1, Open(m, false)) == Some(w2);
    RunThree(w, ShutDown(m), w1, Open(m, false), w2, Publish(m, other));
    RunTwo(w, ShutDown(m), w1, FailOpening(m));
  }

  lemma RecoveringClient(w: World, m: TaskId)
    requires Inv(w) && w.state.Recovering? && Free(w) && m in w.tasks && w.tasks[m] == MonitorWaiting
    ensures w.clients.guard == Some(InClient(w.state.c)) && w.clients.live == {w.state.c}
    ensures w.storage == Storage(true, true) && w.monitor == Some(m)
  {
    hide CallsMatch;
    hide OrphanMatches;
    TaskLocks(w, m);
  }

  lemma TakesOver(w: World, m: TaskId) returns (after: World)
    requires w.state.Recovering? && Free(w) && m in w.tasks && w.tasks[m] == MonitorWaiting
    ensures Run(w, [Watch(m), Recovered(m, true), TakeOver(m)]) == Some(after)
    ensures after == w.(writer := Some(m), state := Dead, tasks := w.tasks[m := MonitorHolding(w.state.c)])
  {
    hide Unique;
    var w1 := Put(w.(reader := Some(m)), m, MonitorWatching);
    var w2 := Put(w1.(reader := None), m, MonitorUpgrading);
    after := Put(w2.(writer := Some(m), state := Dead), m, MonitorHolding(w.state.c));
    RunThree(w, Watch(m), w1, Recovered(m, true), w2, TakeOver(m));
    assert w.tasks[m := MonitorWatching][m := MonitorUpgrading][m := MonitorHolding(w.state.c)]
        == w.tasks[m := MonitorHolding(w.state.c)];
  }

  function ClosedBy(w: World, t: TaskId): World
    requires t in w.tasks
  {
    Put(w.(clients := Clients(Some(InTask(t)), {}, w.clients.made, w.clients.recovered)), t,
        if w.tasks[t].LeaveRemoved? then LeaveShut else MonitorShut)
  }

  /** Shutting the client down, with nobody holding a clone. */
  lemma CloseIt(w: World, t: TaskId, c: ClientId)
    requires t in w.tasks && (w.tasks[t] == LeaveRemoved(c) || w.tasks[t] == MonitorHolding(c))
    requires w.clients.live == {c} && Unique(w, c)
    ensures Apply(w, ShutDown(t)) == Some(ClosedBy(w, t))
  {
    assert w.clients.live - {c} == {};
  }

  /** A leave that nothing interrupts: nothing is left of the federation. */
  lemma LeaveCompletes(acts: seq<Action>, w: World, t: TaskId)
    requires Reaches(acts, w) && w.state.Normal? && Free(w) && Unique(w, w.state.c) && t !in w.tasks
    ensures var after := Run(w, [StartLeave(t), BeginLeave(t)]
                                + [RemoveInfo(t, true), ShutDown(t), DeleteData(t, true)]);
            && after.Some? && after.value.state == Left && Free(after.value)
            && after.value.clients == Clients(None, {}, w.clients.made, w.clients.recovered)
            && after.value.storage == Storage(false, false)
            && after.value.failed == w.failed
  {
    ReachedIsNew(acts, w);
    NormalClient(w);
    hide Inv;
    var w1 := Put(w, t, Leaving);
    var w2 := Put(w1.(state := Left, writer := Some(t)), t, LeaveHolding(w.state.c));
    RunTwo(w, StartLeave(t), w1, BeginLeave(t));
    LeavesNothing(w2, t, w.state.c);
    RunConcat(w, [StartLeave(t), BeginLeave(t)], [RemoveInfo(t, true), ShutDown(t), DeleteData(t, true)]);
  }

  lemma NormalClient(w: World)
    requires Inv(w) && w.state.Normal? && w.writer.None?
    ensures w.clients.guard == Some(InClient(w.state.c)) && w.clients.live == {w.state.c}
    ensures w.storage == Storage(true, true)
  {
    hide LocksMatch;
    hide CallsMatch;
    hide OrphanMatches;
  }

  /** From the point where a leave, or a monitor that found reused nonces, has the client in its hands. */
  lemma LeavesNothing(w: World, t: TaskId, c: ClientId)
    requires t in w.tasks && w.tasks[t] == LeaveHolding(c) && w.storage == Storage(true, true)
    requires w.clients.live == {c} && forall u :: u in w.tasks ==> w.tasks[u] != Call(c)
    ensures var after := Run(w, [RemoveInfo(t, true), ShutDown(t), DeleteData(t, true)]);
            && after.Some? && after.value.state == w.state && after.value.writer.None? && after.value.reader == w.reader
            && after.value.clients == Clients(None, {}, w.clients.made, w.clients.recovered)
            && after.value.storage == Storage(false, false)
            && after.value.failed == w.failed
            && after.value.monitor == (if w.monitor == Some(t) then None else w.monitor)
  {
    var w1 := Put(w.(storage := Storage(false, true)), t, LeaveRemoved(c));
    CloseIt(w1, t, c);
    hide Unique;
    hide GiveUp;
    var w2 := Put(w1.(clients := Clients(Some(InTask(t)), {}, w.clients.made, w.clients.recovered)), t, LeaveShut);
    RunThree(w, RemoveInfo(t, true), w1, ShutDown(t), w2, DeleteData(t, true));
  }

  /** A monitor that finds reused nonces leaves the federation itself. */
  lemma NonceReuseLeaves(w: World, t: TaskId)
    requires Inv(w) && t in w.tasks && w.tasks[t].MonitorOpened? && Unique(w, w.tasks[t].c)
    ensures var after := Run(w, [FindNonceReuse(t)] + [RemoveInfo(t, true), ShutDown(t), DeleteData(t, true)]);
            && after.Some? && after.value.state == Left && Free(after.value) && after.value.monitor.None?
            && after.value.clients == Clients(None, {}, w.clients.made, w.clients.recovered)
            && after.value.storage == Storage(false, false)
  {
    ReopenedClient(w, t);
    hide Inv;
    var w1 := Put(w.(state := Left), t, LeaveHolding(w.tasks[t].c));
    assert [FindNonceReuse(t)][1..] == [];
    assert Run(w, [FindNonceReuse(t)]) == Run(w1, []) == Some(w1);
    LeavesNothing(w1, t, w.tasks[t].c);
    RunConcat(w, [FindNonceReuse(t)], [RemoveInfo(t, true), ShutDown(t), DeleteData(t, true)]);
  }

  lemma ReopenedClient(w: World, t: TaskId)
    requires Inv(w) && t in w.tasks && w.tasks[t].MonitorOpened?
    ensures w.clients.live == {w.tasks[t].c} && w.storage == Storage(true, true) && w.reader.None?
    ensures w.monitor == Some(t)
  {
    hide CallsMatch;
    hide OrphanMatches;
    TaskLocks(w, t);
  }
}
