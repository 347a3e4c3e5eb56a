/**
 * Sending a multispend event and waiting until it is folded: the senders of `send_multispend_event`
 * and the handlers of incoming events, interleaved with each other and with the rescan service.
 */
module Handshake {
  import opened Options
  import Rescanner

  type AgentId = Rescanner.AgentId
  type Channel = nat
  /** Events are named by their place in the room. */
  type Event = nat

  /** A send as its caller sees it afterwards. */
  datatype Reply = Sent(own: Event) | Refused(own: Event) | NotSent

  datatype Role =
    // an event handler
    | Queueing(event: Event, acks: bool)
    | Looking(event: Event)
    | Acking(event: Event, to: Channel)
    // a sender, which holds the mutex from Marking on
    | Locking
    | Marking
    | Settling(ch: Channel)
    | Sending(ch: Channel)
    | Receiving(ch: Channel, own: Event)
    | Received(ch: Channel, own: Event)
    | Confirming(ch: Channel, own: Event)
    | Checking(ch: Channel, own: Event)
    // either, once it is over
    | Over(reply: Option<Reply>)

  datatype World = World(
    scan: Rescanner.World,
    roles: map<AgentId, Role>,
    mutex: Option<AgentId>,
    ack: Option<Channel>,             // `send_multispend_server_ack`
    channels: nat,                    // channels made so far
    inbox: map<Channel, Event>,       // each channel holds at most one event
    posted: nat)                      // events the server has taken

  const START := World(Rescanner.START, map[], None, None, 0, map[], 0)

  datatype Action =
    | Inner(act: Rescanner.Action)    // a step of the rescan service, or of a caller inside it
    | Post                            // someone else's event reaches the server
    | Handle(a: AgentId, event: Event, multispend: bool)
    | Queued(a: AgentId)
    | Look(a: AgentId)
    | Ack(a: AgentId)
    | CallSend(a: AgentId)
    | Lock(a: AgentId)
    | StoreChannel(a: AgentId)
    | Settled(a: AgentId)
    | Transmit(a: AgentId, accepted: bool)
    | Receive(a: AgentId)
    | ClearChannel(a: AgentId)
    | Confirmed(a: AgentId)
    | Check(a: AgentId)
    | Drop(a: AgentId)                // its future is dropped at an await

  /** Senders that have put their channel into the shared field and not yet cleared it. */
  predicate Listens(role: Role) {
    role.Settling? || role.Sending? || role.Receiving? || role.Received?
  }

  predicate HoldsMutex(role: Role) {
    role.Marking? || Listens(role) || role.Confirming? || role.Checking?
  }

  function As(w: World, a: AgentId, role: Role): World {
    w.(roles := w.roles[a := role])
  }

  /** Caller `a` takes one step of the rescan service's interface. */
  function Via(w: World, act: Rescanner.Action, a: AgentId, role: Role): Option<World> {
    match Rescanner.Apply(w.scan, act)
    case None => None
    case Some(scan) => Some(As(w.(scan := scan), a, role))
  }

  /** Those with a role enter and leave the service only as it says; only posted events arrive. */
  predicate Internal(w: World, act: Rescanner.Action) {
    && (act.CallQueue? || act.CallWait? || act.Leave? ==> act.a !in w.roles)
    && (act.Arrive? ==> w.scan.visible < w.posted)
  }

  function PcOf(w: World, a: AgentId): Rescanner.Pc {
    if a in w.scan.agents then w.scan.agents[a].pc else Rescanner.Free
  }

  /** One step; `None` when it cannot be taken. `invalid` is the fold's verdict on each event. */
  function Apply(w: World, act: Action, invalid: Event -> bool): Option<World> {
    match act
    case Inner(act) =>
      if !Internal(w, act) then None
      else
        (match Rescanner.Apply(w.scan, act)
         case None => None
         case Some(scan) => Some(w.(scan := scan)))
    case Post => Some(w.(posted := w.posted + 1))
    case Handle(a, event, multispend) =>
      if a in w.roles || event >= w.scan.visible then None
      else Via(w, Rescanner.CallQueue(a), a, Queueing(event, multispend))
    case CallSend(a) =>
      if a in w.roles || a !in w.scan.agents || PcOf(w, a) != Rescanner.Free then None
      else Some(As(w, a, Locking))
    case _ =>
      if act.a !in w.roles then None else RoleStep(w, act, w.roles[act.a], invalid)
  }

  predicate IsRoleAction(act: Action) {
    !act.Inner? && !act.Post? && !act.Handle? && !act.CallSend?
  }

  function RoleStep(w: World, act: Action, role: Role, invalid: Event -> bool): Option<World>
    requires IsRoleAction(act)
  {
    if act.Drop? then DropStep(w, act.a, role)
    else if act.Queued? || act.Look? || act.Ack? then HandlerStep(w, act, role)
    else if act.StoreChannel? || act.Settled? || act.ClearChannel? || act.Confirmed? then WaitStep(w, act, role)
    else SendStep(w, act, role, invalid)
  }

  /** An event handler: queue a rescan, look up who waits for acknowledgements, and send one. */
  function HandlerStep(w: World, act: Action, role: Role): Option<World>
    requires act.Queued? || act.Look? || act.Ack?
  {
    var a := act.a;
    match act
    case Queued(_) =>
      if !role.Queueing? || PcOf(w, a) != Rescanner.QueueDone then None
      else Via(w, Rescanner.Leave(a), a, if role.acks then Looking(role.event) else Over(None))
    case Look(_) =>
      if !role.Looking? then None
      else Some(As(w, a, if w.ack.Some? then Acking(role.event, w.ack.value) else Over(None)))
    case Ack(_) =>
      if !role.Acking? then None
      else if !ReceiverAlive(w, role.to) then Some(As(w, a, Over(None)))
      else if role.to in w.inbox then None
      else Some(As(w.(inbox := w.inbox[role.to := role.event]), a, Over(None)))
  }

  /** A sender on its way into or out of `wait_for_scanned`. */
  function WaitStep(w: World, act: Action, role: Role): Option<World>
    requires act.StoreChannel? || act.Settled? || act.ClearChannel? || act.Confirmed?
  {
    var a := act.a;
    match act
    case StoreChannel(_) =>
      if !role.Marking? then None
      else Via(w.(ack := Some(w.channels), channels := w.channels + 1), Rescanner.CallWait(a), a,
               Settling(w.channels))
    case Settled(_) =>
      if !role.Settling? || PcOf(w, a) != Rescanner.WaitDone then None
      else Via(w, Rescanner.Leave(a), a, Sending(role.ch))
    case ClearChannel(_) =>
      if !role.Received? then None
      else Via(w.(ack := None), Rescanner.CallWait(a), a, Confirming(role.ch, role.own))
    case Confirmed(_) =>
      if !role.Confirming? || PcOf(w, a) != Rescanner.WaitDone then None
      else Via(w, Rescanner.Leave(a), a, Checking(role.ch, role.own))
  }

  /** The other steps of a sender: the mutex, the server, the channel and the final lookup. */
  function SendStep(w: World, act: Action, role: Role, invalid: Event -> bool): Option<World>
    requires act.Lock? || act.Transmit? || act.Receive? || act.Check?
  {
    var a := act.a;
    match act
    case Lock(_) =>
      if !role.Locking? || w.mutex.Some? then None else Some(As(w.(mutex := Some(a)), a, Marking))
    case Transmit(_, accepted) =>
      if !role.Sending? then None
      else if accepted then Some(As(w.(posted := w.posted + 1), a, Receiving(role.ch, w.posted)))
      else Some(As(w.(mutex := None), a, Over(Some(NotSent))))
    case Receive(_) =>
      if !role.Receiving? || role.ch !in w.inbox then None
      else
        var found := w.inbox[role.ch] == role.own;
        Some(As(w.(inbox := w.inbox - {role.ch}), a, if found then Received(role.ch, role.own) else role))
    case Check(_) =>
      if !role.Checking? then None
      else
        var found := role.own < w.scan.folded && invalid(role.own);
        Some(As(w.(mutex := None), a, Over(Some(if found then Refused(role.own) else Sent(role.own)))))
  }

  function DropStep(w: World, a: AgentId, role: Role): Option<World> {
    if role.Over? then None
    else
      var w' := As(if w.mutex == Some(a) then w.(mutex := None) else w, a, Over(None));
      if PcOf(w, a) == Rescanner.Free then Some(w') else Via(w', Rescanner.Leave(a), a, Over(None))
  }

  /** The receiving end lives until its send returns or is dropped. */
  predicate ReceiverAlive(w: World, ch: Channel) {
    && w.mutex.Some? && w.mutex.value in w.roles
    && var role := w.roles[w.mutex.value]; HoldsMutex(role) && !role.Marking? && role.ch == ch
  }

  // ---------------------------------------------------------------- invariant

  ghost predicate MutexMatches(w: World) {
    && (forall a :: a in w.roles ==> (HoldsMutex(w.roles[a]) <==> w.mutex == Some(a)))
    && (w.mutex.Some? ==> w.mutex.value in w.roles)
  }

  /** A sender that is still listening has its channel in the shared field. */
  ghost predicate ChannelMatches(w: World) {
    && (w.ack.Some? ==> w.ack.value < w.channels)
    && (w.mutex.Some? && w.mutex.value in w.roles ==>
          var role := w.roles[w.mutex.value]; Listens(role) ==> w.ack == Some(role.ch))
  }

  /** What an acknowledgement proves: a rescan was queued while its event could be read. */
  ghost predicate Known(w: World, event: Event) {
    event < w.scan.demand
  }

  ghost predicate InboxMatches(w: World) {
    forall ch :: ch in w.inbox ==> Known(w, w.inbox[ch])
  }

  ghost predicate RoleMatches(w: World, a: AgentId, role: Role)
  {
    match role
    case Queueing(event, _) =>
      && a in w.scan.agents && event < w.scan.visible && w.scan.agents[a].goal.None?
      && (PcOf(w, a).QueueEnter? || Known(w, event)) && !PcOf(w, a).Free?
    case Looking(event) => Known(w, event)
    case Acking(event, _) => Known(w, event)
    case Settling(_) => a in w.scan.agents
    case Received(_, own) => Known(w, own)
    case Confirming(_, own) =>
      && a in w.scan.agents && w.scan.agents[a].goal.Some? && own < w.scan.agents[a].goal.value.demand
    case Checking(_, own) => w.scan.failed || own < w.scan.folded
    case _ => true
  }

  ghost predicate ReplyMatches(w: World, role: Role, invalid: Event -> bool) {
    match role
    case Over(Some(Sent(own))) => w.scan.failed || (own < w.scan.folded && !invalid(own))
    case Over(Some(Refused(own))) => own < w.scan.folded && invalid(own)
    case _ => true
  }

  ghost predicate RolesMatch(w: World, invalid: Event -> bool) {
    forall a :: a in w.roles ==> RoleMatches(w, a, w.roles[a]) && ReplyMatches(w, w.roles[a], invalid)
  }

  ghost predicate Inv(w: World, invalid: Event -> bool) {
    && Rescanner.Inv(w.scan) && w.scan.visible <= w.posted
    && MutexMatches(w) && ChannelMatches(w) && InboxMatches(w) && RolesMatch(w, invalid)
  }

  lemma StartInv(invalid: Event -> bool)
    ensures Inv(START, invalid)
  {
    Rescanner.StartInv();
  }

  // ---------------------------------------------------------------- what the service's steps keep

  ghost predicate Grows(s: Rescanner.World, s': Rescanner.World) {
    s.demand <= s'.demand && s.folded <= s'.folded && s.visible <= s'.visible && (s.failed ==> s'.failed)
  }

  /** Caller `a` is still in the same call; a queued request has made everything readable demanded. */
  ghost predicate Stays(s: Rescanner.World, s': Rescanner.World, a: AgentId) {
    a in s.agents ==>
      && a in s'.agents && s'.agents[a].goal == s.agents[a].goal
      && (!s.agents[a].pc.Free? ==> !s'.agents[a].pc.Free?)
      && (s.agents[a].goal.None? && !s.agents[a].pc.WaitEnter? && s'.agents[a].pc.QueueEnter? ==>
            s.agents[a].pc.QueueEnter?)
      && (s.agents[a].goal.None? && s.agents[a].pc.QueueEnter? && !s'.agents[a].pc.QueueEnter? ==>
            s'.demand == s.visible)
  }

  lemma ScanGrows(s: Rescanner.World, act: Rescanner.Action)
    requires Rescanner.Inv(s) && Rescanner.Apply(s, act).Some?
    ensures Grows(s, Rescanner.Apply(s, act).value)
    ensures Rescanner.Apply(s, act).value.visible == s.visible + (if act.Arrive? then 1 else 0)
  {
    hide Rescanner.WaitersMatch;
  }

  lemma CallerStays(s: Rescanner.World, act: Rescanner.Action, a: AgentId)
    requires Rescanner.Inv(s) && !Rescanner.IsTaskAction(act) && Rescanner.CallerStep(s, act).Some?
    requires act.CallQueue? || act.CallWait? || act.Leave? ==> act.a != a
    ensures Stays(s, Rescanner.CallerStep(s, act).value, a)
  {
    hide Rescanner.LockMatches;
    hide Rescanner.SpawnerMatches;
    hide Rescanner.StateMatchesTask;
    hide Rescanner.ScansServeRequests;
    if a in s.agents {
      CallerGoal(s, a);
    }
    hide Rescanner.WaitersMatch;
  }

  /** Only those inside `wait_for_scanned` have a goal. */
  lemma CallerGoal(s: Rescanner.World, a: AgentId)
    requires Rescanner.Inv(s) && a in s.agents
    ensures s.agents[a].goal.None? ==> s.agents[a].pc.Free? || Rescanner.OnlyQueues(s.agents[a].pc)
  {
    assert Rescanner.WaiterMatches(s, s.agents[a]);
  }

  lemma TaskStays(s: Rescanner.World, act: Rescanner.Action, a: AgentId)
    requires Rescanner.IsTaskAction(act) && Rescanner.TaskStep(s, act).Some?
    ensures Stays(s, Rescanner.TaskStep(s, act).value, a)
  {
  }

  lemma ScanStays(s: Rescanner.World, act: Rescanner.Action, a: AgentId)
    requires Rescanner.Inv(s) && Rescanner.Apply(s, act).Some?
    requires act.CallQueue? || act.CallWait? || act.Leave? ==> act.a != a
    ensures Stays(s, Rescanner.Apply(s, act).value, a)
  {
    hide Rescanner.CallerStep;
    hide Rescanner.TaskStep;
    hide Rescanner.Inv;
    if Rescanner.IsTaskAction(act) {
      TaskStays(s, act, a);
    } else {
      CallerStays(s, act, a);
    }
  }

  /** Entering `queue_rescan` or `wait_for_scanned`, and leaving either. */
  lemma EntersAndLeaves(s: Rescanner.World, act: Rescanner.Action)
    requires (act.CallQueue? || act.CallWait? || act.Leave?) && Rescanner.Apply(s, act).Some?
    ensures var s' := Rescanner.Apply(s, act).value;
      && act.a in s'.agents && s' == s.(agents := s.agents[act.a := s'.agents[act.a]])
      && (act.CallQueue? ==> s'.agents[act.a] == Rescanner.Agent(Rescanner.QueueEnter, None))
      && (act.CallWait? ==>
            s'.agents[act.a] == Rescanner.Agent(Rescanner.WaitEnter, Some(Rescanner.Goal(s.requested, s.demand))))
  {
  }

  lemma RoleSurvives(w: World, w': World, a: AgentId, role: Role, invalid: Event -> bool)
    requires RoleMatches(w, a, role) && ReplyMatches(w, role, invalid)
    requires Grows(w.scan, w'.scan) && Stays(w.scan, w'.scan, a)
    requires Rescanner.Inv(w.scan)
    ensures RoleMatches(w', a, role) && ReplyMatches(w', role, invalid)
  {
    if role.Queueing? {
      assert Rescanner.WaiterMatches(w.scan, w.scan.agents[a]);
    }
  }

  // ---------------------------------------------------------------- what the roles' steps keep

  /** A role's step moves that role only, and the service only by entering or leaving it. */
  ghost predicate MovesOnly(w: World, w': World, a: AgentId) {
    && a in w'.roles && w'.roles == w.roles[a := w'.roles[a]]
    && (w'.scan == w.scan
        || (a in w'.scan.agents
            && w'.scan == w.scan.(agents := w.scan.agents[a := w'.scan.agents[a]])))
    && Rescanner.Inv(w'.scan) && w.posted <= w'.posted
  }

  /** The step leaves its own role with what the next stage relies on. */
  ghost predicate Reaches(w: World, a: AgentId, invalid: Event -> bool) {
    && a in w.roles && RoleMatches(w, a, w.roles[a]) && ReplyMatches(w, w.roles[a], invalid)
  }

  /** What entering or leaving the service from `w0` does, whatever else the step changed before. */
  lemma ViaMoves(w0: World, w: World, call: Rescanner.Action, a: AgentId, role: Role)
    requires Rescanner.Inv(w0.scan) && w.scan == w0.scan && Via(w, call, a, role).Some?
    requires call == Rescanner.Leave(a) || call == Rescanner.CallWait(a) || call == Rescanner.CallQueue(a)
    ensures var w' := Via(w, call, a, role).value;
      && w' == As(w.(scan := w'.scan), a, role) && a in w'.roles && w'.roles[a] == role
      && a in w'.scan.agents && w'.scan.demand == w.scan.demand && w'.scan.folded == w.scan.folded
      && w'.scan.failed == w.scan.failed && w'.scan.visible == w.scan.visible
      && w'.scan == w0.scan.(agents := w0.scan.agents[a := w'.scan.agents[a]])
      && Rescanner.Inv(w'.scan)
      && (call.CallQueue? ==> w'.scan.agents[a] == Rescanner.Agent(Rescanner.QueueEnter, None))
      && (call.CallWait? ==>
            && w'.scan.agents[a].goal.Some? && w'.scan.agents[a].goal.value.demand == w0.scan.demand)
  {
    EntersAndLeaves(w.scan, call);
    Rescanner.ApplyKeepsInv(w.scan, call);
  }

  /** The parts of the invariant one role's step starts from. */
  lemma RoleFacts(w: World, a: AgentId, invalid: Event -> bool)
    requires Inv(w, invalid) && a in w.roles
    ensures RoleMatches(w, a, w.roles[a]) && ReplyMatches(w, w.roles[a], invalid)
    ensures Rescanner.Inv(w.scan)
    ensures a in w.scan.agents ==> Rescanner.WaiterMatches(w.scan, w.scan.agents[a])
    ensures w.roles[a].Receiving? && w.roles[a].ch in w.inbox ==> Known(w, w.inbox[w.roles[a].ch])
  {
  }

  lemma HandlerStepReaches(w: World, act: Action, invalid: Event -> bool)
    requires Inv(w, invalid) && (act.Queued? || act.Look? || act.Ack?) && act.a in w.roles
    requires HandlerStep(w, act, w.roles[act.a]).Some?
    ensures Reaches(HandlerStep(w, act, w.roles[act.a]).value, act.a, invalid)
  {
    hide Via;
    hide Inv;
    hide Rescanner.Inv;
    hide ReceiverAlive;
    var a, role := act.a, w.roles[act.a];
    RoleFacts(w, a, invalid);
    if act.Queued? {
      ViaMoves(w, w, Rescanner.Leave(a), a, if role.acks then Looking(role.event) else Over(None));
    }
  }

  lemma EnterWaitReaches(w: World, act: Action, invalid: Event -> bool)
    requires Inv(w, invalid) && (act.StoreChannel? || act.ClearChannel?) && act.a in w.roles
    requires WaitStep(w, act, w.roles[act.a]).Some?
    ensures Reaches(WaitStep(w, act, w.roles[act.a]).value, act.a, invalid)
  {
    hide Via;
    hide Inv;
    hide Rescanner.Inv;
    var a, role := act.a, w.roles[act.a];
    RoleFacts(w, a, invalid);
    if act.StoreChannel? {
      ViaMoves(w, w.(ack := Some(w.channels), channels := w.channels + 1), Rescanner.CallWait(a), a,
               Settling(w.channels));
    } else {
      ViaMoves(w, w.(ack := None), Rescanner.CallWait(a), a, Confirming(role.ch, role.own));
    }
  }

  lemma LeaveWaitReaches(w: World, act: Action, invalid: Event -> bool)
    requires Inv(w, invalid) && (act.Settled? || act.Confirmed?) && act.a in w.roles
    requires WaitStep(w, act, w.roles[act.a]).Some?
    ensures Reaches(WaitStep(w, act, w.roles[act.a]).value, act.a, invalid)
  {
    hide Via;
    hide Inv;
    hide Rescanner.Inv;
    var a, role := act.a, w.roles[act.a];
    RoleFacts(w, a, invalid);
    ViaMoves(w, w, Rescanner.Leave(a), a,
             if act.Settled? then Sending(role.ch) else Checking(role.ch, role.own));
  }

  lemma SendStepReaches(w: World, act: Action, invalid: Event -> bool)
    requires Inv(w, invalid)
    requires (act.Lock? || act.Transmit? || act.Receive? || act.Check?) && act.a in w.roles
    requires SendStep(w, act, w.roles[act.a], invalid).Some?
    ensures Reaches(SendStep(w, act, w.roles[act.a], invalid).value, act.a, invalid)
  {
    hide Inv;
    hide Rescanner.Inv;
    RoleFacts(w, act.a, invalid);
  }

  lemma RoleStepReaches(w: World, act: Action, invalid: Event -> bool)
    requires Inv(w, invalid) && IsRoleAction(act) && act.a in w.roles
    requires RoleStep(w, act, w.roles[act.a], invalid).Some?
    ensures Reaches(RoleStep(w, act, w.roles[act.a], invalid).value, act.a, invalid)
  {
    hide Inv;
    hide HandlerStep;
    hide WaitStep;
    hide SendStep;
    match act {
      case Drop(_) =>
      case StoreChannel(_) => EnterWaitReaches(w, act, invalid);
      case ClearChannel(_) => EnterWaitReaches(w, act, invalid);
      case Settled(_) => LeaveWaitReaches(w, act, invalid);
      case Confirmed(_) => LeaveWaitReaches(w, act, invalid);
      case Queued(_) => HandlerStepReaches(w, act, invalid);
      case Look(_) => HandlerStepReaches(w, act, invalid);
      case Ack(_) => HandlerStepReaches(w, act, invalid);
      case _ => SendStepReaches(w, act, invalid);
    }
  }

  lemma RoleStepMoves(w: World, act: Action, invalid: Event -> bool)
    requires Rescanner.Inv(w.scan) && IsRoleAction(act) && act.a in w.roles
    requires RoleStep(w, act, w.roles[act.a], invalid).Some?
    ensures MovesOnly(w, RoleStep(w, act, w.roles[act.a], invalid).value, act.a)
  {
    hide Via;
    hide Rescanner.Inv;
    var a, role := act.a, w.roles[act.a];
    match act {
      case StoreChannel(_) =>
        ViaMoves(w, w.(ack := Some(w.channels), channels := w.channels + 1), Rescanner.CallWait(a), a,
                 Settling(w.channels));
      case ClearChannel(_) =>
        ViaMoves(w, w.(ack := None), Rescanner.CallWait(a), a, Confirming(role.ch, role.own));
      case Settled(_) => ViaMoves(w, w, Rescanner.Leave(a), a, Sending(role.ch));
      case Confirmed(_) => ViaMoves(w, w, Rescanner.Leave(a), a, Checking(role.ch, role.own));
      case Queued(_) =>
        ViaMoves(w, w, Rescanner.Leave(a), a, if role.acks then Looking(role.event) else Over(None));
      case Drop(_) =>
        if PcOf(w, a) != Rescanner.Free {
          ViaMoves(w, As(if w.mutex == Some(a) then w.(mutex := None) else w, a, Over(None)),
                   Rescanner.Leave(a), a, Over(None));
        }
      case _ =>
    }
  }

  /** Taking and releasing the mutex goes with the role's own stage, and so does the channel. */
  lemma MutexMoves(w: World, act: Action, invalid: Event -> bool)
    requires IsRoleAction(act) && act.a in w.roles
    requires RoleStep(w, act, w.roles[act.a], invalid).Some?
    requires MovesOnly(w, RoleStep(w, act, w.roles[act.a], invalid).value, act.a)
    requires HoldsMutex(w.roles[act.a]) <==> w.mutex == Some(act.a)
    ensures var w', a := RoleStep(w, act, w.roles[act.a], invalid).value, act.a;
      && (HoldsMutex(w'.roles[a]) <==> w'.mutex == Some(a))
      && (w'.mutex == w.mutex
          || (w.mutex.None? && w'.mutex == Some(a)) || (w.mutex == Some(a) && w'.mutex.None?))
      && (w'.ack == w.ack || w.mutex == Some(a)) && w.channels <= w'.channels
      && (w'.ack.Some? ==> w'.ack.value < w'.channels || w'.ack == w.ack)
      && (Listens(w'.roles[a]) ==>
            w'.ack == Some(w'.roles[a].ch)
            || (Listens(w.roles[a]) && w.roles[a].ch == w'.roles[a].ch && w'.ack == w.ack))
  {
    hide Rescanner.Apply;
    hide Rescanner.Inv;
    hide MovesOnly;
    hide ReceiverAlive;
    hide PcOf;
  }

  lemma RoleStepKeepsMutex(w: World, act: Action, invalid: Event -> bool)
    requires MutexMatches(w) && ChannelMatches(w) && IsRoleAction(act) && act.a in w.roles
    requires RoleStep(w, act, w.roles[act.a], invalid).Some?
    requires MovesOnly(w, RoleStep(w, act, w.roles[act.a], invalid).value, act.a)
    ensures MutexMatches(RoleStep(w, act, w.roles[act.a], invalid).value)
    ensures ChannelMatches(RoleStep(w, act, w.roles[act.a], invalid).value)
  {
    hide RoleStep;
    hide Rescanner.Inv;
    MutexMoves(w, act, invalid);
  }

  lemma RoleStepKeepsInbox(w: World, act: Action, invalid: Event -> bool)
    requires InboxMatches(w) && IsRoleAction(act) && act.a in w.roles
    requires RoleStep(w, act, w.roles[act.a], invalid).Some?
    requires MovesOnly(w, RoleStep(w, act, w.roles[act.a], invalid).value, act.a)
    requires RoleMatches(w, act.a, w.roles[act.a])
    ensures InboxMatches(RoleStep(w, act, w.roles[act.a], invalid).value)
  {
    hide Rescanner.Apply;
    hide Rescanner.Inv;
    hide ReceiverAlive;
  }

  // ---------------------------------------------------------------- every step keeps the invariant

  lemma OthersSurvive(w: World, w': World, a: AgentId, invalid: Event -> bool)
    requires Inv(w, invalid) && MovesOnly(w, w', a) && Reaches(w', a, invalid)
    ensures RolesMatch(w', invalid)
  {
    hide Rescanner.Inv;
    hide MutexMatches;
    hide ChannelMatches;
    hide InboxMatches;
    forall b | b in w'.roles ensures RoleMatches(w', b, w'.roles[b]) && ReplyMatches(w', w'.roles[b], invalid) {
      if b != a {
        RoleSurvives(w, w', b, w.roles[b], invalid);
      }
    }
  }

  lemma RoleStepKeepsInv(w: World, act: Action, invalid: Event -> bool)
    requires Inv(w, invalid) && IsRoleAction(act) && act.a in w.roles
    requires RoleStep(w, act, w.roles[act.a], invalid).Some?
    ensures Inv(RoleStep(w, act, w.roles[act.a], invalid).value, invalid)
  {
    hide RoleStep;
    hide Rescanner.Inv;
    hide MutexMatches;
    hide ChannelMatches;
    hide InboxMatches;
    hide RolesMatch;
    var w' := RoleStep(w, act, w.roles[act.a], invalid).value;
    RoleFacts(w, act.a, invalid);
    RoleStepMoves(w, act, invalid);
    RoleStepReaches(w, act, invalid);
    RoleStepKeepsMutex(w, act, invalid);
    RoleStepKeepsInbox(w, act, invalid);
    OthersSurvive(w, w', act.a, invalid);
  }

  lemma InnerKeepsInv(w: World, act: Rescanner.Action, invalid: Event -> bool)
    requires Inv(w, invalid) && Internal(w, act) && Rescanner.Apply(w.scan, act).Some?
    ensures Inv(w.(scan := Rescanner.Apply(w.scan, act).value), invalid)
  {
    hide Rescanner.Apply;
    hide Rescanner.Inv;
    var w' := w.(scan := Rescanner.Apply(w.scan, act).value);
    Rescanner.ApplyKeepsInv(w.scan, act);
    ScanGrows(w.scan, act);
    forall b | b in w'.roles ensures RoleMatches(w', b, w'.roles[b]) && ReplyMatches(w', w'.roles[b], invalid) {
      ScanStays(w.scan, act, b);
      RoleSurvives(w, w', b, w.roles[b], invalid);
    }
  }

  lemma EnterKeepsInv(w: World, act: Action, invalid: Event -> bool)
    requires Inv(w, invalid) && (act.Handle? || act.CallSend?) && Apply(w, act, invalid).Some?
    ensures Inv(Apply(w, act, invalid).value, invalid)
  {
    hide Via;
    hide Rescanner.Inv;
    if act.Handle? {
      ViaMoves(w, w, Rescanner.CallQueue(act.a), act.a, Queueing(act.event, act.multispend));
    }
    OthersSurvive(w, Apply(w, act, invalid).value, act.a, invalid);
  }

  lemma ApplyKeepsInv(w: World, act: Action, invalid: Event -> bool)
    requires Inv(w, invalid) && Apply(w, act, invalid).Some?
    ensures Inv(Apply(w, act, invalid).value, invalid)
  {
    hide RoleStep;
    hide Via;
    hide Rescanner.Apply;
    hide Rescanner.Inv;
    match act {
      case Inner(inner) => InnerKeepsInv(w, inner, invalid);
      case Post =>
      case Handle(_, _, _) => EnterKeepsInv(w, act, invalid);
      case CallSend(_) => EnterKeepsInv(w, act, invalid);
      case _ => RoleStepKeepsInv(w, act, invalid);
    }
  }

  // ---------------------------------------------------------------- whole runs

  function Run(w: World, acts: seq<Action>, invalid: Event -> bool): Option<World>
    decreases |acts|
  {
    if acts == [] then Some(w)
    else
      match Apply(w, acts[0], invalid)
      case None => None
      case Some(w') => Run(w', acts[1..], invalid)
  }

  lemma {:induction false} RunKeepsInv(w: World, acts: seq<Action>, invalid: Event -> bool)
    requires Inv(w, invalid) && Run(w, acts, invalid).Some?
    ensures Inv(Run(w, acts, invalid).value, invalid)
    decreases |acts|
  {
    hide Apply;
    hide Inv;
    if acts != [] {
      ApplyKeepsInv(w, acts[0], invalid);
      RunKeepsInv(Apply(w, acts[0], invalid).value, acts[1..], invalid);
    }
  }

  /**
   * In every interleaving of senders, handlers and the rescan task: while scans succeed, a send is
   * reported done only once its own event is folded and found valid, and refused only once it is
   * folded and found invalid.
   */
  lemma SendIsSound(acts: seq<Action>, invalid: Event -> bool, a: AgentId)
    requires Run(START, acts, invalid).Some?
    ensures var w := Run(START, acts, invalid).value;
      a in w.roles && w.roles[a].Over? && w.roles[a].reply.Some? ==>
        match w.roles[a].reply.value
        case Sent(own) => w.scan.failed || (own < w.scan.folded && !invalid(own))
        case Refused(own) => own < w.scan.folded && invalid(own)
        case NotSent => true
  {
    hide Rescanner.Inv;
    StartInv(invalid);
    RunKeepsInv(START, acts, invalid);
    var w := Run(START, acts, invalid).value;
    if a in w.roles {
      RoleFacts(w, a, invalid);
    }
  }

  /**
   * In every interleaving at most one send is under way, and while it receives, the shared field
   * holds its channel: the receive loop cannot end without its own event, so its assertion holds.
   */
  lemma ReceiveNeverDisconnects(acts: seq<Action>, invalid: Event -> bool, a: AgentId, b: AgentId)
    requires Run(START, acts, invalid).Some?
    ensures var w := Run(START, acts, invalid).value;
      a in w.roles && w.roles[a].Receiving? ==>
        && w.ack == Some(w.roles[a].ch)
        && (b in w.roles && HoldsMutex(w.roles[b]) ==> b == a)
  {
    hide Rescanner.Inv;
    hide RolesMatch;
    StartInv(invalid);
    RunKeepsInv(START, acts, invalid);
  }
}
