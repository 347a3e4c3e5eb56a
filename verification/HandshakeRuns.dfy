/**
 * What the handshake comes to when nothing interrupts it: a send goes through, is acknowledged by the handler
 * of its own event, and is reported as the fold judged it.
 */
module HandshakeRuns {
  import opened Options
  import opened Handshake
  import Rescanner
  import RescanRuns

  /** One world can become the other. */
  ghost predicate Leads(w: World, w': World, invalid: Event -> bool) {
    exists acts :: Run(w, acts, invalid) == Some(w')
  }

  lemma {:induction false} RunConcat(w: World, a: seq<Action>, b: seq<Action>, invalid: Event -> bool)
    requires Run(w, a, invalid).Some?
    ensures Run(w, a + b, invalid) == Run(Run(w, a, invalid).value, b, invalid)
    decreases |a|
  {
    hide Apply;
    if a == [] {
      assert a + b == b;
    } else {
      assert (a + b)[0] == a[0] && (a + b)[1..] == a[1..] + b;
      RunConcat(Apply(w, a[0], invalid).value, a[1..], b, invalid);
    }
  }

  lemma LeadsOn(w: World, w1: World, w2: World, invalid: Event -> bool)
    requires Leads(w, w1, invalid) && Leads(w1, w2, invalid)
    ensures Leads(w, w2, invalid)
  {
    hide Run;
    var a :| Run(w, a, invalid) == Some(w1);
    var b :| Run(w1, b, invalid) == Some(w2);
    RunConcat(w, a, b, invalid);
  }

  lemma Takes(w: World, act: Action, w': World, invalid: Event -> bool)
    requires Apply(w, act, invalid) == Some(w')
    ensures Leads(w, w', invalid)
  {
    hide Apply;
    assert [act][1..] == [] && Run(w', [], invalid) == Some(w');
    assert Run(w, [act], invalid) == Some(w');
  }

  /** Continues a sequence of steps by one. */
  lemma ThenTakes(w: World, w1: World, act: Action, w2: World, invalid: Event -> bool)
    requires Leads(w, w1, invalid) && Apply(w1, act, invalid) == Some(w2)
    ensures Leads(w, w2, invalid)
  {
    hide Apply;
    hide Leads;
    Takes(w1, act, w2, invalid);
    LeadsOn(w, w1, w2, invalid);
  }

  lemma LeadsKeepsInv(w: World, w': World, invalid: Event -> bool)
    requires Inv(w, invalid) && Leads(w, w', invalid)
    ensures Inv(w', invalid)
  {
    hide Inv;
    hide Run;
    var acts :| Run(w, acts, invalid) == Some(w');
    RunKeepsInv(w, acts, invalid);
  }

  // ---------------------------------------------------------------- the service's calm steps

  lemma CalmIsInternal(w: World, act: Rescanner.Action)
    requires RescanRuns.IsCalm(act)
    ensures Internal(w, act)
  {
  }

  lemma {:induction false} LiftRun(w: World, acts: seq<Rescanner.Action>, s: Rescanner.World, invalid: Event -> bool)
    requires RescanRuns.Calm(acts) && Rescanner.Run(w.scan, acts) == Some(s)
    ensures Leads(w, w.(scan := s), invalid)
    decreases |acts|
  {
    hide Rescanner.Apply;
    hide Internal;
    hide RescanRuns.IsCalm;
    if acts == [] {
      assert w.(scan := s) == w && Run(w, [], invalid) == Some(w);
    } else {
      var s1 := Rescanner.Apply(w.scan, acts[0]).value;
      CalmIsInternal(w, acts[0]);
      var w1 := w.(scan := s1);
      assert Apply(w, Inner(acts[0]), invalid) == Some(w1);
      LiftRun(w1, acts[1..], s, invalid);
      Takes(w, Inner(acts[0]), w1, invalid);
      LeadsOn(w, w1, w.(scan := s), invalid);
    }
  }

  lemma Lift(w: World, s: Rescanner.World, invalid: Event -> bool)
    requires RescanRuns.Leads(w.scan, s)
    ensures Leads(w, w.(scan := s), invalid)
  {
    hide Rescanner.Run;
    hide RescanRuns.Calm;
    var acts :| RescanRuns.Calm(acts) && Rescanner.Run(w.scan, acts) == Some(s);
    LiftRun(w, acts, s, invalid);
  }

  // ---------------------------------------------------------------- channels

  /** Every channel that anything goes to has been made. */
  ghost predicate ChannelsMade(w: World) {
    && (forall ch :: ch in w.inbox ==> ch < w.channels)
    && (forall a :: a in w.roles && w.roles[a].Acking? ==> w.roles[a].to < w.channels)
    && (w.ack.Some? ==> w.ack.value < w.channels)
  }

  lemma StepKeepsChannels(w: World, act: Action, invalid: Event -> bool)
    requires ChannelsMade(w) && Apply(w, act, invalid).Some?
    ensures ChannelsMade(Apply(w, act, invalid).value)
  {
    hide Rescanner.Apply;
    hide Internal;
    hide PcOf;
    hide ReceiverAlive;
  }

  lemma {:induction false} RunKeepsChannels(w: World, acts: seq<Action>, invalid: Event -> bool)
    requires ChannelsMade(w) && Run(w, acts, invalid).Some?
    ensures ChannelsMade(Run(w, acts, invalid).value)
    decreases |acts|
  {
    hide Apply;
    hide ChannelsMade;
    if acts != [] {
      StepKeepsChannels(w, acts[0], invalid);
      RunKeepsChannels(Apply(w, acts[0], invalid).value, acts[1..], invalid);
    }
  }

  // ---------------------------------------------------------------- a send

  /** The service runs, and agent `a` is outside its calls. */
  ghost predicate Ready(s: Rescanner.World, a: AgentId) {
    Rescanner.Inv(s) && !s.task.Dead? && !s.failed && a in s.agents && s.agents[a].pc.Free?
  }

  /** A role waits inside the service until everything is scanned, and comes out. */
  lemma WaitsOut(w: World, a: AgentId, invalid: Event -> bool) returns (w': World)
    requires Rescanner.Inv(w.scan) && !w.scan.task.Dead? && !w.scan.failed && a in w.scan.agents
    requires RescanRuns.Waits(w.scan.agents[a])
    ensures Leads(w, w', invalid) && w' == w.(scan := w'.scan) && RescanRuns.Same(w.scan, w'.scan, a)
    ensures w'.scan.agents[a].pc.WaitDone?
  {
    hide Rescanner.Inv;
    hide RescanRuns.Leads;
    hide Leads;
    var s := RescanRuns.WaitReturns(w.scan, a);
    Lift(w, s, invalid);
    w' := w.(scan := s);
  }

  /** The sender, its channel and its event, with its channel in the shared field. */
  ghost predicate Listening(w: World, a: AgentId, ch: Channel, own: Event) {
    && a in w.roles && w.roles[a] == Receiving(ch, own) && w.mutex == Some(a) && w.ack == Some(ch)
    && ch !in w.inbox && own < w.posted && Ready(w.scan, a)
  }

  lemma EnterWait(s: Rescanner.World, a: AgentId)
    requires Rescanner.Inv(s) && a in s.agents && s.agents[a].pc.Free?
    ensures var s' := Rescanner.Apply(s, Rescanner.CallWait(a));
            && s'.Some? && s'.value == s.(agents := s.agents[a := Rescanner.Agent(Rescanner.WaitEnter,
                                            Some(Rescanner.Goal(s.requested, s.demand)))])
            && Rescanner.Inv(s'.value)
  {
    RescanRuns.CallsCanBegin(s, a);
    Rescanner.ApplyKeepsInv(s, Rescanner.CallWait(a));
  }

  lemma LeaveWait(s: Rescanner.World, a: AgentId)
    requires Rescanner.Inv(s) && a in s.agents && (s.agents[a].pc.WaitDone? || s.agents[a].pc.QueueDone?)
    ensures var s' := Rescanner.Apply(s, Rescanner.Leave(a));
            && s'.Some? && s'.value == s.(agents := s.agents[a := Rescanner.Agent(Rescanner.Free, None)])
            && Rescanner.Inv(s'.value)
  {
    Rescanner.ApplyKeepsInv(s, Rescanner.Leave(a));
  }

  /** A caller outside the service enters `wait_for_scanned` in the step that stores its channel. */
  lemma Stores(w: World, a: AgentId, invalid: Event -> bool) returns (w': World)
    requires a in w.roles && w.roles[a].Marking? && Ready(w.scan, a)
    ensures Leads(w, w', invalid)
    ensures w' == As(w.(ack := Some(w.channels), channels := w.channels + 1, scan := w'.scan), a, Settling(w.channels))
    ensures a in w'.scan.agents && w'.scan == w.scan.(agents := w.scan.agents[a := w'.scan.agents[a]])
    ensures Rescanner.Inv(w'.scan) && RescanRuns.Waits(w'.scan.agents[a])
  {
    hide Rescanner.Inv;
    hide Rescanner.Apply;
    hide Leads;
    EnterWait(w.scan, a);
    var s := Rescanner.Apply(w.scan, Rescanner.CallWait(a)).value;
    w' := As(w.(ack := Some(w.channels), channels := w.channels + 1, scan := s), a, Settling(w.channels));
    Takes(w, StoreChannel(a), w', invalid);
  }

  /** A sender comes out of its first wait. */
  lemma Settles(w: World, a: AgentId, invalid: Event -> bool) returns (w': World)
    requires a in w.roles && w.roles[a].Settling? && a in w.scan.agents && w.scan.agents[a].pc.WaitDone?
    requires Rescanner.Inv(w.scan)
    ensures Leads(w, w', invalid) && w' == As(w.(scan := w'.scan), a, Sending(w.roles[a].ch))
    ensures w'.scan == w.scan.(agents := w.scan.agents[a := Rescanner.Agent(Rescanner.Free, None)])
    ensures Rescanner.Inv(w'.scan)
  {
    hide Rescanner.Inv;
    hide Rescanner.Apply;
    hide Leads;
    LeaveWait(w.scan, a);
    var s := Rescanner.Apply(w.scan, Rescanner.Leave(a)).value;
    w' := As(w.(scan := s), a, Sending(w.roles[a].ch));
    Takes(w, Settled(a), w', invalid);
  }

  /** A caller takes the mutex and marks itself as the sender. */
  lemma Locks(w: World, a: AgentId, invalid: Event -> bool) returns (w': World)
    requires a !in w.roles && w.mutex.None? && a in w.scan.agents && w.scan.agents[a].pc.Free?
    ensures Leads(w, w', invalid) && w' == As(w.(mutex := Some(a)), a, Marking)
  {
    hide Leads;
    var w1 := As(w, a, Locking);
    Takes(w, CallSend(a), w1, invalid);
    w' := As(w1.(mutex := Some(a)), a, Marking);
    ThenTakes(w, w1, Lock(a), w', invalid);
    assert w'.roles == w.roles[a := Marking];
  }

  lemma Transmits(w: World, a: AgentId, invalid: Event -> bool) returns (w': World)
    requires a in w.roles && w.roles[a].Sending?
    ensures Leads(w, w', invalid) && w' == As(w.(posted := w.posted + 1), a, Receiving(w.roles[a].ch, w.posted))
  {
    hide Leads;
    w' := As(w.(posted := w.posted + 1), a, Receiving(w.roles[a].ch, w.posted));
    Takes(w, Transmit(a, true), w', invalid);
  }

  /** A send takes the mutex, settles, and hands its event to the server. */
  lemma SendBegins(w: World, a: AgentId, invalid: Event -> bool) returns (w': World)
    requires a !in w.roles && w.mutex.None? && Ready(w.scan, a) && ChannelsMade(w)
    ensures Leads(w, w', invalid) && Listening(w', a, w.channels, w.posted)
    ensures w'.posted == w.posted + 1 && w'.roles == w.roles[a := Receiving(w.channels, w.posted)]
    ensures w'.scan.agents.Keys == w.scan.agents.Keys && w'.scan.visible == w.scan.visible
  {
    hide Rescanner.Inv;
    hide Apply;
    hide Leads;
    var w1 := Locks(w, a, invalid);
    var w2 := Stores(w1, a, invalid);
    LeadsOn(w, w1, w2, invalid);
    var w3 := WaitsOut(w2, a, invalid);
    LeadsOn(w, w2, w3, invalid);
    var w4 := Settles(w3, a, invalid);
    LeadsOn(w, w3, w4, invalid);
    w' := Transmits(w4, a, invalid);
    LeadsOn(w, w4, w', invalid);
    assert w'.roles == w.roles[a := Receiving(w.channels, w.posted)];
    assert w.channels !in w.inbox;
  }

  /** Everything the server has taken can come to be seen. */
  lemma {:induction false} EventsArrive(w: World, invalid: Event -> bool) returns (w': World)
    requires Inv(w, invalid)
    ensures Leads(w, w', invalid) && w' == w.(scan := w.scan.(visible := w.posted)) && Inv(w', invalid)
    decreases w.posted - w.scan.visible
  {
    hide Leads;
    if w.scan.visible == w.posted {
      w' := w;
      LeadsHere(w, invalid);
    } else {
      var w1 := w.(scan := w.scan.(visible := w.scan.visible + 1));
      assert Apply(w, Inner(Rescanner.Arrive), invalid) == Some(w1);
      hide Inv;
      ApplyKeepsInv(w, Inner(Rescanner.Arrive), invalid);
      Takes(w, Inner(Rescanner.Arrive), w1, invalid);
      VisibleIsPosted(w1, invalid);
      w' := EventsArrive(w1, invalid);
      LeadsOn(w, w1, w', invalid);
    }
  }

  lemma VisibleIsPosted(w: World, invalid: Event -> bool)
    requires Inv(w, invalid)
    ensures w.scan.visible <= w.posted
  {
  }

  lemma LeadsHere(w: World, invalid: Event -> bool)
    ensures Leads(w, w, invalid)
  {
    assert Run(w, [], invalid) == Some(w);
  }

  lemma NewAgents(s: Rescanner.World, h: AgentId)
    requires Rescanner.Inv(s) && h !in s.agents
    ensures Rescanner.Apply(s, Rescanner.NewAgent(h))
         == Some(s.(agents := s.agents[h := Rescanner.Agent(Rescanner.Free, None)]))
    ensures Rescanner.Inv(s.(agents := s.agents[h := Rescanner.Agent(Rescanner.Free, None)]))
  {
    Rescanner.ApplyKeepsInv(s, Rescanner.NewAgent(h));
  }

  lemma EnterQueue(s: Rescanner.World, h: AgentId)
    requires Rescanner.Inv(s) && h in s.agents && s.agents[h].pc.Free?
    ensures var s' := s.(agents := s.agents[h := Rescanner.Agent(Rescanner.QueueEnter, None)]);
            Rescanner.Apply(s, Rescanner.CallQueue(h)) == Some(s') && Rescanner.Inv(s')
  {
    RescanRuns.CallsCanBegin(s, h);
    Rescanner.ApplyKeepsInv(s, Rescanner.CallQueue(h));
  }

  /** A handler begins with its event, and enters `queue_rescan`. */
  lemma HandlerBegins(w: World, h: AgentId, own: Event, invalid: Event -> bool) returns (w': World)
    requires Rescanner.Inv(w.scan) && h !in w.roles && h !in w.scan.agents && own < w.scan.visible
    ensures Leads(w, w', invalid) && w' == As(w.(scan := w'.scan), h, Queueing(own, true))
    ensures w'.scan == w.scan.(agents := w.scan.agents[h := Rescanner.Agent(Rescanner.QueueEnter, None)])
    ensures Rescanner.Inv(w'.scan)
  {
    hide Rescanner.Inv;
    hide Rescanner.Apply;
    hide Leads;
    NewAgents(w.scan, h);
    var w1 := w.(scan := w.scan.(agents := w.scan.agents[h := Rescanner.Agent(Rescanner.Free, None)]));
    Takes(w, Inner(Rescanner.NewAgent(h)), w1, invalid);
    EnterQueue(w1.scan, h);
    var s := w1.scan.(agents := w1.scan.agents[h := Rescanner.Agent(Rescanner.QueueEnter, None)]);
    w' := As(w1.(scan := s), h, Queueing(own, true));
    ThenTakes(w, w1, Handle(h, own, true), w', invalid);
    assert s.agents == w.scan.agents[h := Rescanner.Agent(Rescanner.QueueEnter, None)];
  }

  /** A handler that has queued looks up who listens, and puts its event into their channel. */
  lemma HandlerSends(w: World, h: AgentId, ch: Channel, own: Event, invalid: Event -> bool) returns (w': World)
    requires Rescanner.Inv(w.scan) && h in w.roles && w.roles[h] == Queueing(own, true)
    requires h in w.scan.agents && w.scan.agents[h].pc.QueueDone?
    requires w.ack == Some(ch) && ch !in w.inbox && ReceiverAlive(w, ch) && w.mutex != Some(h)
    ensures Leads(w, w', invalid) && w' == As(w.(inbox := w.inbox[ch := own], scan := w'.scan), h, Over(None))
    ensures w'.scan == w.scan.(agents := w.scan.agents[h := Rescanner.Agent(Rescanner.Free, None)])
    ensures Rescanner.Inv(w'.scan)
  {
    hide Rescanner.Inv;
    hide Rescanner.Apply;
    hide Leads;
    LeaveWait(w.scan, h);
    var s := w.scan.(agents := w.scan.agents[h := Rescanner.Agent(Rescanner.Free, None)]);
    var w1 := As(w.(scan := s), h, Looking(own));
    Takes(w, Queued(h), w1, invalid);
    var w2 := As(w1, h, Acking(own, ch));
    ThenTakes(w, w1, Look(h), w2, invalid);
    w' := As(w2.(inbox := w2.inbox[ch := own]), h, Over(None));
    assert ReceiverAlive(w2, ch);
    ThenTakes(w, w2, Ack(h), w', invalid);
    assert w'.roles == w.roles[h := Over(None)];
  }

  /** The handler of the sender's own event queues a rescan, and then acknowledges the event. */
  lemma HandlerAcknowledges(w: World, a: AgentId, h: AgentId, ch: Channel, own: Event, invalid: Event -> bool)
      returns (w': World)
    requires Listening(w, a, ch, own) && h !in w.roles && h !in w.scan.agents && own < w.scan.visible
    ensures Leads(w, w', invalid) && w'.inbox == w.inbox[ch := own] && Ready(w'.scan, a)
    ensures w'.roles == w.roles[h := Over(None)] && w'.mutex == w.mutex
  {
    hide Rescanner.Inv;
    hide Apply;
    hide Leads;
    var w1 := HandlerBegins(w, h, own, invalid);
    var s := RescanRuns.QueueReturns(w1.scan, h);
    Lift(w1, s, invalid);
    var w2 := w1.(scan := s);
    LeadsOn(w, w1, w2, invalid);
    w' := HandlerSends(w2, h, ch, own, invalid);
    LeadsOn(w, w2, w', invalid);
    assert w'.roles == w.roles[h := Over(None)];
  }

  /** The sender finds its event, gives its channel back, and enters its second wait. */
  lemma Finds(w: World, a: AgentId, ch: Channel, own: Event, invalid: Event -> bool) returns (w': World)
    requires a in w.roles && w.roles[a] == Receiving(ch, own) && ch in w.inbox && w.inbox[ch] == own
    requires Ready(w.scan, a)
    ensures Leads(w, w', invalid)
    ensures w' == As(w.(inbox := w.inbox - {ch}, ack := None, scan := w'.scan), a, Confirming(ch, own))
    ensures a in w'.scan.agents && w'.scan == w.scan.(agents := w.scan.agents[a := w'.scan.agents[a]])
    ensures Rescanner.Inv(w'.scan) && RescanRuns.Waits(w'.scan.agents[a])
  {
    hide Rescanner.Inv;
    hide Rescanner.Apply;
    hide Leads;
    var w1 := As(w.(inbox := w.inbox - {ch}), a, Received(ch, own));
    Takes(w, Receive(a), w1, invalid);
    EnterWait(w.scan, a);
    var s := Rescanner.Apply(w.scan, Rescanner.CallWait(a)).value;
    w' := As(w1.(ack := None, scan := s), a, Confirming(ch, own));
    ThenTakes(w, w1, ClearChannel(a), w', invalid);
    assert w'.roles == w.roles[a := Confirming(ch, own)];
  }

  /** A sender comes out of its second wait. */
  lemma Confirms(w: World, a: AgentId, invalid: Event -> bool) returns (w': World)
    requires a in w.roles && w.roles[a].Confirming? && a in w.scan.agents && w.scan.agents[a].pc.WaitDone?
    requires Rescanner.Inv(w.scan)
    ensures Leads(w, w', invalid) && w' == As(w.(scan := w'.scan), a, Checking(w.roles[a].ch, w.roles[a].own))
    ensures w'.scan == w.scan.(agents := w.scan.agents[a := Rescanner.Agent(Rescanner.Free, None)])
  {
    hide Rescanner.Inv;
    hide Rescanner.Apply;
    hide Leads;
    LeaveWait(w.scan, a);
    var s := Rescanner.Apply(w.scan, Rescanner.Leave(a)).value;
    w' := As(w.(scan := s), a, Checking(w.roles[a].ch, w.roles[a].own));
    Takes(w, Confirmed(a), w', invalid);
  }

  /** In a reached world whose scans succeed, the last look tells the fold's verdict. */
  lemma Checks(w: World, a: AgentId, own: Event, invalid: Event -> bool) returns (w': World)
    requires Inv(w, invalid) && a in w.roles && w.roles[a].Checking? && w.roles[a].own == own && !w.scan.failed
    ensures Leads(w, w', invalid) && w'.mutex.None? && a in w'.roles
    ensures w'.roles[a] == Over(Some(if invalid(own) then Refused(own) else Sent(own)))
  {
    hide Inv;
    hide Leads;
    RoleFacts(w, a, invalid);
    w' := As(w.(mutex := None), a, Over(Some(if invalid(own) then Refused(own) else Sent(own))));
    Takes(w, Check(a), w', invalid);
  }

  /** The sender finds its event, waits for the scan, and looks up how it was judged. */
  lemma SendEnds(w: World, a: AgentId, ch: Channel, own: Event, invalid: Event -> bool) returns (w': World)
    requires Inv(w, invalid) && a in w.roles && w.roles[a] == Receiving(ch, own)
    requires ch in w.inbox && w.inbox[ch] == own && Ready(w.scan, a)
    ensures Leads(w, w', invalid) && w'.mutex.None? && a in w'.roles
    ensures w'.roles[a] == Over(Some(if invalid(own) then Refused(own) else Sent(own)))
  {
    hide Rescanner.Inv;
    hide Apply;
    hide Leads;
    hide Inv;
    var w1 := Finds(w, a, ch, own, invalid);
    var w2 := WaitsOut(w1, a, invalid);
    LeadsOn(w, w1, w2, invalid);
    var w3 := Confirms(w2, a, invalid);
    LeadsOn(w, w2, w3, invalid);
    LeadsKeepsInv(w, w3, invalid);
    w' := Checks(w3, a, own, invalid);
    LeadsOn(w, w3, w', invalid);
  }

  /**
   * In every reached world in which no scan has failed or panicked and nobody is sending, a send can go
   * through: its event is taken by the server, seen by its handler, acknowledged and folded, and the sender
   * is told Sent if the fold found it valid and Refused if not.
   */
  lemma SendCompletes(acts: seq<Action>, w: World, a: AgentId, h: AgentId, invalid: Event -> bool)
      returns (more: seq<Action>, w': World)
    requires Run(START, acts, invalid) == Some(w) && a != h
    requires !w.scan.task.Dead? && !w.scan.failed && w.mutex.None?
    requires a !in w.roles && a in w.scan.agents && w.scan.agents[a].pc.Free?
    requires h !in w.roles && h !in w.scan.agents
    ensures Run(w, more, invalid) == Some(w') && a in w'.roles
    ensures w'.roles[a] == Over(Some(if invalid(w.posted) then Refused(w.posted) else Sent(w.posted)))
  {
    hide Inv;
    hide Rescanner.Inv;
    hide Rescanner.Apply;
    StartInv(invalid);
    RunKeepsInv(START, acts, invalid);
    RunKeepsChannels(START, acts, invalid);
    ScanIsSound(w, invalid);
    hide Run;
    var ch, own := w.channels, w.posted;
    var w1 := SendBegins(w, a, invalid);
    LeadsKeepsInv(w, w1, invalid);
    var w2 := EventsArrive(w1, invalid);
    LeadsOn(w, w1, w2, invalid);
    ScanIsSound(w2, invalid);
    var w3 := HandlerAcknowledges(w2, a, h, ch, own, invalid);
    LeadsOn(w, w2, w3, invalid);
    LeadsKeepsInv(w, w3, invalid);
    w' := SendEnds(w3, a, ch, own, invalid);
    LeadsOn(w, w3, w', invalid);
    more :| Run(w, more, invalid) == Some(w');
  }

  lemma ScanIsSound(w: World, invalid: Event -> bool)
    requires Inv(w, invalid)
    ensures Rescanner.Inv(w.scan)
  {
  }

  /** The channel is that of a send under way. */
  ghost predicate Awaited(w: World, ch: Channel) {
    exists b :: b in w.roles && HoldsMutex(w.roles[b]) && !w.roles[b].Marking? && w.roles[b].ch == ch
  }

  /**
   * In every reached world, a handler with an acknowledgement to give waits only while the channel of a send
   * under way is full; one for a send that is over ends at once, and nothing else changes.
   */
  lemma AcksAreGivenOrDropped(acts: seq<Action>, w: World, h: AgentId, invalid: Event -> bool)
    requires Run(START, acts, invalid) == Some(w) && h in w.roles && w.roles[h].Acking?
    ensures var ch, event := w.roles[h].to, w.roles[h].event;
      Apply(w, Ack(h), invalid)
        == if !Awaited(w, ch) then Some(w.(roles := w.roles[h := Over(None)]))
           else if ch in w.inbox then None
           else Some(w.(inbox := w.inbox[ch := event], roles := w.roles[h := Over(None)]))
  {
    hide Rescanner.Inv;
    hide RolesMatch;
    StartInv(invalid);
    RunKeepsInv(START, acts, invalid);
    var ch := w.roles[h].to;
    if Awaited(w, ch) {
      var b :| b in w.roles && HoldsMutex(w.roles[b]) && !w.roles[b].Marking? && w.roles[b].ch == ch;
      assert w.mutex == Some(b);
    }
  }

  /** A full channel is read by its send, which goes on receiving when the event is another's. */
  lemma FullChannelIsRead(w: World, a: AgentId, invalid: Event -> bool)
    requires a in w.roles && w.roles[a].Receiving? && w.roles[a].ch in w.inbox
    ensures var ch, own := w.roles[a].ch, w.roles[a].own;
      Apply(w, Receive(a), invalid)
        == Some(w.(inbox := w.inbox - {ch}, roles := w.roles[a :=
             if w.inbox[ch] == own then Received(ch, own) else Receiving(ch, own)]))
  {
  }

  /** A sender that the server turns away is told so, and the mutex is free again. */
  lemma RefusedByServer(w: World, a: AgentId, invalid: Event -> bool)
    requires a in w.roles && w.roles[a].Sending?
    ensures Apply(w, Transmit(a, false), invalid) == Some(As(w.(mutex := None), a, Over(Some(NotSent))))
  {
  }
}
