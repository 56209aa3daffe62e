/** simulation.py: the engine as it is written, changing its fields step by step. */
module Engine {
  import opened Wrappers
  import opened Graphs
  import opened Forwarding
  import opened Packets
  import opened Simulation
  import opened Network
  import opened Invariants
  import opened Sessions
  import opened Routing
  import opened Topologies
  import Sim = Simulation

  /** What the statements need to know about the past; the program itself keeps none of it. */
  datatype History = History(log: seq<PacketEvent>, attempted: set<int>, moves: nat)

  /** A property that no inner step breaks and that rules out exceptions. */
  ghost predicate Safe(p: State -> bool) {
    && KeptByTime(p) && KeptByFiring(p) && KeptByDispatch(p, Anything()) && KeptByFlights(p)
    && forall s: State :: p(s) ==> !s.failed
  }

  /** The routers are those the configuration builds, but for what they hold. */
  ghost predicate Wired(s: State) {
    && |s.routers| == |s.cfg.ids|
    && forall i :: 0 <= i < |s.routers| ==> s.routers[i].(queue := [], available := 0) == BuildRouters(s.cfg)[i]
  }

  /** The settings of a new engine, before any topology is set up. */
  const INITIAL_CONFIG := Config(map[], map[], [], UDP, 6, 443, false, None, 0, 0)

  /** The router that has the rule in the topology shown, while rules are in use. */
  function FirewallNode(firewallNodes: map<string, int>, topology: string): (node: Option<int>)
    ensures topology in firewallNodes ==> node == Some(firewallNodes[topology])
    ensures topology !in firewallNodes ==> node == None
  {
    if topology in firewallNodes then Some(firewallNodes[topology]) else None
  }

  /**
   * While rules are in use, the firewall of the topology shown drops data for port 80; no other router has any
   * rules, and without the setting none has.
   */
  ghost predicate OnlyFirewallHasRules(routers: seq<Router>, useSdn: bool, firewallNodes: map<string, int>,
                                       topology: string) {
    forall i :: 0 <= i < |routers| ==>
      && (routers[i].rules.Some? <==>
            useSdn && topology in firewallNodes && routers[i].id == firewallNodes[topology])
      && (routers[i].rules.Some? ==> routers[i].rules.value == [Rule(80, Data, Drop)])
  }

  lemma BuiltRules(routers: seq<Router>, c: Config, firewallNodes: map<string, int>, topology: string)
    requires forall i :: 0 <= i < |routers| ==> routers[i].rules == RulesFor(c, routers[i].id)
    requires c.firewall == FirewallNode(firewallNodes, topology)
    ensures OnlyFirewallHasRules(routers, c.useSdn, firewallNodes, topology)
  {
  }

  class SimulationEngine {
    const manager: GraphManager
    const firewallNodes: map<string, int>
    var cfg: Config
    var currentTime: int
    var running: bool
    var completed: bool
    var nextPacketId: int
    var nextEventId: int
    var nextSequenceToSend: int
    var awaitingAck: Option<int>
    var timeoutToken: int
    var udpSentAll: bool
    var deliveredSequences: set<int>
    var events: seq<Event>
    var inFlight: seq<Flight>
    var routers: seq<Router>
    var stats: Stats
    ghost var history: History

    ghost function View(): State
      reads this
    {
      State(cfg, currentTime, running, completed, false, nextPacketId, nextEventId, nextSequenceToSend,
            awaitingAck, timeoutToken, udpSentAll, deliveredSequences, events, inFlight, routers, stats,
            history.log, history.attempted, history.moves)
    }

    constructor (manager: GraphManager, firewallNodes: map<string, int>)
      ensures this.manager == manager && this.firewallNodes == firewallNodes
      ensures View() == Reset(INITIAL_CONFIG) && Wired(View()) && routers == []
      ensures cfg.mode == UDP && cfg.goal == 6 && cfg.port == 443 && !cfg.useSdn
    {
      this.manager, this.firewallNodes := manager, firewallNodes;
      cfg := INITIAL_CONFIG;
      currentTime, running, completed := 0, false, false;
      nextPacketId, nextEventId, nextSequenceToSend := 1, 1, 0;
      awaitingAck, timeoutToken, udpSentAll := None, 0, false;
      deliveredSequences, events, inFlight, routers := {}, [], [], BuildRouters(INITIAL_CONFIG);
      stats, history := NO_STATS, History([], {}, 0);
    }

    method ResetRunState()
      requires Wired(View())
      modifies this
      ensures View() == Reset(old(cfg))
    {
      ClearRouters();
      ClearProtocol();
      ClearTraffic();
    }

    method ClearProtocol()
      modifies this`currentTime, this`running, this`completed, this`nextSequenceToSend, this`awaitingAck,
               this`timeoutToken, this`udpSentAll, this`deliveredSequences
      ensures currentTime == 0 && !running && !completed && nextSequenceToSend == 0 && awaitingAck == None
      ensures timeoutToken == 0 && !udpSentAll && deliveredSequences == {}
    {
      currentTime, running, completed := 0, false, false;
      nextSequenceToSend, awaitingAck, timeoutToken, udpSentAll := 0, None, 0, false;
      deliveredSequences := {};
    }

    method ClearTraffic()
      modifies this`nextPacketId, this`nextEventId, this`events, this`inFlight, this`stats, this`history
      ensures nextPacketId == 1 && nextEventId == 1 && events == [] && inFlight == []
      ensures stats == NO_STATS && history == History([], {}, 0)
    {
      nextPacketId, nextEventId, events, inFlight := 1, 1, [], [];
      stats, history := NO_STATS, History([], {}, 0);
    }

    /** Empties every queue and frees every router; tables and rules stay. */
    method ClearRouters()
      requires Wired(View())
      modifies this`routers
      ensures routers == BuildRouters(cfg)
    {
      ghost var built := BuildRouters(cfg);
      for i := 0 to |routers|
        invariant |routers| == |built|
        invariant forall j :: 0 <= j < i ==> routers[j] == built[j]
        invariant forall j :: i <= j < |routers| ==> routers[j] == old(routers)[j]
      {
        routers := routers[i := routers[i].(queue := [], available := 0)];
      }
    }

    method Schedule(delay: int, callback: Callback)
      modifies this
      ensures View() == Sim.Schedule(old(View()), delay, callback)
    {
      events := Insert(events, Event(currentTime + delay, nextEventId, callback));
      nextEventId := nextEventId + 1;
    }

    method BeginRun()
      requires Wired(View())
      modifies this
      ensures View() == Sim.StartRun(old(cfg))
    {
      ResetRunState();
      running := true;
      stats := stats.(startTime := Some(currentTime));
      if cfg.mode == UDP {
        var sequence := 0;
        ghost var start := View();
        while sequence < cfg.goal
          invariant 0 <= sequence && cfg == start.cfg
          invariant ScheduleAll(View(), sequence) == ScheduleAll(start, 0)
          decreases cfg.goal - sequence
        {
          Schedule(sequence * SEND_INTERVAL, SendData(sequence));
          sequence := sequence + 1;
        }
        udpSentAll := true;
      } else {
        Schedule(0, SendData(0));
      }
    }

    /** self.routers[node].enqueue(packet) */
    method Enqueue(node: int, p: Packet)
      requires !Sim.Enqueue(View(), node, p).failed
      modifies this`routers
      ensures View() == Sim.Enqueue(old(View()), node, p)
    {
      var i := IndexOf(cfg.ids, node);
      routers := routers[i := routers[i].(queue := routers[i].queue + [p])];
    }

    method InjectPacket(p: Packet)
      requires !Inject(View(), p).failed
      modifies this`routers, this`stats
      ensures View() == Inject(old(View()), p)
    {
      stats := stats.(sent := stats.sent + 1);
      if p.retransmission {
        stats := stats.(retransmissions := stats.retransmissions + 1);
      }
      if p.duplicate {
        stats := stats.(duplicates := stats.duplicates + 1);
      }
      Enqueue(p.source, p);
    }

    method MakePacket(source: int, destination: int, kind: Kind, sequence: int, ackFor: Option<int>,
                      retransmission: bool, duplicate: bool := false, duplicatedFrom: Option<int> := None)
      returns (p: Packet)
      modifies this`nextPacketId
      ensures p == Packet(old(nextPacketId), source, destination, source, kind, sequence, ackFor, cfg.port,
                          retransmission, duplicate, duplicatedFrom, [source])
      ensures nextPacketId == old(nextPacketId) + 1
    {
      p := Packet(nextPacketId, source, destination, source, kind, sequence, ackFor, cfg.port,
                  retransmission, duplicate, duplicatedFrom, [source]);
      nextPacketId := nextPacketId + 1;
    }

    method InjectDataPacket(sequence: int, retransmission: bool)
      requires !InjectData(View(), sequence, retransmission).failed
      modifies this`nextPacketId, this`history, this`routers, this`stats
      ensures View() == InjectData(old(View()), sequence, retransmission)
    {
      var p := MakePacket(cfg.source, cfg.destination, Data, sequence, None, retransmission);
      history := history.(attempted := history.attempted + {sequence});
      InjectPacket(p);
    }

    method SendDataPacket(sequence: int, retransmission: bool := false)
      requires !Transmit(View(), sequence, retransmission).failed
      modifies this
      ensures View() == Transmit(old(View()), sequence, retransmission)
    {
      if sequence >= cfg.goal {
        return;
      }
      InjectDataPacket(sequence, retransmission);
      if cfg.mode == TCP {
        StartTimer(sequence);
      }
    }

    /** From now on the sender waits for this sequence, with a timeout of its own. */
    method StartTimer(sequence: int)
      modifies this
      ensures View() == var s := old(View()).(awaiting := Some(sequence), token := old(timeoutToken) + 1);
        Sim.Schedule(s, RETRANSMISSION_TIMEOUT, Timeout(sequence, s.token))
    {
      awaitingAck := Some(sequence);
      timeoutToken := timeoutToken + 1;
      Schedule(RETRANSMISSION_TIMEOUT, Timeout(sequence, timeoutToken));
    }

    method SendAckPacket(sequence: int)
      requires !SendAck(View(), sequence).failed
      modifies this
      ensures View() == SendAck(old(View()), sequence)
    {
      var p := MakePacket(cfg.destination, cfg.source, Ack, sequence, Some(sequence), false);
      stats := stats.(acknowledgements := stats.acknowledgements + 1);
      InjectPacket(p);
    }

    method OnTimeout(sequence: int, token: int)
      requires !Sim.OnTimeout(View(), sequence, token).failed
      modifies this
      ensures View() == Sim.OnTimeout(old(View()), sequence, token)
    {
      if !running || completed {
        return;
      }
      if awaitingAck != Some(sequence) || token != timeoutToken {
        return;
      }
      SendDataPacket(sequence, true);
    }

    method RunDueEvents(ghost p: State -> bool)
      requires Safe(p) && p(View()) && running
      modifies this
      ensures View() == Sim.RunDueEvents(old(View()))
    {
      ghost var start := View();
      while events != [] && events[0].due <= currentTime
        invariant p(View()) && running
        invariant Sim.RunDueEvents(View()) == Sim.RunDueEvents(start)
        decreases DueCount(events, currentTime)
      {
        FireUsesUpDue(View());
        assert p(Fire(View())) && Fire(View()).running;
        var callback := events[0].callback;
        events := events[1..];
        match callback {
          case SendData(sequence) => SendDataPacket(sequence);
          case Timeout(sequence, token) => OnTimeout(sequence, token);
        }
      }
    }

    method RecordDrop(ghost e: PacketEvent)
      modifies this`stats, this`history
      ensures View() == Sim.RecordDrop(old(View()), e)
    {
      stats := stats.(dropped := stats.dropped + 1);
      history := history.(log := history.log + [e]);
    }

    method LaunchLink(p: Packet, start: int, end: int, o: Outcome)
      requires !Launch(View(), p, start, end, o).failed
      modifies this
      ensures View() == Launch(old(View()), p, start, end, o)
    {
      inFlight := inFlight + [Flight(p, start, end, o.delay, o.dropped)];
      if o.duplicated {
        var copy := MakePacket(p.source, p.destination, p.kind, p.sequence, p.ackFor, p.retransmission,
                               true, Some(p.id));
        copy := copy.(current := start, history := p.history);
        stats := stats.(sent := stats.sent + 1, duplicates := stats.duplicates + 1);
        inFlight := inFlight + [Flight(copy, start, end, o.copyDelay, o.copyDropped)];
      }
    }

    method DispatchRouter(i: nat, o: Outcome)
      requires i < |routers| && !Dispatch(View(), i, o).failed
      modifies this
      ensures View() == Dispatch(old(View()), i, o)
    {
      if routers[i].queue == [] || routers[i].available > currentTime {
        return;
      }
      HandleHead(i, o);
    }

    /** Takes the packet at the head of a queue off it, asks the rules and deals with it. */
    method HandleHead(i: nat, o: Outcome)
      requires i < |routers| && routers[i].queue != [] && routers[i].available <= currentTime
      requires !Dispatch(View(), i, o).failed
      modifies this
      ensures View() == Dispatch(old(View()), i, o)
    {
      DispatchIsHandling(View(), i, o);
      var r := routers[i];
      var p := r.queue[0];
      var action := None;
      if r.rules.Some? {
        action := ApplyRules(r.rules.value, p);
      }
      PopHead(i);
      HandlePacket(r, p, action, o);
    }

    method PopHead(i: nat)
      requires i < |routers| && routers[i].queue != []
      modifies this`routers, this`history
      ensures View() == Popped(old(View()), i)
    {
      var r := routers[i];
      routers := routers[i := r.(queue := r.queue[1..], available := currentTime + PROCESSING_DELAY)];
      history := history.(moves := history.moves + 1);
    }

    /** The rest of a dispatch: the packet is off its queue and the rules have been asked. */
    method HandlePacket(r: Router, p: Packet, action: Option<Action>, o: Outcome)
      requires !Handled(View(), r, p, action, o).failed
      modifies this
      ensures View() == Handled(old(View()), r, p, action, o)
    {
      if action == Some(Drop) {
        RecordDrop(Filtered(p));
        return;
      }
      var nextHop := if action.Some? then action.value.node else r.table[p.destination];
      LaunchLink(p, r.id, nextHop, o);
    }

    /** The pass over the routers stands before router i and will end in goal. */
    ghost predicate InRound(p: State -> bool, i: nat, choice: int -> Outcome, goal: State)
      reads this
    {
      i <= |routers| && p(View()) && Sim.DispatchRouters(View(), i, choice) == goal
    }

    method DispatchNext(i: nat, choice: int -> Outcome, ghost p: State -> bool, ghost goal: State)
      requires Safe(p) && i < |routers| && InRound(p, i, choice, goal)
      modifies this
      ensures InRound(p, i + 1, choice, goal) && |routers| == old(|routers|)
    {
      DispatchStep(p, View(), i, choice);
      DispatchRouter(i, choice(routers[i].id));
    }

    method DispatchRouters(choice: int -> Outcome, ghost p: State -> bool)
      requires Safe(p) && p(View())
      modifies this
      ensures View() == Sim.DispatchRouters(old(View()), 0, choice)
    {
      ghost var goal := Sim.DispatchRouters(View(), 0, choice);
      var i := 0;
      while i < |routers|
        invariant 0 <= i <= |routers| && InRound(p, i, choice, goal)
        decreases |routers| - i
      {
        DispatchNext(i, choice, p, goal);
        i := i + 1;
      }
    }

    method OnDataReceived(sequence: int)
      requires !Sim.OnDataReceived(View(), sequence).failed
      modifies this
      ensures View() == Sim.OnDataReceived(old(View()), sequence)
    {
      if sequence !in deliveredSequences {
        deliveredSequences := deliveredSequences + {sequence};
        stats := stats.(delivered := stats.delivered + 1,
                        completedSequences := stats.completedSequences + {sequence});
      }
      if cfg.mode == TCP {
        SendAckPacket(sequence);
      }
    }

    method OnAckReceived(ackFor: Option<int>)
      modifies this
      ensures View() == Sim.OnAckReceived(old(View()), ackFor)
    {
      if awaitingAck != ackFor {
        return;
      }
      awaitingAck := None;
      if ackFor == None {
        return;
      }
      var nextSequence := ackFor.value + 1;
      if nextSequence >= cfg.goal {
        completed := true;
        return;
      }
      nextSequenceToSend := nextSequence;
      Schedule(NEXT_SEND_DELAY, SendData(nextSequence));
    }

    method HandleArrival(f: Flight)
      requires !Sim.HandleArrival(View(), f).failed
      modifies this
      ensures View() == Sim.HandleArrival(old(View()), f)
    {
      var p := f.packet.(current := f.end, history := f.packet.history + [f.end]);
      if p.current == p.destination {
        history := history.(log := history.log + [Delivered(p)]);
        if p.kind == Data {
          OnDataReceived(p.sequence);
        } else {
          OnAckReceived(p.ackFor);
        }
        return;
      }
      Enqueue(p.current, p);
    }

    /** A flight whose time is up, after it has been taken off the list of those that remain. */
    method EndFlight(f: Flight)
      requires !LandedState(View(), f).failed
      modifies this
      ensures View() == LandedState(old(View()), f)
    {
      history := history.(moves := history.moves + 1);
      if f.dropped {
        RecordDrop(Lost(f.packet));
      } else {
        HandleArrival(f);
      }
    }

    /** The pass over the flights has kept done, still has todo to look at, and will end in goal. */
    ghost predicate InPass(p: State -> bool, done: seq<Flight>, todo: seq<Flight>, dt: nat, goal: State)
      reads this
    {
      && running && p(View().(flights := done + todo))
      && AdvanceInFlight(View().(flights := done + todo), |done|, dt) == goal
    }

    method AdvanceOne(f: Flight, dt: nat, remaining: seq<Flight>, ghost todo: seq<Flight>,
                      ghost p: State -> bool, ghost goal: State)
      returns (remaining': seq<Flight>)
      requires Safe(p) && InPass(p, remaining, [f] + todo, dt, goal)
      modifies this
      ensures InPass(p, remaining', todo, dt, goal) && inFlight == old(inFlight)
    {
      var flight := f.(remaining := f.remaining - dt);
      StepOver(p, View(), remaining, f, todo, dt);
      if flight.remaining > 0 {
        return remaining + [flight];
      }
      EndFlight(flight);
      return remaining;
    }

    /** The survivors are collected on the side and replace the list only at the end. */
    method AdvanceInFlightPackets(dt: nat, ghost p: State -> bool)
      requires Safe(p) && p(View()) && running
      modifies this
      ensures View() == AdvanceInFlight(old(View()), 0, dt)
    {
      ghost var goal := AdvanceInFlight(View(), 0, dt);
      var flights, remaining, i := inFlight, [], 0;
      assert remaining + flights[i..] == flights && View().(flights := flights) == View();
      while i < |flights|
        invariant 0 <= i <= |flights| && inFlight == flights
        invariant InPass(p, remaining, flights[i..], dt, goal)
      {
        assert [flights[i]] + flights[i + 1..] == flights[i..];
        remaining := AdvanceOne(flights[i], dt, remaining, flights[i + 1..], p, goal);
        i := i + 1;
      }
      assert remaining + flights[i..] == remaining;
      inFlight := remaining;
    }

    method IsNetworkIdle() returns (idle: bool)
      ensures idle == NetworkIdle(View())
    {
      var i := 0;
      while i < |routers|
        invariant 0 <= i <= |routers| && forall j :: 0 <= j < i ==> routers[j].queue == []
      {
        if routers[i].queue != [] {
          return false;
        }
        i := i + 1;
      }
      return inFlight == [] && events == [];
    }

    method FinishRun()
      modifies this`running, this`completed, this`stats
      ensures View() == Sim.FinishRun(old(View()))
    {
      if !running {
        return;
      }
      running, completed := false, true;
      stats := stats.(endTime := Some(currentTime));
    }

    /** One frame of a running simulation. */
    method Advance(dt: nat, choice: int -> Outcome, ghost p: State -> bool)
      requires Safe(p) && p(View()) && running
      modifies this
      ensures View() == Frame(old(View()), dt, choice)
    {
      ghost var start := View();
      currentTime := currentTime + dt;
      assert View() == Later(start, dt);
      RunDueKeeps(p, View());
      RunDueEvents(p);
      DispatchRoutersKeeps(p, Anything(), View(), 0, choice);
      DispatchRouters(choice, p);
      AdvanceInFlightPackets(dt, p);
    }

    method FinishIfDone()
      modifies this`running, this`completed, this`stats
      ensures View() == Sim.FinishIfDone(old(View()))
    {
      var idle := IsNetworkIdle();
      if cfg.mode == UDP && udpSentAll && idle {
        FinishRun();
      } else if cfg.mode == TCP && completed && idle {
        FinishRun();
      } else if currentTime >= MAX_RUNTIME {
        FinishRun();
      }
    }

    method Update(dt: nat, choice: int -> Outcome)
      requires Valid()
      modifies this
      ensures Valid() && View() == Sim.Update(old(View()), dt, choice)
    {
      UpdateGood(View(), RoutesOf(cfg), dt, choice);
      if running {
        GoodIsSafe(RoutesOf(cfg), cfg);
        Advance(dt, choice, GoodIn(RoutesOf(cfg), cfg));
        FinishIfDone();
      }
    }

    method StartRun()
      requires Valid()
      modifies this
      ensures Valid() && View() == Sim.StartRun(old(cfg))
    {
      StartIsValid(View());
      BeginRun();
    }

    method Reconfigure(c: Config)
      requires Wired(View().(cfg := c))
      modifies this
      ensures View() == Reset(c)
      ensures old(InStep()) && c == old(cfg).(mode := c.mode, port := c.port) ==> InStep()
    {
      cfg := c;
      ResetRunState();
    }

    /** What every change of a setting that leaves the topology alone comes to. */
    method ChangeSettings(c: Config)
      requires Valid() && c == cfg.(mode := c.mode, port := c.port)
      modifies this
      ensures Valid() && View() == Reset(c)
    {
      ResetIsValid(View(), c);
      Reconfigure(c);
      FreshlyValid();
    }

    method SetMode(mode: Mode)
      requires Valid()
      modifies this
      ensures Valid() && View() == Reset(old(cfg).(mode := mode))
    {
      ChangeSettings(cfg.(mode := mode));
    }

    method ToggleMode()
      requires Valid()
      modifies this
      ensures Valid() && View() == Reset(old(cfg).(mode := if old(cfg).mode == UDP then TCP else UDP))
    {
      SetMode(if cfg.mode == UDP then TCP else UDP);
    }

    method ToggleTrafficProfile()
      requires Valid()
      modifies this
      ensures Valid() && View() == Reset(old(cfg).(port := if old(cfg).port == 443 then 80 else 443))
    {
      ChangeSettings(cfg.(port := if cfg.port == 443 then BLOCKED_PORT else 443));
    }

    ghost predicate RulesStand()
      reads this, manager
    {
      OnlyFirewallHasRules(routers, cfg.useSdn, firewallNodes, manager.currentName)
    }

    /** The routers stand for the topology that is shown, and the firewall where it belongs. */
    ghost predicate InStep()
      reads this, manager, manager.graph
    {
      && manager.graph.Valid() && cfg.graph == manager.graph.adjacency
      && cfg.firewall == FirewallNode(firewallNodes, manager.currentName)
    }

    /**
     * Tables and routers for the manager's topology; fails, as the source raises, when some pair of
     * nodes has no route.
     */
    method RebuildRouters() returns (ok: bool)
      requires manager.graph.Valid() && Positive(manager.graph.adjacency)
      modifies this`cfg, this`routers
      ensures ok <==> Connected(manager.graph.adjacency)
      ensures !ok ==> cfg == old(cfg) && routers == old(routers)
      ensures ok ==> routers == BuildRouters(cfg) && FitTopology(cfg) && InStep() && RulesStand()
                     && cfg == old(cfg).(graph := cfg.graph, tables := cfg.tables, ids := cfg.ids,
                                         firewall := cfg.firewall)
    {
      var tables := manager.BuildForwardingTables();
      if tables == None {
        return false;
      }
      SortIsAscending(manager.graph.nodes);
      cfg := cfg.(graph := manager.graph.adjacency, tables := tables.value, ids := Sort(manager.graph.nodes),
                  firewall := FirewallNode(firewallNodes, manager.currentName));
      routers := BuildRouters(cfg);
      return true;
    }

    /** Rebuilds the routers and resets; what both changes of topology and of rules end with. */
    method StartAfresh() returns (ok: bool)
      requires manager.graph.Valid() && Positive(manager.graph.adjacency) && 1 <= cfg.goal
      modifies this
      ensures ok <==> Connected(manager.graph.adjacency)
      ensures SameSettings(cfg, old(cfg))
      ensures ok ==> InStep() && RulesStand() && View() == Reset(cfg)
      ensures ok && EndsFit(cfg, manager.graph.adjacency) ==> Valid()
      ensures !ok ==> View() == old(View())
    {
      ok := RebuildRouters();
      if ok {
        ghost var fit := EndsFit(cfg, cfg.graph);
        if fit {
          FitIsReady(View());
        }
        ResetRunState();
      }
    }

    /** toggle_sdn: on the topology shown this cannot fail. */
    method ToggleSdn()
      requires Valid()
      modifies this
      ensures Valid() && RulesStand()
      ensures View() == Reset(cfg) && SameSettings(cfg, old(cfg).(useSdn := !old(cfg).useSdn))
    {
      FitToRestart(View());
      cfg := cfg.(useSdn := !cfg.useSdn);
      var ok := StartAfresh();
    }

    /**
     * The manager moves on to its next preset; the old end points stay. Fails where the manager does, or
     * where the new preset is not connected.
     */
    method CycleTopology() returns (ok: bool)
      requires Positives(manager.presets) && 1 <= cfg.goal
      modifies this, manager, manager.graph
      ensures SameSettings(cfg, old(cfg))
      ensures var next := old(NextPreset(manager.presets, manager.currentName, 1));
        && (ok <==> next.Some? && Connected(manager.graph.adjacency))
        && (next.Some? ==> IndexOfName(manager.presets, manager.presets[next.value].name) < |manager.presets|)
        && (next.Some? ==> manager.Shows(First(manager.presets, manager.presets[next.value].name)))
      ensures ok ==> InStep() && RulesStand() && View() == Reset(cfg)
      ensures ok && EndsFit(cfg, manager.graph.adjacency) ==> Valid()
    {
      ghost var next := NextPreset(manager.presets, manager.currentName, 1);
      ok := manager.CycleTopology();
      if ok {
        NameIsKnown(manager.presets, next.value);
        PresetIsPositive(manager.presets, IndexOfName(manager.presets, manager.presets[next.value].name));
        ok := StartAfresh();
      }
    }

    /**
     * The named topology, or the one shown, or the first preset, with its own end points. Fails on an
     * unknown name, without presets, and where the topology is not connected.
     */
    method SetupTopology(name: Option<string>) returns (ok: bool)
      requires Positives(manager.presets) && 1 <= cfg.goal
      requires manager.graph.Valid() && Positive(manager.graph.adjacency)
      modifies this, manager, manager.graph
      ensures ok ==> InStep() && RulesStand() && View() == Reset(cfg)
                     && cfg.source == manager.defaultSource && cfg.destination == manager.defaultDestination
      ensures name.Some? ==>
                var known := IndexOfName(manager.presets, name.value) < |manager.presets|;
                && (ok <==> known && Connected(manager.graph.adjacency))
                && (known ==> manager.Shows(First(manager.presets, name.value)))
      ensures name == None && old(manager.currentName) != "" ==>
                && (ok <==> Connected(manager.graph.adjacency)) && unchanged(manager) && unchanged(manager.graph)
      ensures name == None && old(manager.currentName) == "" ==>
                && (ok <==> manager.presets != [] && Connected(manager.graph.adjacency))
                && (manager.presets != [] ==> manager.Shows(manager.presets[0]))
      ensures ok && EndsFit(cfg, manager.graph.adjacency) ==> Valid()
    {
      var known := ShowTopology(name);
      if !known {
        return false;
      }
      cfg := cfg.(source := manager.defaultSource, destination := manager.defaultDestination);
      ok := StartAfresh();
    }

    /** The choice of topology in setup_topology. */
    method ShowTopology(name: Option<string>) returns (ok: bool)
      requires Positives(manager.presets)
      requires manager.graph.Valid() && Positive(manager.graph.adjacency)
      modifies manager, manager.graph
      ensures name.Some? ==>
                && (ok <==> IndexOfName(manager.presets, name.value) < |manager.presets|)
                && (ok ==> manager.Shows(First(manager.presets, name.value)))
      ensures name == None && old(manager.currentName) != "" ==>
                ok && unchanged(manager) && unchanged(manager.graph)
      ensures name == None && old(manager.currentName) == "" ==>
                && (ok <==> manager.presets != []) && (ok ==> manager.Shows(manager.presets[0]))
      ensures manager.graph.Valid() && Positive(manager.graph.adjacency)
    {
      if name.Some? {
        ok := Load(name.value);
      } else if manager.currentName != "" {
        ok := true;
      } else if manager.presets != [] {
        NameIsKnown(manager.presets, 0);
        ok := Load(manager.presets[0].name);
      } else {
        ok := false;
      }
    }

    method Load(name: string) returns (ok: bool)
      requires Positives(manager.presets)
      requires manager.graph.Valid() && Positive(manager.graph.adjacency)
      modifies manager, manager.graph
      ensures ok <==> IndexOfName(manager.presets, name) < |manager.presets|
      ensures ok ==> manager.Shows(First(manager.presets, name))
      ensures manager.graph.Valid() && Positive(manager.graph.adjacency)
    {
      ok := manager.LoadTopology(name);
      if ok {
        PresetIsPositive(manager.presets, IndexOfName(manager.presets, name));
      }
    }

    /** Whatever happens between two calls, rules stand where they belong. */
    lemma RulesAlwaysStand()
      requires Valid()
      ensures RulesStand()
    {
      RulesStay(View(), RoutesOf(cfg));
      BuiltRules(routers, cfg, firewallNodes, manager.currentName);
    }

    lemma FreshlyValid()
      requires View() == Reset(cfg) && Configured(cfg) && Good(Reset(cfg), RoutesOf(cfg)) && InStep()
      ensures Valid()
    {
    }

    /** Everything the engine promises between two calls. */
    ghost predicate Valid()
      reads this, manager, manager.graph
    {
      Configured(cfg) && Good(View(), RoutesOf(cfg)) && InStep()
    }
  }

  /** Everything but the topology and what follows from it. */
  predicate SameSettings(c: Config, c': Config) {
    && c.mode == c'.mode && c.goal == c'.goal && c.port == c'.port && c.useSdn == c'.useSdn
    && c.source == c'.source && c.destination == c'.destination
  }

  predicate EndsFit(c: Config, g: Graph) {
    c.source in g && c.destination in g && c.source != c.destination
  }

  /** The preset of that name. */
  function First(presets: seq<TopologySpec>, name: string): TopologySpec
    requires IndexOfName(presets, name) < |presets|
  {
    presets[IndexOfName(presets, name)]
  }

  /** All delays listed are positive. */
  ghost predicate Positives(presets: seq<TopologySpec>) {
    forall i, j :: 0 <= i < |presets| && 0 <= j < |presets[i].links| ==> 0 < presets[i].links[j].delay
  }

  lemma PresetIsPositive(presets: seq<TopologySpec>, i: nat)
    requires Positives(presets) && i < |presets|
    ensures Positive(Topology(presets[i].nodes, presets[i].links))
  {
    TopologyFit(presets[i].nodes, presets[i].links);
  }

  /** The topology part of being configured. */
  ghost predicate FitTopology(c: Config) {
    && Routable(c.graph, c.tables) && Elements(c.ids) == c.graph.Keys
    && forall i, j :: 0 <= i < j < |c.ids| ==> c.ids[i] < c.ids[j]
  }

  function InsertId(s: seq<int>, v: int): seq<int> {
    if s == [] || v <= s[0] then [v] + s else [s[0]] + InsertId(s[1..], v)
  }

  /** sorted(...) of the router ids */
  function Sort(s: seq<int>): seq<int> {
    if s == [] then [] else InsertId(Sort(s[1..]), s[0])
  }

  lemma {:induction false} InsertIdElements(s: seq<int>, v: int)
    ensures Elements(InsertId(s, v)) == Elements(s) + {v}
  {
    if s != [] && v > s[0] {
      InsertIdElements(s[1..], v);
      assert Elements([s[0]] + InsertId(s[1..], v)) == {s[0]} + Elements(InsertId(s[1..], v));
      assert s == [s[0]] + s[1..];
      assert Elements([s[0]] + s[1..]) == {s[0]} + Elements(s[1..]);
    } else {
      assert Elements([v] + s) == {v} + Elements(s);
    }
  }

  ghost predicate Ascending(s: seq<int>) {
    forall i, j :: 0 <= i < j < |s| ==> s[i] < s[j]
  }

  lemma {:induction false} InsertIdAscending(s: seq<int>, v: int)
    requires Ascending(s) && v !in s
    ensures Ascending(InsertId(s, v))
    ensures forall i :: 0 <= i < |InsertId(s, v)| ==> InsertId(s, v)[i] == v || InsertId(s, v)[i] in s
  {
    if s != [] && v > s[0] {
      InsertIdAscending(s[1..], v);
    }
  }

  lemma {:induction false} SortIsAscending(s: seq<int>)
    requires NoRepeats(s)
    ensures Ascending(Sort(s)) && Elements(Sort(s)) == Elements(s)
  {
    if s != [] {
      SortIsAscending(s[1..]);
      assert s[0] !in Elements(s[1..]);
      assert s[0] !in Elements(Sort(s[1..]));
      InsertIdAscending(Sort(s[1..]), s[0]);
      InsertIdElements(Sort(s[1..]), s[0]);
      assert s == [s[0]] + s[1..];
      assert Elements([s[0]] + s[1..]) == {s[0]} + Elements(s[1..]);
    }
  }

  lemma FitToRestart(s: State)
    requires Configured(s.cfg)
    ensures Positive(s.cfg.graph) && Connected(s.cfg.graph) && 1 <= s.cfg.goal && EndsFit(s.cfg, s.cfg.graph)
  {
  }

  lemma FitIsReady(s: State)
    requires s.routers == BuildRouters(s.cfg) && FitTopology(s.cfg) && 1 <= s.cfg.goal
    requires s.cfg.source in s.cfg.graph && s.cfg.destination in s.cfg.graph && s.cfg.source != s.cfg.destination
    ensures Wired(s) && Configured(s.cfg) && Good(Reset(s.cfg), RoutesOf(s.cfg))
  {
    FitIsValid(s.cfg);
  }

  lemma FitIsValid(c: Config)
    requires Configured(c)
    ensures Good(Reset(c), RoutesOf(c))
  {
    ConfiguredIsPlanned(c);
    ResetGood(c, RoutesOf(c));
  }

  lemma GoodIsWired(s: State, rs: Routes)
    requires GoodNetwork(s, rs)
    ensures Wired(s)
  {
    forall i | 0 <= i < |s.routers| ensures s.routers[i].(queue := [], available := 0) == BuildRouters(s.cfg)[i] {
      assert RouterOk(s.cfg, rs, s.attempted, s.delivered, s.routers[i]);
    }
  }

  lemma StartIsValid(s: State)
    requires Configured(s.cfg) && Good(s, RoutesOf(s.cfg))
    ensures Wired(s) && Good(StartRun(s.cfg), RoutesOf(s.cfg)) && StartRun(s.cfg).cfg == s.cfg
  {
    GoodIsWired(s, RoutesOf(s.cfg));
    ConfiguredIsPlanned(s.cfg);
    StartGood(s.cfg, RoutesOf(s.cfg));
    StartKeepsConfig(s.cfg);
  }

  lemma SameTopologyIsFit(c: Config, c': Config)
    requires Configured(c) && c' == c.(mode := c'.mode, port := c'.port)
    ensures Configured(c')
  {
  }

  lemma SameTopologyIsWired(s: State, c: Config)
    requires Wired(s) && c == s.cfg.(mode := c.mode, port := c.port)
    ensures Wired(s.(cfg := c))
  {
    assert BuildRouters(c) == BuildRouters(s.cfg);
  }

  /** A change of mode or port leaves the routers and the routes alone. */
  lemma ResetIsValid(s: State, c: Config)
    requires Configured(s.cfg) && Good(s, RoutesOf(s.cfg))
    requires c == s.cfg.(mode := c.mode, port := c.port)
    ensures Wired(s.(cfg := c)) && Configured(c) && Good(Reset(c), RoutesOf(c))
  {
    GoodIsWired(s, RoutesOf(s.cfg));
    SameTopologyIsWired(s, c);
    SameTopologyIsFit(s.cfg, c);
    FitIsValid(c);
  }

  lemma GoodIsSafe(rs: Routes, c: Config)
    ensures Safe(GoodIn(rs, c))
  {
    GoodIsKept(rs, c);
  }

  /** What becomes of a packet that router r has taken off its queue. */
  function Handled(s: State, r: Router, p: Packet, action: Option<Action>, o: Outcome): State {
    match action
    case Some(Drop) => Sim.RecordDrop(s, Filtered(p))
    case Some(Forward(hop)) => Launch(s, p, r.id, hop, o)
    case None =>
      if p.destination in r.table then Launch(s, p, r.id, r.table[p.destination], o) else s.(failed := true)
  }

  lemma DispatchIsHandling(s: State, i: nat, o: Outcome)
    requires i < |s.routers| && s.routers[i].queue != [] && s.routers[i].available <= s.now
    ensures var r := s.routers[i];
      var p := r.queue[0];
      Dispatch(s, i, o) == Handled(Popped(s, i), r, p, if r.rules.Some? then ApplyRules(r.rules.value, p) else None, o)
  {
  }

  /** One turn of the loop over the routers. */
  lemma DispatchStep(p: State -> bool, s: State, i: nat, choice: int -> Outcome)
    requires Safe(p) && p(s) && i < |s.routers|
    ensures var s' := Dispatch(s, i, choice(s.routers[i].id));
      && p(s') && !s'.failed && |s'.routers| == |s.routers|
      && Sim.DispatchRouters(s', i + 1, choice) == Sim.DispatchRouters(s, i, choice)
  {
    assert p(Dispatch(s, i, choice(s.routers[i].id)));
  }

  lemma EnqueueIgnoresFlights(s: State, node: int, p: Packet, others: seq<Flight>)
    ensures Enqueue(s.(flights := others), node, p) == Enqueue(s, node, p).(flights := others)
  {
  }

  lemma DataIgnoresFlights(s: State, q: int, others: seq<Flight>)
    ensures OnDataReceived(s.(flights := others), q) == OnDataReceived(s, q).(flights := others)
  {
    var s1 := MarkDelivered(s, q);
    assert MarkDelivered(s.(flights := others), q) == s1.(flights := others);
    if s.cfg.mode == TCP {
      SendAckIgnoresFlights(s1, q, others);
    }
  }

  lemma SendAckIgnoresFlights(s: State, q: int, others: seq<Flight>)
    ensures SendAck(s.(flights := others), q) == SendAck(s, q).(flights := others)
  {
  }

  lemma ScheduleIgnoresFlights(s: State, delay: int, callback: Callback, others: seq<Flight>)
    ensures Sim.Schedule(s.(flights := others), delay, callback) == Sim.Schedule(s, delay, callback).(flights := others)
  {
  }

  lemma AckIgnoresFlights(s: State, ackFor: Option<int>, others: seq<Flight>)
    ensures OnAckReceived(s.(flights := others), ackFor) == OnAckReceived(s, ackFor).(flights := others)
  {
    if s.awaiting == ackFor && ackFor.Some? && ackFor.value + 1 < s.cfg.goal {
      ScheduleIgnoresFlights(s.(awaiting := None, nextSequence := ackFor.value + 1), NEXT_SEND_DELAY,
                             SendData(ackFor.value + 1), others);
    }
  }

  /** Arrivals neither look at the other flights nor change them. */
  lemma ArrivalIgnoresFlights(s: State, f: Flight, others: seq<Flight>)
    ensures HandleArrival(s.(flights := others), f) == HandleArrival(s, f).(flights := others)
  {
    var p := Arrived(f);
    var s1 := s.(log := s.log + [Delivered(p)]);
    if p.current != p.destination {
      EnqueueIgnoresFlights(s, p.current, p, others);
    } else if p.kind == Data {
      DataIgnoresFlights(s1, p.sequence, others);
    } else {
      AckIgnoresFlights(s1, p.ackFor, others);
    }
  }

  /** The state after a flight taken off the list has been dealt with. */
  function LandedState(s: State, f: Flight): State {
    var s := s.(moves := s.moves + 1);
    if f.dropped then RecordDrop(s, Lost(f.packet)) else HandleArrival(s, f)
  }

  lemma LandInPlace(s: State, done: seq<Flight>, f: Flight, rest: seq<Flight>)
    ensures Land(s.(flights := done + ([f] + rest)), |done|) == LandedState(s, f).(flights := done + rest)
  {
    var all, s' := done + ([f] + rest), s.(moves := s.moves + 1);
    assert all[|done|] == f && all[..|done|] + all[|done| + 1..] == done + rest;
    if !f.dropped {
      ArrivalIgnoresFlights(s', f, done + rest);
    }
  }

  lemma AgeInPlace(s: State, done: seq<Flight>, f: Flight, rest: seq<Flight>, dt: nat)
    ensures Age(s.(flights := done + ([f] + rest)), |done|, dt)
            == s.(flights := done + [f.(remaining := f.remaining - dt)] + rest)
  {
    var all := done + ([f] + rest);
    assert all[|done| := f.(remaining := f.remaining - dt)] == done + [f.(remaining := f.remaining - dt)] + rest;
  }

  /** One turn of the loop over the flights, seen from the list that is not yet replaced. */
  lemma StepOver(p: State -> bool, s: State, done: seq<Flight>, f: Flight, rest: seq<Flight>, dt: nat)
    requires Safe(p) && s.running && p(s.(flights := done + ([f] + rest)))
    ensures var f' := f.(remaining := f.remaining - dt);
      var goal := AdvanceInFlight(s.(flights := done + ([f] + rest)), |done|, dt);
      if f'.remaining > 0 then
        p(s.(flights := done + [f'] + rest))
        && AdvanceInFlight(s.(flights := done + [f'] + rest), |done + [f']|, dt) == goal
      else
        var s' := LandedState(s, f');
        !s'.failed && s'.running && s'.flights == s.flights && p(s'.(flights := done + rest))
        && AdvanceInFlight(s'.(flights := done + rest), |done|, dt) == goal
  {
    var t := s.(flights := done + ([f] + rest));
    assert t.flights[|done|] == f;
    if f.remaining - dt > 0 {
      AgeInPlace(s, done, f, rest, dt);
      assert p(Age(t, |done|, dt));
    } else {
      LandInPlace(s, done, f, rest);
      assert LandedState(s, f) == LandedState(s, f.(remaining := f.remaining - dt));
      assert p(Land(t, |done|)) && Land(t, |done|).running;
    }
  }
}
