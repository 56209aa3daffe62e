/** Every step of the engine keeps the network good, and so never raises. */
module NetworkSteps {
  import opened Wrappers
  import opened Graphs
  import opened Packets
  import opened Simulation
  import opened Network

  lemma InjectKeeps(rs: Routes, s: State, p: Packet)
    requires GoodNetwork(s, rs)
    requires PacketOk(s.cfg, rs, s.attempted, s.delivered, p) && p.history == [p.source]
    ensures GoodNetwork(Inject(s, p), rs)
  {
    NextHop(s.cfg, rs, p.kind, 0);
    var s' := s.(stats := Inject(s, p).stats);
    SamePackets(rs, s, s');
    assert QueuedOk(s.cfg, rs, s.attempted, s.delivered, p.source, p);
    EnqueueKeeps(rs, s', p.source, p);
  }

  lemma FreshPacketOk(rs: Routes, s: State, kind: Kind, sequence: int, retransmission: bool)
    requires Planned(s.cfg, rs)
    requires if kind == Data then sequence in s.attempted else s.cfg.mode == TCP && sequence in s.delivered
    ensures var (a, b) := if kind == Data then (s.cfg.source, s.cfg.destination) else (s.cfg.destination, s.cfg.source);
      var ackFor := if kind == Data then None else Some(sequence);
      PacketOk(s.cfg, rs, s.attempted, s.delivered, NewPacket(s, a, b, kind, sequence, ackFor, retransmission))
  {
    var r := rs.Of(kind);
    assert [r[0]] <= r;
  }

  lemma InjectDataKeeps(rs: Routes, s: State, sequence: int, retransmission: bool)
    requires GoodNetwork(s, rs)
    ensures GoodNetwork(InjectData(s, sequence, retransmission), rs)
  {
    var s' := s.(nextPacketId := s.nextPacketId + 1, attempted := s.attempted + {sequence});
    SamePackets(rs, s, s');
    var p := NewPacket(s, s.cfg.source, s.cfg.destination, Data, sequence, None, retransmission);
    FreshPacketOk(rs, s.(attempted := s'.attempted), Data, sequence, retransmission);
    InjectKeeps(rs, s', p);
  }

  lemma TransmitKeeps(rs: Routes, s: State, sequence: int, retransmission: bool)
    requires GoodNetwork(s, rs)
    ensures GoodNetwork(Transmit(s, sequence, retransmission), rs)
  {
    if sequence < s.cfg.goal {
      InjectDataKeeps(rs, s, sequence, retransmission);
      SamePackets(rs, InjectData(s, sequence, retransmission), Transmit(s, sequence, retransmission));
    }
  }

  lemma SendAckKeeps(rs: Routes, s: State, sequence: int)
    requires GoodNetwork(s, rs) && s.cfg.mode == TCP && sequence in s.delivered
    ensures GoodNetwork(SendAck(s, sequence), rs)
  {
    var s' := s.(nextPacketId := s.nextPacketId + 1,
                 stats := s.stats.(acknowledgements := s.stats.acknowledgements + 1));
    SamePackets(rs, s, s');
    FreshPacketOk(rs, s, Ack, sequence, false);
    InjectKeeps(rs, s', NewPacket(s, s.cfg.destination, s.cfg.source, Ack, sequence, Some(sequence), false));
  }

  lemma FireKeeps(rs: Routes, s: State)
    requires GoodNetwork(s, rs) && s.events != []
    ensures GoodNetwork(Fire(s), rs)
  {
    var s' := s.(events := s.events[1..]);
    SamePackets(rs, s, s');
    match s.events[0].callback
    case SendData(q) => TransmitKeeps(rs, s', q, false);
    case Timeout(q, _) => TransmitKeeps(rs, s', q, true);
  }

  lemma LaunchKeeps(rs: Routes, s: State, p: Packet, start: int, end: int, o: Outcome)
    requires GoodNetwork(s, rs) && HasEdge(s.cfg.graph, start, end)
    requires FlightOk(s.cfg, rs, s.attempted, s.delivered, Flight(p, start, end, o.delay, o.dropped))
    ensures GoodNetwork(Launch(s, p, start, end, o), rs)
  {
    var s1 := s.(flights := s.flights + [Flight(p, start, end, o.delay, o.dropped)]);
    AddFlightKeeps(rs, s, Flight(p, start, end, o.delay, o.dropped));
    if o.duplicated {
      var f := Flight(Copy(s1, p, start), start, end, o.copyDelay, o.copyDropped);
      assert FlightOk(s.cfg, rs, s.attempted, s.delivered, f);
      AddFlightKeeps(rs, s1, f);
      SamePackets(rs, s1.(flights := s1.flights + [f]), Launch(s, p, start, end, o));
    }
  }

  /** A queued packet is either filtered by the firewall it sits at, or fit to go over its next link. */
  lemma QueuedNext(rs: Routes, c: Config, a: set<int>, d: set<int>, r: Router, p: Packet)
    requires Planned(c, rs) && QueuedOk(c, rs, a, d, r.id, p)
    requires r.rules == RulesFor(c, r.id) && r.table == TableOf(c, r.id)
    ensures p.destination in r.table && HasEdge(c.graph, r.id, r.table[p.destination])
    ensures p.destination != r.id
    ensures r.rules.Some? ==> ApplyRules(r.rules.value, p) ==
                              if Blocks(c) && p.kind == Data then Some(Drop) else None
    ensures r.rules.Some? && Blocks(c) && p.kind == Data ==> EventOk(c, rs, a, d, Filtered(p))
    ensures !(r.rules.Some? && Blocks(c) && p.kind == Data) ==>
              forall delay, dropped :: FlightOk(c, rs, a, d, Flight(p, r.id, r.table[p.destination], delay, dropped))
  {
    var i := |p.history| - 1;
    Prefix(p.history, rs.Of(p.kind));
    NextHop(c, rs, p.kind, i);
    assert p.history == p.history[..i] + [r.id];
    if r.rules.Some? {
      var rule := Rule(BLOCKED_PORT, Data, Drop);
      assert r.rules.value == [rule];
      assert rule.Matches(p) <==> Blocks(c) && p.kind == Data;
    }
  }

  lemma RecordDropKeeps(rs: Routes, s: State, e: PacketEvent)
    requires GoodNetwork(s, rs) && EventOk(s.cfg, rs, s.attempted, s.delivered, e)
    ensures GoodNetwork(RecordDrop(s, e), rs)
  {
    LogKeeps(rs, s, e);
    SamePackets(rs, s.(log := s.log + [e]), RecordDrop(s, e));
  }

  lemma PoppedKeeps(rs: Routes, s: State, i: nat)
    requires GoodNetwork(s, rs) && i < |s.routers| && s.routers[i].queue != []
    ensures GoodNetwork(Popped(s, i), rs)
    ensures RouterOk(s.cfg, rs, s.attempted, s.delivered, s.routers[i])
    ensures QueuedOk(s.cfg, rs, s.attempted, s.delivered, s.routers[i].id, s.routers[i].queue[0])
  {
    var r := s.routers[i];
    PopKeeps(rs, s, i, s.now + PROCESSING_DELAY);
    SamePackets(rs, s.(routers := s.routers[i := r.(queue := r.queue[1..], available := s.now + PROCESSING_DELAY)]),
                Popped(s, i));
  }

  lemma DispatchKeeps(rs: Routes, s: State, i: nat, o: Outcome)
    requires GoodNetwork(s, rs) && i < |s.routers|
    ensures GoodNetwork(Dispatch(s, i, o), rs)
  {
    var r := s.routers[i];
    if r.queue != [] && r.available <= s.now {
      var p := r.queue[0];
      PoppedKeeps(rs, s, i);
      QueuedNext(rs, s.cfg, s.attempted, s.delivered, r, p);
      if r.rules.Some? && Blocks(s.cfg) && p.kind == Data {
        RecordDropKeeps(rs, Popped(s, i), Filtered(p));
      } else {
        LaunchKeeps(rs, Popped(s, i), p, r.id, r.table[p.destination], o);
      }
    }
  }

  /** What a flight becomes when it arrives: either fit for the next queue or fully delivered. */
  lemma ArrivedNext(rs: Routes, c: Config, a: set<int>, d: set<int>, f: Flight)
    requires Planned(c, rs) && FlightOk(c, rs, a, d, f)
    ensures var p := Arrived(f);
      && PacketOk(c, rs, a, d, p) && IndexOf(c.ids, f.end) < |c.ids|
      && (p.current == p.destination <==> p.history == rs.Of(p.kind))
      && (p.current != p.destination ==> QueuedOk(c, rs, a, d, f.end, p))
      && (p.current == p.destination && p.kind == Ack ==> EventOk(c, rs, a, d, Delivered(p)))
      && (p.current == p.destination && p.kind == Data ==> EventOk(c, rs, a, d + {p.sequence}, Delivered(p)))
  {
    var h, r := f.packet.history, rs.Of(f.packet.kind);
    Prefix(h, r);
    NextHop(c, rs, f.packet.kind, |h| - 1);
    assert (h + [f.end])[..|h|] == h;
  }

  lemma MarkingIsLogFree(s: State, log: seq<PacketEvent>, sequence: int)
    ensures MarkDelivered(s.(log := log), sequence) == MarkDelivered(s, sequence).(log := log)
  {
  }

  lemma DataLogged(rs: Routes, s: State, p: Packet)
    requires GoodNetwork(s, rs) && p.kind == Data
    requires EventOk(s.cfg, rs, s.attempted, s.delivered + {p.sequence}, Delivered(p))
    ensures GoodNetwork(MarkDelivered(s.(log := s.log + [Delivered(p)]), p.sequence), rs)
  {
    SamePackets(rs, s, MarkDelivered(s, p.sequence));
    LogKeeps(rs, MarkDelivered(s, p.sequence), Delivered(p));
    MarkingIsLogFree(s, s.log + [Delivered(p)], p.sequence);
  }

  lemma DataArrivalKeeps(rs: Routes, s: State, p: Packet)
    requires GoodNetwork(s, rs) && p.kind == Data
    requires EventOk(s.cfg, rs, s.attempted, s.delivered + {p.sequence}, Delivered(p))
    ensures GoodNetwork(OnDataReceived(s.(log := s.log + [Delivered(p)]), p.sequence), rs)
  {
    DataLogged(rs, s, p);
    if s.cfg.mode == TCP {
      SendAckKeeps(rs, MarkDelivered(s.(log := s.log + [Delivered(p)]), p.sequence), p.sequence);
    }
  }

  lemma AckArrivalKeeps(rs: Routes, s: State, p: Packet)
    requires GoodNetwork(s, rs) && EventOk(s.cfg, rs, s.attempted, s.delivered, Delivered(p))
    ensures GoodNetwork(OnAckReceived(s.(log := s.log + [Delivered(p)]), p.ackFor), rs)
  {
    LogKeeps(rs, s, Delivered(p));
    var s1 := s.(log := s.log + [Delivered(p)]);
    SamePackets(rs, s1, OnAckReceived(s1, p.ackFor));
  }

  lemma ArrivalKeeps(rs: Routes, s: State, f: Flight)
    requires GoodNetwork(s, rs) && FlightOk(s.cfg, rs, s.attempted, s.delivered, f)
    ensures GoodNetwork(HandleArrival(s, f), rs)
  {
    ArrivedNext(rs, s.cfg, s.attempted, s.delivered, f);
    var p := Arrived(f);
    if p.current != p.destination {
      EnqueueKeeps(rs, s, p.current, p);
    } else if p.kind == Data {
      DataArrivalKeeps(rs, s, p);
    } else {
      AckArrivalKeeps(rs, s, p);
    }
  }

  lemma EndedKeeps(rs: Routes, s: State, k: nat)
    requires GoodNetwork(s, rs) && k < |s.flights|
    ensures GoodNetwork(Ended(s, k), rs)
    ensures FlightOk(s.cfg, rs, s.attempted, s.delivered, s.flights[k])
  {
    RemoveFlightKeeps(rs, s, k);
    SamePackets(rs, s.(flights := s.flights[..k] + s.flights[k + 1..]), Ended(s, k));
  }

  lemma LandKeeps(rs: Routes, s: State, k: nat)
    requires GoodNetwork(s, rs) && k < |s.flights|
    ensures GoodNetwork(Land(s, k), rs)
  {
    EndedKeeps(rs, s, k);
    if s.flights[k].dropped {
      RecordDropKeeps(rs, Ended(s, k), Lost(s.flights[k].packet));
    } else {
      ArrivalKeeps(rs, Ended(s, k), s.flights[k]);
    }
  }
}
