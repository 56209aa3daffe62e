/** How each step of the engine changes a total taken over all packets. */
module Accounts {
  import opened Wrappers
  import opened Graphs
  import opened Packets
  import opened Simulation
  import opened Totals
  import opened Network
  import opened NetworkSteps

  lemma InjectTotal(rs: Routes, s: State, p: Packet, w: Weight)
    requires GoodNetwork(s, rs) && IndexOf(s.cfg.ids, p.source) < |s.cfg.ids|
    ensures Total(Inject(s, p), w) == Total(s, w) + w(Queued(p.source, p))
  {
    var s' := s.(stats := Inject(s, p).stats);
    SamePackets(rs, s, s');
    ForwardTotal(rs, s', p.source, p, w);
  }

  /** The packet a transmission of the given sequence puts into the source's queue. */
  function DataPacket(s: State, sequence: int, retransmission: bool): Packet {
    NewPacket(s, s.cfg.source, s.cfg.destination, Data, sequence, None, retransmission)
  }

  function AckPacket(s: State, sequence: int): Packet {
    NewPacket(s, s.cfg.destination, s.cfg.source, Ack, sequence, Some(sequence), false)
  }

  lemma TransmitTotal(rs: Routes, s: State, sequence: int, retransmission: bool, w: Weight)
    requires GoodNetwork(s, rs)
    ensures Total(Transmit(s, sequence, retransmission), w) == Total(s, w) +
              if sequence >= s.cfg.goal then 0
              else w(Queued(s.cfg.source, DataPacket(s, sequence, retransmission)))
  {
    if sequence < s.cfg.goal {
      var s' := s.(nextPacketId := s.nextPacketId + 1, attempted := s.attempted + {sequence});
      SamePackets(rs, s, s');
      NextHop(s.cfg, rs, Data, 0);
      InjectTotal(rs, s', DataPacket(s, sequence, retransmission), w);
    }
  }

  lemma SendAckTotal(rs: Routes, s: State, sequence: int, w: Weight)
    requires GoodNetwork(s, rs)
    ensures Total(SendAck(s, sequence), w) == Total(s, w) + w(Queued(s.cfg.destination, AckPacket(s, sequence)))
  {
    var s' := s.(nextPacketId := s.nextPacketId + 1,
                 stats := s.stats.(acknowledgements := s.stats.acknowledgements + 1));
    SamePackets(rs, s, s');
    NextHop(s.cfg, rs, Ack, 0);
    InjectTotal(rs, s', AckPacket(s, sequence), w);
  }

  /** What a launch puts on its link. */
  ghost function Launched(s: State, p: Packet, start: int, end: int, o: Outcome, w: Weight): nat {
    w(Flying(Flight(p, start, end, o.delay, o.dropped)))
    + if o.duplicated then w(Flying(Flight(Copy(s, p, start), start, end, o.copyDelay, o.copyDropped))) else 0
  }

  lemma LaunchTotal(s: State, p: Packet, start: int, end: int, o: Outcome, w: Weight)
    requires HasEdge(s.cfg.graph, start, end)
    ensures Total(Launch(s, p, start, end, o), w) == Total(s, w) + Launched(s, p, start, end, o, w)
  {
    var f := Flight(p, start, end, o.delay, o.dropped);
    AddFlightTotal(s, f, w);
    if o.duplicated {
      AddFlightTotal(s.(flights := s.flights + [f]),
                     Flight(Copy(s, p, start), start, end, o.copyDelay, o.copyDropped), w);
    }
  }

  /** The firewall rule applies to the head of this router's queue. */
  predicate Filters(s: State, i: nat)
    requires i < |s.routers| && s.routers[i].queue != []
  {
    s.routers[i].rules.Some? && Blocks(s.cfg) && s.routers[i].queue[0].kind == Data
  }

  /** A ready router with work either filters the head of its queue or launches it to the next hop. */
  lemma DispatchCases(rs: Routes, s: State, i: nat, o: Outcome)
    requires GoodNetwork(s, rs) && i < |s.routers| && s.routers[i].queue != [] && s.routers[i].available <= s.now
    ensures var r := s.routers[i];
      var p := r.queue[0];
      && GoodNetwork(Popped(s, i), rs) && QueuedOk(s.cfg, rs, s.attempted, s.delivered, r.id, p)
      && p.destination in r.table && HasEdge(s.cfg.graph, r.id, r.table[p.destination])
      && Dispatch(s, i, o) == if Filters(s, i) then RecordDrop(Popped(s, i), Filtered(p))
                              else Launch(Popped(s, i), p, r.id, r.table[p.destination], o)
  {
    PoppedKeeps(rs, s, i);
    QueuedNext(rs, s.cfg, s.attempted, s.delivered, s.routers[i], s.routers[i].queue[0]);
  }

  lemma DispatchTotal(rs: Routes, s: State, i: nat, o: Outcome, w: Weight)
    requires GoodNetwork(s, rs) && i < |s.routers| && s.routers[i].queue != [] && s.routers[i].available <= s.now
    ensures var r := s.routers[i];
      var p := r.queue[0];
      p.destination in r.table
      && Total(Dispatch(s, i, o), w) + w(Queued(r.id, p)) == Total(s, w) +
           if Filters(s, i) then w(Logged(Filtered(p)))
           else Launched(s, p, r.id, r.table[p.destination], o, w)
  {
    var r := s.routers[i];
    var p := r.queue[0];
    DispatchCases(rs, s, i, o);
    PoppedTotal(s, i, w);
    if Filters(s, i) {
      RecordDropTotal(Popped(s, i), Filtered(p), w);
    } else {
      LaunchTotal(Popped(s, i), p, r.id, r.table[p.destination], o, w);
    }
  }

  /** A turn keeps what it moves, and adds what is made. */
  lemma InNumbers(after: int, before: int, waiting: int, launched: int, filtered: bool, copies: int)
    requires after + waiting == before + if filtered then waiting else launched
    requires if filtered then copies == 0 else launched == waiting + copies
    ensures after == before + copies
  {
  }

  /** What becomes of the packet of a flight that ends. */
  ghost function Landed(s: State, f: Flight, w: Weight): nat {
    var p := Arrived(f);
    if f.dropped then w(Logged(Lost(f.packet)))
    else if p.current != p.destination then w(Queued(f.end, p))
    else w(Logged(Delivered(p))) +
         if p.kind == Data && s.cfg.mode == TCP then w(Queued(s.cfg.destination, AckPacket(s, p.sequence))) else 0
  }

  lemma DataArrivalTotal(rs: Routes, s: State, p: Packet, w: Weight)
    requires GoodNetwork(s, rs) && p.kind == Data
    requires EventOk(s.cfg, rs, s.attempted, s.delivered + {p.sequence}, Delivered(p))
    ensures Total(OnDataReceived(s.(log := s.log + [Delivered(p)]), p.sequence), w)
            == Total(s, w) + w(Logged(Delivered(p))) +
               if s.cfg.mode == TCP then w(Queued(s.cfg.destination, AckPacket(s, p.sequence))) else 0
  {
    LogTotal(s, Delivered(p), w);
    var s1 := MarkDelivered(s.(log := s.log + [Delivered(p)]), p.sequence);
    if s.cfg.mode == TCP {
      DataLogged(rs, s, p);
      SendAckTotal(rs, s1, p.sequence, w);
    }
  }

  lemma AckArrivalTotal(s: State, p: Packet, w: Weight)
    ensures Total(OnAckReceived(s.(log := s.log + [Delivered(p)]), p.ackFor), w)
            == Total(s, w) + w(Logged(Delivered(p)))
  {
    LogTotal(s, Delivered(p), w);
  }

  lemma ForwardTotal(rs: Routes, s: State, node: int, p: Packet, w: Weight)
    requires GoodNetwork(s, rs) && IndexOf(s.cfg.ids, node) < |s.cfg.ids|
    ensures Total(Enqueue(s, node, p), w) == Total(s, w) + w(Queued(node, p))
  {
    EnqueueTotal(s, node, p, w);
  }

  lemma ArrivalTotal(rs: Routes, s: State, f: Flight, w: Weight)
    requires GoodNetwork(s, rs) && FlightOk(s.cfg, rs, s.attempted, s.delivered, f) && !f.dropped
    ensures Total(HandleArrival(s, f), w) == Total(s, w) + Landed(s, f, w)
  {
    ArrivedNext(rs, s.cfg, s.attempted, s.delivered, f);
    var p := Arrived(f);
    if p.current != p.destination {
      ForwardTotal(rs, s, p.current, p, w);
    } else if p.kind == Data {
      DataArrivalTotal(rs, s, p, w);
    } else {
      AckArrivalTotal(s, p, w);
    }
  }

  lemma LandTotal(rs: Routes, s: State, k: nat, w: Weight)
    requires GoodNetwork(s, rs) && k < |s.flights|
    ensures Total(Land(s, k), w) + w(Flying(s.flights[k])) == Total(s, w) + Landed(s, s.flights[k], w)
  {
    var f := s.flights[k];
    EndedKeeps(rs, s, k);
    EndedTotal(s, k, w);
    if f.dropped {
      RecordDropTotal(Ended(s, k), Lost(f.packet), w);
    } else {
      ArrivalTotal(rs, Ended(s, k), f, w);
    }
  }
}
