/** Conservation: every packet made is in exactly one place, and the run statistics add up. */
module Ledger {
  import opened Wrappers
  import opened Packets
  import opened Simulation
  import opened Totals
  import opened Network
  import opened NetworkSteps
  import opened Accounts

  function PacketOf(it: Item): Packet {
    match it
    case Queued(_, p) => p
    case Flying(f) => f.packet
    case Logged(e) => e.packet
  }

  ghost function One(): Weight {
    (it: Item) => 1
  }

  ghost function IdIs(x: int): Weight {
    (it: Item) => if PacketOf(it).id == x then 1 else 0
  }

  ghost function Drops(): Weight {
    (it: Item) => if it.Logged? && !it.event.Delivered? then 1 else 0
  }

  /** Arrivals of data at its destination. */
  ghost function DataArrivals(): Weight {
    (it: Item) => if it.Logged? && it.event.Delivered? && it.event.packet.kind == Data then 1 else 0
  }

  /** Every id handed out belongs to exactly one packet, which is in exactly one place. */
  ghost predicate Census(s: State) {
    && 1 <= s.nextPacketId
    && Total(s, One()) == s.nextPacketId - 1
    && (forall x {:trigger IdIs(x)} :: Total(s, IdIs(x)) == if 1 <= x < s.nextPacketId then 1 else 0)
    && Total(s, Drops()) == s.stats.dropped
  }

  ghost predicate Statistics(s: State) {
    && s.stats.sent == s.nextPacketId - 1
    && s.stats.sent == |s.attempted| + s.stats.retransmissions + s.stats.acknowledgements + s.stats.duplicates
    && s.stats.delivered == |s.delivered| && s.stats.completedSequences == s.delivered
    && s.stats.acknowledgements == (if s.cfg.mode == TCP then Total(s, DataArrivals()) else 0)
    && s.stats.retransmissions >= 0 && s.stats.duplicates >= 0
  }

  /** The census survives a step that makes at most one packet and otherwise only moves packets about. */
  lemma CensusStep(s: State, s': State, made: nat, dropped: nat)
    requires Census(s) && made <= 1
    requires s'.nextPacketId == s.nextPacketId + made && s'.stats.dropped == s.stats.dropped + dropped
    requires Total(s', One()) == Total(s, One()) + made
    requires Total(s', Drops()) == Total(s, Drops()) + dropped
    requires forall x {:trigger IdIs(x)} :: Total(s', IdIs(x)) == Total(s, IdIs(x)) +
                                              if made == 1 && x == s.nextPacketId then 1 else 0
    ensures Census(s')
  {
    forall x ensures Total(s', IdIs(x)) == if 1 <= x < s'.nextPacketId then 1 else 0 {
      assert Total(s, IdIs(x)) == if 1 <= x < s.nextPacketId then 1 else 0;
    }
  }

  lemma TransmitCounters(s: State, sequence: int, retransmission: bool)
    requires sequence < s.cfg.goal
    ensures var s' := Transmit(s, sequence, retransmission);
      && s'.cfg == s.cfg && s'.nextPacketId == s.nextPacketId + 1
      && s'.attempted == s.attempted + {sequence} && s'.delivered == s.delivered
      && s'.stats == s.stats.(sent := s.stats.sent + 1,
                              retransmissions := s.stats.retransmissions + if retransmission then 1 else 0)
  {
  }

  lemma TransmitCensus(rs: Routes, s: State, sequence: int, retransmission: bool)
    requires GoodNetwork(s, rs) && Census(s) && sequence < s.cfg.goal
    ensures Census(Transmit(s, sequence, retransmission))
    ensures Total(Transmit(s, sequence, retransmission), DataArrivals()) == Total(s, DataArrivals())
  {
    var s' := Transmit(s, sequence, retransmission);
    TransmitCounters(s, sequence, retransmission);
    TransmitTotal(rs, s, sequence, retransmission, One());
    TransmitTotal(rs, s, sequence, retransmission, Drops());
    TransmitTotal(rs, s, sequence, retransmission, DataArrivals());
    forall x ensures Total(s', IdIs(x)) == Total(s, IdIs(x)) + if x == s.nextPacketId then 1 else 0 {
      TransmitTotal(rs, s, sequence, retransmission, IdIs(x));
    }
    CensusStep(s, s', 1, 0);
  }

  lemma TransmitStatistics(s: State, s': State, sequence: int, retransmission: bool)
    requires Statistics(s) && (retransmission <==> sequence in s.attempted)
    requires s'.cfg == s.cfg && s'.nextPacketId == s.nextPacketId + 1
    requires s'.attempted == s.attempted + {sequence} && s'.delivered == s.delivered
    requires s'.stats == s.stats.(sent := s.stats.sent + 1,
                                  retransmissions := s.stats.retransmissions + if retransmission then 1 else 0)
    requires Total(s', DataArrivals()) == Total(s, DataArrivals())
    ensures Statistics(s')
  {
    assert sequence in s.attempted ==> s.attempted + {sequence} == s.attempted;
  }

  /** A transmission either opens a new sequence or is marked as repeating an old one. */
  lemma TransmitBalances(rs: Routes, s: State, sequence: int, retransmission: bool)
    requires GoodNetwork(s, rs) && Census(s) && Statistics(s)
    requires retransmission <==> sequence in s.attempted
    ensures Census(Transmit(s, sequence, retransmission)) && Statistics(Transmit(s, sequence, retransmission))
  {
    if sequence < s.cfg.goal {
      TransmitCensus(rs, s, sequence, retransmission);
      TransmitCounters(s, sequence, retransmission);
      TransmitStatistics(s, Transmit(s, sequence, retransmission), sequence, retransmission);
    }
  }

  lemma DispatchCounters(rs: Routes, s: State, i: nat, o: Outcome)
    requires GoodNetwork(s, rs) && i < |s.routers| && s.routers[i].queue != [] && s.routers[i].available <= s.now
    ensures var s', copies := Dispatch(s, i, o), if o.duplicated then 1 else 0;
      && s'.cfg == s.cfg && s'.attempted == s.attempted && s'.delivered == s.delivered
      && s'.moves == s.moves + 1
      && if Filters(s, i) then
           s'.nextPacketId == s.nextPacketId && s'.stats == s.stats.(dropped := s.stats.dropped + 1)
         else
           s'.nextPacketId == s.nextPacketId + copies
           && s'.stats == s.stats.(sent := s.stats.sent + copies, duplicates := s.stats.duplicates + copies)
  {
    DispatchCases(rs, s, i, o);
  }

  /** The duplicate a dispatch makes, if any. */
  function Made(s: State, i: nat, o: Outcome): nat
    requires i < |s.routers| && s.routers[i].queue != []
  {
    if !Filters(s, i) && o.duplicated then 1 else 0
  }

  lemma DispatchSums(rs: Routes, s: State, i: nat, o: Outcome)
    requires GoodNetwork(s, rs) && i < |s.routers| && s.routers[i].queue != [] && s.routers[i].available <= s.now
    ensures var s' := Dispatch(s, i, o);
      && Total(s', One()) == Total(s, One()) + Made(s, i, o)
      && Total(s', Drops()) == Total(s, Drops()) + (if Filters(s, i) then 1 else 0)
      && Total(s', DataArrivals()) == Total(s, DataArrivals())
  {
    DispatchTotal(rs, s, i, o, One());
    DispatchTotal(rs, s, i, o, Drops());
    DispatchTotal(rs, s, i, o, DataArrivals());
  }

  lemma DispatchIds(rs: Routes, s: State, i: nat, o: Outcome, x: int)
    requires GoodNetwork(s, rs) && i < |s.routers| && s.routers[i].queue != [] && s.routers[i].available <= s.now
    ensures Total(Dispatch(s, i, o), IdIs(x)) == Total(s, IdIs(x)) +
              if Made(s, i, o) == 1 && x == s.nextPacketId then 1 else 0
  {
    var r, w := s.routers[i], IdIs(x);
    var p := r.queue[0];
    DispatchTotal(rs, s, i, o, w);
    LaunchedIds(s, p, r.id, r.table[p.destination], o, x);
    InNumbers(Total(Dispatch(s, i, o), w), Total(s, w), w(Queued(r.id, p)),
              Launched(s, p, r.id, r.table[p.destination], o, w), Filters(s, i),
              if Made(s, i, o) == 1 && x == s.nextPacketId then 1 else 0);
  }

  lemma LaunchedIds(s: State, p: Packet, start: int, end: int, o: Outcome, x: int)
    ensures Launched(s, p, start, end, o, IdIs(x))
            == IdIs(x)(Queued(start, p)) + if o.duplicated && x == s.nextPacketId then 1 else 0
    ensures IdIs(x)(Queued(start, p)) == IdIs(x)(Logged(Filtered(p)))
  {
  }

  lemma DispatchCensus(rs: Routes, s: State, i: nat, o: Outcome)
    requires GoodNetwork(s, rs) && Census(s) && i < |s.routers|
    requires s.routers[i].queue != [] && s.routers[i].available <= s.now
    ensures Census(Dispatch(s, i, o))
    ensures Total(Dispatch(s, i, o), DataArrivals()) == Total(s, DataArrivals())
  {
    DispatchCounters(rs, s, i, o);
    DispatchSums(rs, s, i, o);
    forall x ensures Total(Dispatch(s, i, o), IdIs(x)) == Total(s, IdIs(x)) +
                       if Made(s, i, o) == 1 && x == s.nextPacketId then 1 else 0 {
      DispatchIds(rs, s, i, o, x);
    }
    CensusStep(s, Dispatch(s, i, o), Made(s, i, o), if Filters(s, i) then 1 else 0);
  }

  lemma DispatchBalances(rs: Routes, s: State, i: nat, o: Outcome)
    requires GoodNetwork(s, rs) && Census(s) && Statistics(s) && i < |s.routers|
    ensures Census(Dispatch(s, i, o)) && Statistics(Dispatch(s, i, o))
  {
    if s.routers[i].queue != [] && s.routers[i].available <= s.now {
      DispatchCensus(rs, s, i, o);
      DispatchCounters(rs, s, i, o);
    }
  }

  lemma AgeBalances(s: State, k: nat, dt: int)
    requires Census(s) && Statistics(s) && k < |s.flights|
    ensures Census(Age(s, k, dt)) && Statistics(Age(s, k, dt))
  {
    AgeTotal(s, k, dt, One());
    AgeTotal(s, k, dt, Drops());
    AgeTotal(s, k, dt, DataArrivals());
    forall x ensures Total(Age(s, k, dt), IdIs(x)) == Total(s, IdIs(x)) {
      AgeTotal(s, k, dt, IdIs(x));
    }
    CensusStep(s, Age(s, k, dt), 0, 0);
  }

  /** An arrival of data at its destination. */
  predicate Delivers(f: Flight) {
    !f.dropped && f.end == f.packet.destination && f.packet.kind == Data
  }

  function MarkedStats(s: State, f: Flight): Stats {
    if Delivers(f) then MarkDelivered(s, f.packet.sequence).stats else s.stats
  }

  function AcksFor(s: State, f: Flight): nat {
    if Delivers(f) && s.cfg.mode == TCP then 1 else 0
  }

  /** The counters of s' are those of s after flight f has landed. */
  ghost predicate LandedCounters(s: State, s': State, f: Flight) {
    && s'.cfg == s.cfg && s'.attempted == s.attempted
    && s'.delivered == (if Delivers(f) then s.delivered + {f.packet.sequence} else s.delivered)
    && s'.nextPacketId == s.nextPacketId + AcksFor(s, f)
    && s'.stats == MarkedStats(s, f).(
         sent := s.stats.sent + AcksFor(s, f),
         acknowledgements := s.stats.acknowledgements + AcksFor(s, f),
         dropped := s.stats.dropped + if f.dropped then 1 else 0)
  }

  lemma DataCounters(s: State, f: Flight)
    requires Delivers(f)
    ensures LandedCounters(s, OnDataReceived(s.(log := s.log + [Delivered(Arrived(f))]), f.packet.sequence), f)
    ensures OnDataReceived(s.(log := s.log + [Delivered(Arrived(f))]), f.packet.sequence).moves == s.moves
  {
    var log := s.log + [Delivered(Arrived(f))];
    MarkingIsLogFree(s, log, f.packet.sequence);
    var s1 := MarkDelivered(s.(log := log), f.packet.sequence);
    if s.cfg.mode == TCP {
      var p := AckPacket(s1, f.packet.sequence);
    }
  }

  lemma AckCounters(s: State, log: seq<PacketEvent>, ackFor: Option<int>)
    ensures var s' := OnAckReceived(s.(log := log), ackFor);
      s'.cfg == s.cfg && s'.attempted == s.attempted && s'.delivered == s.delivered
      && s'.nextPacketId == s.nextPacketId && s'.stats == s.stats && s'.moves == s.moves
  {
  }

  lemma ArrivalCounters(s: State, f: Flight)
    requires !f.dropped
    ensures LandedCounters(s, HandleArrival(s, f), f) && HandleArrival(s, f).moves == s.moves
  {
    if Delivers(f) {
      DataCounters(s, f);
    } else if f.end == f.packet.destination {
      AckCounters(s, s.log + [Delivered(Arrived(f))], f.packet.ackFor);
    }
  }

  lemma EndedCounters(s: State, k: nat, s': State, f: Flight)
    requires k < |s.flights| && LandedCounters(Ended(s, k), s', f)
    ensures LandedCounters(s, s', f)
  {
  }

  lemma LandCounters(s: State, k: nat)
    requires k < |s.flights|
    ensures LandedCounters(s, Land(s, k), s.flights[k]) && Land(s, k).moves == s.moves + 1
  {
    if !s.flights[k].dropped {
      ArrivalCounters(Ended(s, k), s.flights[k]);
      EndedCounters(s, k, Land(s, k), s.flights[k]);
    }
  }

  lemma LandedOne(s: State, f: Flight)
    ensures Landed(s, f, One()) == 1 + AcksFor(s, f)
    ensures Landed(s, f, Drops()) == if f.dropped then 1 else 0
    ensures Landed(s, f, DataArrivals()) == if Delivers(f) then 1 else 0
  {
  }

  lemma LandedIds(s: State, f: Flight, x: int)
    ensures Landed(s, f, IdIs(x)) == IdIs(x)(Flying(f)) + if AcksFor(s, f) == 1 && x == s.nextPacketId then 1 else 0
  {
  }

  lemma LandCensus(rs: Routes, s: State, k: nat)
    requires GoodNetwork(s, rs) && Census(s) && k < |s.flights|
    ensures Census(Land(s, k))
    ensures Total(Land(s, k), DataArrivals()) == Total(s, DataArrivals()) + if Delivers(s.flights[k]) then 1 else 0
  {
    var f, s' := s.flights[k], Land(s, k);
    LandCounters(s, k);
    LandTotal(rs, s, k, One());
    LandTotal(rs, s, k, Drops());
    LandTotal(rs, s, k, DataArrivals());
    LandedOne(s, f);
    forall x ensures Total(s', IdIs(x)) == Total(s, IdIs(x)) +
                       if AcksFor(s, f) == 1 && x == s.nextPacketId then 1 else 0 {
      LandTotal(rs, s, k, IdIs(x));
      LandedIds(s, f, x);
    }
    CensusStep(s, s', AcksFor(s, f), if f.dropped then 1 else 0);
  }

  lemma LandStatistics(s: State, s': State, f: Flight)
    requires Statistics(s) && LandedCounters(s, s', f)
    requires Total(s', DataArrivals()) == Total(s, DataArrivals()) + if Delivers(f) then 1 else 0
    ensures Statistics(s')
  {
    var q := f.packet.sequence;
    assert q in s.delivered ==> s.delivered + {q} == s.delivered;
  }

  lemma LandBalances(rs: Routes, s: State, k: nat)
    requires GoodNetwork(s, rs) && Census(s) && Statistics(s) && k < |s.flights|
    ensures Census(Land(s, k)) && Statistics(Land(s, k))
  {
    LandCensus(rs, s, k);
    LandCounters(s, k);
    LandStatistics(s, Land(s, k), s.flights[k]);
  }
}
