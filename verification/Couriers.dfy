/**
 * The packet that gets the awaited sequence or its acknowledgement home, and how late it can be: it is either
 * on a link or in the queue of a router that is busy for somebody. Time on links is paid out of what its way
 * allows for them, time in queues by the turns of routers.
 */
module Couriers {
  import opened Wrappers
  import opened Packets
  import opened Simulation
  import opened Network
  import opened NetworkSteps
  import opened Accounts
  import opened Ledger
  import opened Progress
  import opened Idle
  import opened FaithfulLinks

  /** How long a router's links may delay a packet, whether they duplicate or lose any, and how long a frame may be. */
  datatype Conditions = Conditions(delay: int -> nat, duplicates: bool, losses: bool, frame: nat)

  /** What the conditions mean for the packets of a run with these routes. */
  datatype Pace = Pace(rs: Routes, on: Conditions) {
    /** A router is busy, and found free by the next frame. */
    function Turn(): nat {
      PROCESSING_DELAY + on.frame
    }

    /** The links of a route, each found to be over by the next frame. */
    function Legs(route: seq<int>): nat {
      if |route| < 2 then 0 else on.delay(route[0]) + on.frame + Legs(route[1..])
    }

    /** The links that a packet, and the acknowledgement it calls for, still have to cross. */
    function ToGo(p: Packet): nat {
      var way := rs.Of(p.kind);
      if 1 <= |p.history| <= |way| then
        Legs(way[|p.history| - 1..]) + if p.kind == Data then Legs(rs.ack) else 0
      else 0
    }

    function RoundTrip(): nat {
      Legs(rs.data) + Legs(rs.ack)
    }
  }

  /** How far a frame of dt ms has come: routers and flights before these numbers have had their turn. */
  datatype Phase = Phase(routers: int, flights: int, dt: nat)

  /** p waits at router j for the awaited sequence, and neither it nor the router is later than it may be. */
  ghost predicate Waits(s: State, pace: Pace, credit: int, j: nat, p: Packet, late: nat) {
    && j < |s.routers| && p in s.routers[j].queue && s.awaiting == Some(p.sequence) && !p.duplicate
    && s.routers[j].available <= credit - pace.ToGo(p) + PROCESSING_DELAY
    && s.now <= credit - pace.ToGo(p) + PROCESSING_DELAY + late
  }

  /** Flight k is for the awaited sequence, is not lost, and ends no later than it may. */
  ghost predicate Rides(s: State, pace: Pace, credit: int, k: nat, late: nat, dt: nat) {
    && k < |s.flights| && !s.flights[k].dropped && s.awaiting == Some(s.flights[k].packet.sequence)
    && !s.flights[k].packet.duplicate
    && var f := s.flights[k];
      var due := credit - pace.ToGo(f.packet) + pace.on.delay(f.start);
      s.now <= due + late && s.now + f.remaining <= due + dt
  }

  ghost predicate CourierWaits(s: State, pace: Pace, credit: int, ph: Phase, j: nat, p: Packet) {
    Waits(s, pace, credit, j, p, if j < ph.routers then 0 else pace.on.frame)
  }

  ghost predicate CourierRides(s: State, pace: Pace, credit: int, ph: Phase, k: nat) {
    if k < ph.flights then Rides(s, pace, credit, k, 0, 0) else Rides(s, pace, credit, k, pace.on.frame, ph.dt)
  }

  /** Somebody is on the way for the awaited sequence and not late. */
  ghost predicate Courier(s: State, pace: Pace, credit: int, ph: Phase) {
    || (exists j: nat, p :: CourierWaits(s, pace, credit, ph, j, p))
    || (exists k: nat :: CourierRides(s, pace, credit, ph, k))
  }

  /** Between frames everybody has had his turn. */
  function Done(s: State): Phase {
    Phase(|s.routers|, |s.flights|, 0)
  }

  lemma MoreCredit(s: State, pace: Pace, credit: int, more: int, ph: Phase)
    requires Courier(s, pace, credit, ph) && credit <= more
    ensures Courier(s, pace, more, ph)
  {
    if j: nat, p :| CourierWaits(s, pace, credit, ph, j, p) {
      assert CourierWaits(s, pace, more, ph, j, p);
    } else {
      var k: nat :| CourierRides(s, pace, credit, ph, k);
      assert CourierRides(s, pace, more, ph, k);
    }
  }

  /** The clock goes on and nobody has had his turn. */
  lemma CourierLater(s: State, pace: Pace, credit: int, dt: nat)
    requires Courier(s, pace, credit, Done(s)) && dt <= pace.on.frame
    ensures Courier(Later(s, dt), pace, credit, Phase(0, 0, dt))
  {
    var t, ph := Later(s, dt), Phase(0, 0, dt);
    if j: nat, p :| CourierWaits(s, pace, credit, Done(s), j, p) {
      assert CourierWaits(t, pace, credit, ph, j, p);
    } else {
      var k: nat :| CourierRides(s, pace, credit, Done(s), k);
      assert CourierRides(t, pace, credit, ph, k);
    }
  }

  /** Timers only add packets. */
  lemma CourierUndisturbed(s: State, t: State, pace: Pace, credit: int, ph: Phase)
    requires Courier(s, pace, credit, ph) && Undisturbed(s, t) && t.awaiting == s.awaiting
    ensures Courier(t, pace, credit, ph)
  {
    if j: nat, p :| CourierWaits(s, pace, credit, ph, j, p) {
      assert s.routers[j].queue <= t.routers[j].queue;
      assert CourierWaits(t, pace, credit, ph, j, p);
    } else {
      var k: nat :| CourierRides(s, pace, credit, ph, k);
      assert CourierRides(t, pace, credit, ph, k);
    }
  }

  // ---------------------------------------------------------------- a router has its turn

  /** Router i sends the head of its queue off and is busy. */
  ghost predicate SendsOff(s: State, t: State, i: nat, o: Outcome)
    requires i < |s.routers| == |t.routers| && s.routers[i].queue != []
  {
    var r, k := s.routers[i], |s.flights|;
    && t.routers[i].available == s.now + PROCESSING_DELAY && t.routers[i].queue == r.queue[1..]
    && k < |t.flights| && t.flights[k].packet == r.queue[0] && t.flights[k].start == r.id
    && t.flights[k].remaining == o.delay && t.flights[k].dropped == o.dropped
  }

  /** Router i had its turn, and everybody else is where he was. */
  ghost predicate TurnOf(s: State, t: State, i: nat, o: Outcome) {
    && i < |s.routers| == |t.routers| && s.flights <= t.flights && t.now == s.now && t.awaiting == s.awaiting
    && (forall j :: 0 <= j < |s.routers| && j != i ==> t.routers[j] == s.routers[j])
    && if RouterDue(s, i, s.now) then SendsOff(s, t, i, o) else t.routers[i] == s.routers[i]
  }

  lemma DispatchIsTurn(s: State, rs: Routes, i: nat, o: Outcome)
    requires GoodNetwork(s, rs) && OpenTcp(s.cfg, rs) && i < |s.routers|
    ensures TurnOf(s, Dispatch(s, i, o), i, o)
  {
    DispatchMoves(s, i, o);
    if RouterDue(s, i, s.now) {
      NotFiltered(s, rs, i);
      DispatchCases(rs, s, i, o);
    }
  }

  lemma RideGoesOn(s: State, t: State, pace: Pace, credit: int, more: int, i: nat, o: Outcome, dt: nat, k: nat)
    requires TurnOf(s, t, i, o) && CourierRides(s, pace, credit, Phase(i, 0, dt), k) && credit <= more
    ensures CourierRides(t, pace, more, Phase(i + 1, 0, dt), k)
  {
    assert t.flights[k] == s.flights[k];
  }

  lemma WaitGoesOn(s: State, t: State, pace: Pace, credit: int, more: int, i: nat, o: Outcome, dt: nat, j: nat,
                   p: Packet)
    requires TurnOf(s, t, i, o) && CourierWaits(s, pace, credit, Phase(i, 0, dt), j, p) && credit <= more
    requires j != i || !RouterDue(s, i, s.now)
    ensures CourierWaits(t, pace, more, Phase(i + 1, 0, dt), j, p)
  {
  }

  /** A packet that waited for this turn still waits, a turn later, or it is the one that was sent off. */
  lemma WaitIsShorter(s: State, t: State, pace: Pace, credit: int, more: int, i: nat, o: Outcome, dt: nat, p: Packet)
    requires TurnOf(s, t, i, o) && CourierWaits(s, pace, credit, Phase(i, 0, dt), i, p) && RouterDue(s, i, s.now)
    requires o.delay <= pace.on.delay(s.routers[i].id) && credit + pace.Turn() <= more
    requires o.dropped ==> p != s.routers[i].queue[0]
    ensures CourierWaits(t, pace, more, Phase(i + 1, 0, dt), i, p)
            || CourierRides(t, pace, more, Phase(i + 1, 0, dt), |s.flights|)
  {
  }

  /** What a turn of router i is worth: nothing, unless it sends something off. */
  function Earned(s: State, pace: Pace, i: nat): nat {
    if RouterDue(s, i, s.now) then pace.Turn() else 0
  }

  /** The courier is sent off over a link that loses it. */
  ghost predicate IsLost(s: State, pace: Pace, credit: int, i: nat, o: Outcome, dt: nat) {
    o.dropped && RouterDue(s, i, s.now) && CourierWaits(s, pace, credit, Phase(i, 0, dt), i, s.routers[i].queue[0])
  }

  /** Router i has its turn of the frame; if it sends something off, that is paid for. */
  lemma CourierTurn(s: State, t: State, pace: Pace, credit: int, more: int, i: nat, o: Outcome, dt: nat)
    requires TurnOf(s, t, i, o) && Courier(s, pace, credit, Phase(i, 0, dt))
    requires o.delay <= pace.on.delay(s.routers[i].id) && credit + Earned(s, pace, i) <= more
    requires !IsLost(s, pace, credit, i, o, dt)
    ensures Courier(t, pace, more, Phase(i + 1, 0, dt))
  {
    if k: nat :| CourierRides(s, pace, credit, Phase(i, 0, dt), k) {
      RideGoesOn(s, t, pace, credit, more, i, o, dt, k);
    } else {
      var j: nat, p :| CourierWaits(s, pace, credit, Phase(i, 0, dt), j, p);
      if j == i && RouterDue(s, i, s.now) {
        WaitIsShorter(s, t, pace, credit, more, i, o, dt, p);
      } else {
        WaitGoesOn(s, t, pace, credit, more, i, o, dt, j, p);
      }
    }
  }

  // ---------------------------------------------------------------- a flight has its turn

  lemma AgeCourier(s: State, pace: Pace, credit: int, k: nat, dt: nat)
    requires k < |s.flights| && s.flights[k].remaining - dt > 0
    requires Courier(s, pace, credit, Phase(|s.routers|, k, dt))
    ensures Courier(Age(s, k, dt), pace, credit, Phase(|s.routers|, k + 1, dt))
  {
    var t, before, after := Age(s, k, dt), Phase(|s.routers|, k, dt), Phase(|s.routers|, k + 1, dt);
    if j: nat, p :| CourierWaits(s, pace, credit, before, j, p) {
      assert CourierWaits(t, pace, credit, after, j, p);
    } else {
      var j: nat :| CourierRides(s, pace, credit, before, j);
      assert CourierRides(t, pace, credit, after, j);
    }
  }

  /** Crossing a link takes its leg off what is to go; the acknowledgement goes on where the data ends. */
  lemma OneLegLess(s: State, pace: Pace, f: Flight)
    requires Planned(s.cfg, pace.rs) && FlightOk(s.cfg, pace.rs, s.attempted, s.delivered, f)
    ensures var leg := pace.on.delay(f.start) + pace.on.frame;
      && (f.end != f.packet.destination ==> pace.ToGo(f.packet) == leg + pace.ToGo(Arrived(f)))
      && (Delivers(f) ==> forall t: State :: t.cfg == s.cfg ==>
            pace.ToGo(f.packet) == leg + pace.ToGo(AckPacket(t, f.packet.sequence)))
      && pace.ToGo(f.packet) >= leg
  {
    var h, way := f.packet.history, pace.rs.Of(f.packet.kind);
    ArrivedNext(pace.rs, s.cfg, s.attempted, s.delivered, f);
    assert way[|h| - 1..][1..] == way[|h|..];
    assert pace.Legs(way[|h| - 1..]) == pace.on.delay(f.start) + pace.on.frame + pace.Legs(way[|h|..]);
    assert pace.rs.ack[0..] == pace.rs.ack;
  }

  lemma EnqueueAdds(s: State, node: int, p: Packet)
    requires Shape(s) && IndexOf(s.cfg.ids, node) < |s.cfg.ids|
    ensures Undisturbed(s, Enqueue(s, node, p))
    ensures p in Enqueue(s, node, p).routers[IndexOf(s.cfg.ids, node)].queue
  {
  }

  /** Where data that is delivered leaves its acknowledgement. */
  lemma DeliveredAdds(rs: Routes, s: State, q: int)
    requires Planned(s.cfg, rs) && Shape(s) && s.cfg.mode == TCP
    ensures var t := OnDataReceived(s, q);
      && Undisturbed(s, t) && IndexOf(s.cfg.ids, s.cfg.destination) < |t.routers|
      && AckPacket(s, q) in t.routers[IndexOf(s.cfg.ids, s.cfg.destination)].queue
  {
    NextHop(s.cfg, rs, Ack, 0);
    var s1 := MarkDelivered(s, q);
    var s2 := s1.(nextPacketId := s1.nextPacketId + 1,
                  stats := s1.stats.(acknowledgements := s1.stats.acknowledgements + 1, sent := s1.stats.sent + 1));
    EnqueueAdds(s2, s.cfg.destination, AckPacket(s, q));
    assert OnDataReceived(s, q) == Enqueue(s2, s.cfg.destination, AckPacket(s, q));
  }

  /** What a flight that is not lost becomes, unless it is an acknowledgement that is home. */
  function Onward(s: State, f: Flight): (int, Packet) {
    if Delivers(f) then (s.cfg.destination, AckPacket(s, f.packet.sequence)) else (f.end, Arrived(f))
  }

  /** The end of a flight adds to at most one queue: what the flight becomes. */
  lemma LandAdds(s: State, rs: Routes, k: nat)
    requires GoodNetwork(s, rs) && s.cfg.mode == TCP && k < |s.flights|
    ensures Undisturbed(Ended(s, k), Land(s, k))
    ensures var f := s.flights[k];
      var (node, p) := Onward(s, f);
      !f.dropped && (f.end != f.packet.destination || f.packet.kind == Data) ==>
        IndexOf(s.cfg.ids, node) < |s.routers| && p in Land(s, k).routers[IndexOf(s.cfg.ids, node)].queue
  {
    var f, s1 := s.flights[k], Ended(s, k);
    RemoveFlightKeeps(rs, s, k);
    ArrivedNext(rs, s.cfg, s.attempted, s.delivered, f);
    if !f.dropped {
      ArrivalAdds(s1, rs, f);
    }
  }

  lemma ArrivalAdds(s: State, rs: Routes, f: Flight)
    requires Planned(s.cfg, rs) && Shape(s) && s.cfg.mode == TCP
    requires !f.dropped && IndexOf(s.cfg.ids, f.end) < |s.cfg.ids|
    ensures Undisturbed(s, HandleArrival(s, f))
    ensures var (node, p) := Onward(s, f);
      f.end != f.packet.destination || f.packet.kind == Data ==>
        IndexOf(s.cfg.ids, node) < |s.routers| && p in HandleArrival(s, f).routers[IndexOf(s.cfg.ids, node)].queue
  {
    if f.end != f.packet.destination {
      EnqueueAdds(s, f.end, Arrived(f));
    } else if f.packet.kind == Data {
      DeliveredAdds(rs, s.(log := s.log + [Delivered(Arrived(f))]), f.packet.sequence);
    } else {
      AckAdds(s.(log := s.log + [Delivered(Arrived(f))]), f.packet.ackFor);
    }
  }

  lemma AckAdds(s: State, ackFor: Option<int>)
    ensures Undisturbed(s, OnAckReceived(s, ackFor))
  {
  }

  // ---------------------------------------------------------------- the end of a flight

  lemma OtherRides(s: State, t: State, pace: Pace, credit: int, k: nat, dt: nat, j: nat)
    requires k < |s.flights| && j != k && CourierRides(s, pace, credit, Phase(|s.routers|, k, dt), j)
    requires t.flights == s.flights[..k] + s.flights[k + 1..] && t.now == s.now && t.awaiting == s.awaiting
    ensures Courier(t, pace, credit, Phase(|s.routers|, k, dt))
  {
    var i := if j < k then j else j - 1;
    assert t.flights[i] == s.flights[j];
    assert CourierRides(t, pace, credit, Phase(|s.routers|, k, dt), i);
  }

  /** The courier itself arrives, and is in time for the next router. */
  lemma ArrivesInTime(s: State, pace: Pace, credit: int, k: nat, dt: nat)
    requires GoodNetwork(s, pace.rs) && Prompt(s) && s.cfg.mode == TCP && k < |s.flights|
    requires CourierRides(s, pace, credit, Phase(|s.routers|, k, dt), k)
    requires Land(s, k).awaiting == s.awaiting
    ensures Courier(Land(s, k), pace, credit, Phase(|s.routers|, k, dt))
  {
    var f, t := s.flights[k], Land(s, k);
    assert FlightOk(s.cfg, pace.rs, s.attempted, s.delivered, f);
    LandAdds(s, pace.rs, k);
    LandAwaiting(s, k);
    OneLegLess(s, pace, f);
    var (node, p) := Onward(s, f);
    var j := IndexOf(s.cfg.ids, node);
    assert CourierWaits(t, pace, credit, Phase(|s.routers|, k, dt), j, p);
  }

  /** Flight k ends. Either nothing changes for the sender, or what it waited for is home. */
  lemma LandCourier(s: State, pace: Pace, credit: int, k: nat, dt: nat)
    requires GoodNetwork(s, pace.rs) && Prompt(s) && s.cfg.mode == TCP && k < |s.flights|
    requires Courier(s, pace, credit, Phase(|s.routers|, k, dt))
    requires Land(s, k).awaiting == s.awaiting
    ensures Courier(Land(s, k), pace, credit, Phase(|s.routers|, k, dt))
  {
    var t, ph := Land(s, k), Phase(|s.routers|, k, dt);
    LandAdds(s, pace.rs, k);
    if j: nat, p :| CourierWaits(s, pace, credit, ph, j, p) {
      assert s.routers[j].queue <= t.routers[j].queue;
      assert CourierWaits(t, pace, credit, ph, j, p);
    } else {
      var j: nat :| CourierRides(s, pace, credit, ph, j);
      if j == k {
        ArrivesInTime(s, pace, credit, k, dt);
      } else {
        OtherRides(s, t, pace, credit, k, dt, j);
      }
    }
  }

  /** While flights have their turns the clock is no further than the way home may take. */
  lemma CourierClock(s: State, pace: Pace, credit: int, k: nat, dt: nat)
    requires GoodNetwork(s, pace.rs) && Courier(s, pace, credit, Phase(|s.routers|, k, dt))
    ensures s.awaiting.Some? && s.now <= credit + PROCESSING_DELAY
  {
    var ph := Phase(|s.routers|, k, dt);
    if j: nat :| CourierRides(s, pace, credit, ph, j) {
      OneLegLess(s, pace, s.flights[j]);
    }
  }
}
