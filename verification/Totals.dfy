/** Adding up any per-packet quantity over everything the engine ever made, and how each step changes it. */
module Totals {
  import opened Packets
  import opened Simulation
  import opened Sums

  /** Where a packet can be: in the queue of a router, on a link, or gone and on record. */
  datatype Item = Queued(node: int, packet: Packet) | Flying(flight: Flight) | Logged(event: PacketEvent)

  type Weight = Item -> nat

  ghost function QueueWeight(node: int, w: Weight): Packet -> nat {
    p => w(Queued(node, p))
  }

  ghost function RouterWeight(w: Weight): Router -> nat {
    (r: Router) => Sum(r.queue, QueueWeight(r.id, w))
  }

  ghost function FlightWeight(w: Weight): Flight -> nat {
    f => w(Flying(f))
  }

  ghost function LogWeight(w: Weight): PacketEvent -> nat {
    e => w(Logged(e))
  }

  ghost function Total(s: State, w: Weight): nat {
    Sum(s.routers, RouterWeight(w)) + Sum(s.flights, FlightWeight(w)) + Sum(s.log, LogWeight(w))
  }

  /** Nothing is left out of a total. */
  lemma QueuedIsCounted(s: State, w: Weight, j: nat, p: Packet)
    requires j < |s.routers| && p in s.routers[j].queue
    ensures Total(s, w) >= w(Queued(s.routers[j].id, p))
  {
    var r := s.routers[j];
    var i :| 0 <= i < |r.queue| && r.queue[i] == p;
    SumRemove(r.queue, i, QueueWeight(r.id, w));
    SumRemove(s.routers, j, RouterWeight(w));
  }

  lemma FlyingIsCounted(s: State, w: Weight, k: nat)
    requires k < |s.flights|
    ensures Total(s, w) >= w(Flying(s.flights[k]))
  {
    SumRemove(s.flights, k, FlightWeight(w));
  }

  // ---------------------------------------------------------------- what each step adds and takes

  lemma EnqueueTotal(s: State, node: int, p: Packet, w: Weight)
    requires !Enqueue(s, node, p).failed && |s.routers| == |s.cfg.ids|
    requires forall i :: 0 <= i < |s.routers| ==> s.routers[i].id == s.cfg.ids[i]
    ensures Total(Enqueue(s, node, p), w) == Total(s, w) + w(Queued(node, p))
  {
    var i := IndexOf(s.cfg.ids, node);
    var r := s.routers[i];
    var r' := r.(queue := r.queue + [p]);
    SumSnoc(r.queue, p, QueueWeight(node, w));
    SumUpdate(s.routers, i, r', RouterWeight(w));
  }

  lemma AgeTotal(s: State, k: nat, dt: int, w: Weight)
    requires k < |s.flights|
    ensures Total(Age(s, k, dt), w) + w(Flying(s.flights[k]))
            == Total(s, w) + w(Flying(s.flights[k].(remaining := s.flights[k].remaining - dt)))
  {
    SumUpdate(s.flights, k, s.flights[k].(remaining := s.flights[k].remaining - dt), FlightWeight(w));
  }

  lemma EndedTotal(s: State, k: nat, w: Weight)
    requires k < |s.flights|
    ensures Total(s, w) == Total(Ended(s, k), w) + w(Flying(s.flights[k]))
  {
    SumRemove(s.flights, k, FlightWeight(w));
  }

  lemma LogTotal(s: State, e: PacketEvent, w: Weight)
    ensures Total(s.(log := s.log + [e]), w) == Total(s, w) + w(Logged(e))
  {
    SumSnoc(s.log, e, LogWeight(w));
  }

  lemma AddFlightTotal(s: State, f: Flight, w: Weight)
    ensures Total(s.(flights := s.flights + [f]), w) == Total(s, w) + w(Flying(f))
  {
    SumSnoc(s.flights, f, FlightWeight(w));
  }

  lemma PoppedTotal(s: State, i: nat, w: Weight)
    requires i < |s.routers| && s.routers[i].queue != []
    ensures Total(s, w) == Total(Popped(s, i), w) + w(Queued(s.routers[i].id, s.routers[i].queue[0]))
  {
    var r := s.routers[i];
    var r' := r.(queue := r.queue[1..], available := s.now + PROCESSING_DELAY);
    SumRemove(r.queue, 0, QueueWeight(r.id, w));
    assert r.queue[..0] + r.queue[0 + 1..] == r.queue[1..];
    SumUpdate(s.routers, i, r', RouterWeight(w));
  }

  lemma RecordDropTotal(s: State, e: PacketEvent, w: Weight)
    ensures Total(RecordDrop(s, e), w) == Total(s, w) + w(Logged(e))
  {
    LogTotal(s, e, w);
  }
}
