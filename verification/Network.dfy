/** What is true of every packet, wherever it is, in every state the engine can reach. */
module Network {
  import opened Wrappers
  import opened Graphs
  import opened Packets
  import opened Simulation

  /** The nodes the data and the acknowledgements of a run visit. */
  datatype Routes = Routes(data: seq<int>, ack: seq<int>) {
    function Of(kind: Kind): seq<int> {
      if kind == Data then data else ack
    }
  }

  /** v hands packets for d over to w: a table entry, a real link, and routers at both ends. */
  ghost predicate HandsOver(c: Config, d: int, v: int, w: int) {
    && v != d && IndexOf(c.ids, v) < |c.ids| && IndexOf(c.ids, w) < |c.ids|
    && HasEdge(c.graph, v, w) && d in TableOf(c, v) && TableOf(c, v)[d] == w
  }

  ghost predicate GoodRoute(c: Config, r: seq<int>, a: int, d: int) {
    && |r| >= 2 && r[0] == a && r[|r| - 1] == d
    && forall i, j :: 0 <= i && j == i + 1 && j < |r| ==> HandsOver(c, d, r[i], r[j])
  }

  ghost predicate Planned(c: Config, rs: Routes) {
    GoodRoute(c, rs.data, c.source, c.destination) && GoodRoute(c, rs.ack, c.destination, c.source)
  }

  /** The engine's firewall stands in the way of this run's data. */
  predicate Blocks(c: Config) {
    c.useSdn && c.firewall.Some? && c.port == BLOCKED_PORT
  }

  ghost predicate Clear(c: Config, kind: Kind, passed: seq<int>) {
    Blocks(c) && kind == Data ==> c.firewall.value !in passed
  }

  /** Ends, port and content fit the run, and the history is a prefix of the forwarding path. */
  ghost predicate PacketOk(c: Config, rs: Routes, attempted: set<int>, delivered: set<int>, p: Packet) {
    && (if p.kind == Data then
          p.source == c.source && p.destination == c.destination && p.ackFor == None && p.sequence in attempted
        else
          c.mode == TCP && p.source == c.destination && p.destination == c.source
          && p.ackFor == Some(p.sequence) && p.sequence in delivered)
    && p.port == c.port
    && p.history != [] && p.history <= rs.Of(p.kind)
    && p.current == p.history[|p.history| - 1]
  }

  ghost predicate QueuedOk(c: Config, rs: Routes, attempted: set<int>, delivered: set<int>, node: int, p: Packet) {
    && PacketOk(c, rs, attempted, delivered, p)
    && p.current == node && |p.history| < |rs.Of(p.kind)|
    && Clear(c, p.kind, p.history[..|p.history| - 1])
  }

  ghost predicate FlightOk(c: Config, rs: Routes, attempted: set<int>, delivered: set<int>, f: Flight) {
    && PacketOk(c, rs, attempted, delivered, f.packet)
    && f.start == f.packet.current && |f.packet.history| < |rs.Of(f.packet.kind)|
    && f.end == rs.Of(f.packet.kind)[|f.packet.history|]
    && Clear(c, f.packet.kind, f.packet.history)
  }

  ghost predicate EventOk(c: Config, rs: Routes, attempted: set<int>, delivered: set<int>, e: PacketEvent) {
    && PacketOk(c, rs, attempted, delivered, e.packet)
    && match e
       case Delivered(p) =>
         && p.history == rs.Of(p.kind)
         && Clear(c, p.kind, p.history[..|p.history| - 1])
         && (p.kind == Data ==> p.sequence in delivered)
       case Filtered(p) =>
         p.kind == Data && Blocks(c) && p.current == c.firewall.value && |p.history| < |rs.data|
       case Lost(_) => true
  }

  /** A router that still has the table and the rules it was built with, and a good queue. */
  ghost predicate RouterOk(c: Config, rs: Routes, attempted: set<int>, delivered: set<int>, r: Router)
  {
    && r.table == TableOf(c, r.id) && r.rules == RulesFor(c, r.id)
    && forall p :: p in r.queue ==> QueuedOk(c, rs, attempted, delivered, r.id, p)
  }

  ghost predicate Shape(s: State) {
    && |s.routers| == |s.cfg.ids|
    && forall i :: 0 <= i < |s.routers| ==> s.routers[i].id == s.cfg.ids[i]
  }

  ghost predicate GoodNetwork(s: State, rs: Routes)
  {
    && Planned(s.cfg, rs) && Shape(s) && !s.failed
    && (forall i :: 0 <= i < |s.routers| ==> RouterOk(s.cfg, rs, s.attempted, s.delivered, s.routers[i]))
    && (forall k :: 0 <= k < |s.flights| ==> FlightOk(s.cfg, rs, s.attempted, s.delivered, s.flights[k]))
    && (forall k :: 0 <= k < |s.log| ==> EventOk(s.cfg, rs, s.attempted, s.delivered, s.log[k]))
  }

  // ---------------------------------------------------------------- one packet

  /** The router a packet is at names the next node of its route, over a real link. */
  lemma NextHop(c: Config, rs: Routes, kind: Kind, i: nat)
    requires Planned(c, rs) && i < |rs.Of(kind)| - 1
    ensures var r, d := rs.Of(kind), if kind == Data then c.destination else c.source;
      HandsOver(c, d, r[i], r[i + 1]) && (r[i + 1] == d <==> i + 2 == |r|)
  {
    var r, d := rs.Of(kind), if kind == Data then c.destination else c.source;
    if i + 2 < |r| {
      assert HandsOver(c, d, r[i + 1], r[i + 2]);
    }
  }

  lemma Prefix(h: seq<int>, r: seq<int>)
    requires h <= r && |h| < |r|
    ensures h + [r[|h|]] <= r
    ensures h != [] ==> h[|h| - 1] == r[|h| - 1]
    ensures |h| + 1 == |r| ==> h + [r[|h|]] == r
  {
  }

  // ---------------------------------------------------------------- keeping the network good

  lemma RouterMonotone(c: Config, rs: Routes, a: set<int>, d: set<int>, a': set<int>, d': set<int>, r: Router)
    requires RouterOk(c, rs, a, d, r) && a <= a' && d <= d'
    ensures RouterOk(c, rs, a', d', r)
  {
    forall p | p in r.queue ensures QueuedOk(c, rs, a', d', r.id, p) {
      assert QueuedOk(c, rs, a, d, r.id, p);
    }
  }

  /** Nothing about the packets changes and the two sets only grow. */
  lemma SamePackets(rs: Routes, s: State, s': State)
    requires GoodNetwork(s, rs)
    requires s'.cfg == s.cfg && s'.routers == s.routers && s'.flights == s.flights && s'.log == s.log
    requires !s'.failed && s.attempted <= s'.attempted && s.delivered <= s'.delivered
    ensures GoodNetwork(s', rs)
  {
    forall i | 0 <= i < |s'.routers| ensures RouterOk(s'.cfg, rs, s'.attempted, s'.delivered, s'.routers[i]) {
      RouterMonotone(s.cfg, rs, s.attempted, s.delivered, s'.attempted, s'.delivered, s.routers[i]);
    }
    forall k | 0 <= k < |s'.flights| ensures FlightOk(s'.cfg, rs, s'.attempted, s'.delivered, s'.flights[k]) {
      assert FlightOk(s.cfg, rs, s.attempted, s.delivered, s.flights[k]);
    }
    forall k | 0 <= k < |s'.log| ensures EventOk(s'.cfg, rs, s'.attempted, s'.delivered, s'.log[k]) {
      assert EventOk(s.cfg, rs, s.attempted, s.delivered, s.log[k]);
    }
  }

  lemma RouterEnqueue(c: Config, rs: Routes, a: set<int>, d: set<int>, r: Router, p: Packet)
    requires RouterOk(c, rs, a, d, r) && QueuedOk(c, rs, a, d, r.id, p)
    ensures RouterOk(c, rs, a, d, r.(queue := r.queue + [p]))
  {
    forall q | q in r.queue + [p] ensures QueuedOk(c, rs, a, d, r.id, q) {
      assert q == p || q in r.queue;
    }
  }

  lemma RouterPop(c: Config, rs: Routes, a: set<int>, d: set<int>, r: Router, available: int)
    requires RouterOk(c, rs, a, d, r) && r.queue != []
    ensures RouterOk(c, rs, a, d, r.(queue := r.queue[1..], available := available))
    ensures QueuedOk(c, rs, a, d, r.id, r.queue[0])
  {
    assert r.queue[0] in r.queue;
    forall q | q in r.queue[1..] ensures QueuedOk(c, rs, a, d, r.id, q) {
      assert q in r.queue;
    }
  }

  lemma RouterReplaced(rs: Routes, s: State, i: nat, r: Router)
    requires GoodNetwork(s, rs) && i < |s.routers| && r.id == s.routers[i].id
    requires RouterOk(s.cfg, rs, s.attempted, s.delivered, r)
    ensures GoodNetwork(s.(routers := s.routers[i := r]), rs)
  {
    var routers := s.routers[i := r];
    forall k | 0 <= k < |routers|
      ensures RouterOk(s.cfg, rs, s.attempted, s.delivered, routers[k]) && routers[k].id == s.cfg.ids[k] {
      if k != i {
        assert routers[k] == s.routers[k];
      }
    }
  }

  lemma EnqueueKeeps(rs: Routes, s: State, node: int, p: Packet)
    requires GoodNetwork(s, rs) && IndexOf(s.cfg.ids, node) < |s.cfg.ids|
    requires QueuedOk(s.cfg, rs, s.attempted, s.delivered, node, p)
    ensures GoodNetwork(Enqueue(s, node, p), rs)
  {
    var i := IndexOf(s.cfg.ids, node);
    var r := s.routers[i];
    RouterEnqueue(s.cfg, rs, s.attempted, s.delivered, r, p);
    RouterReplaced(rs, s, i, r.(queue := r.queue + [p]));
  }

  lemma PopKeeps(rs: Routes, s: State, i: nat, available: int)
    requires GoodNetwork(s, rs) && i < |s.routers| && s.routers[i].queue != []
    ensures var r := s.routers[i];
      GoodNetwork(s.(routers := s.routers[i := r.(queue := r.queue[1..], available := available)]), rs)
      && QueuedOk(s.cfg, rs, s.attempted, s.delivered, r.id, r.queue[0])
  {
    var r := s.routers[i];
    RouterPop(s.cfg, rs, s.attempted, s.delivered, r, available);
    RouterReplaced(rs, s, i, r.(queue := r.queue[1..], available := available));
  }

  lemma FlightsReplaced(rs: Routes, s: State, flights: seq<Flight>)
    requires GoodNetwork(s, rs)
    requires forall k :: 0 <= k < |flights| ==> FlightOk(s.cfg, rs, s.attempted, s.delivered, flights[k])
    ensures GoodNetwork(s.(flights := flights), rs)
  {
  }

  lemma AddFlightKeeps(rs: Routes, s: State, f: Flight)
    requires GoodNetwork(s, rs) && FlightOk(s.cfg, rs, s.attempted, s.delivered, f)
    ensures GoodNetwork(s.(flights := s.flights + [f]), rs)
  {
    FlightsReplaced(rs, s, s.flights + [f]);
  }

  lemma RestOfFlights(c: Config, rs: Routes, a: set<int>, d: set<int>, flights: seq<Flight>, k: nat)
    requires k < |flights| && forall j :: 0 <= j < |flights| ==> FlightOk(c, rs, a, d, flights[j])
    ensures var rest := flights[..k] + flights[k + 1..];
      forall j :: 0 <= j < |rest| ==> FlightOk(c, rs, a, d, rest[j])
  {
    var rest := flights[..k] + flights[k + 1..];
    forall j | 0 <= j < |rest| ensures FlightOk(c, rs, a, d, rest[j]) {
      assert rest[j] == flights[if j < k then j else j + 1];
    }
  }

  lemma RemoveFlightKeeps(rs: Routes, s: State, k: nat)
    requires GoodNetwork(s, rs) && k < |s.flights|
    ensures GoodNetwork(s.(flights := s.flights[..k] + s.flights[k + 1..]), rs)
    ensures FlightOk(s.cfg, rs, s.attempted, s.delivered, s.flights[k])
  {
    RestOfFlights(s.cfg, rs, s.attempted, s.delivered, s.flights, k);
    FlightsReplaced(rs, s, s.flights[..k] + s.flights[k + 1..]);
  }

  lemma AgeKeeps(rs: Routes, s: State, k: nat, dt: int)
    requires GoodNetwork(s, rs) && k < |s.flights|
    ensures GoodNetwork(Age(s, k, dt), rs)
  {
    var f := s.flights[k];
    assert FlightOk(s.cfg, rs, s.attempted, s.delivered, f);
    FlightsReplaced(rs, s, s.flights[k := f.(remaining := f.remaining - dt)]);
  }

  lemma LogKeeps(rs: Routes, s: State, e: PacketEvent)
    requires GoodNetwork(s, rs) && EventOk(s.cfg, rs, s.attempted, s.delivered, e)
    ensures GoodNetwork(s.(log := s.log + [e]), rs)
  {
  }

  /** No router ever loses or gets rules. */
  lemma RulesStay(s: State, rs: Routes)
    requires GoodNetwork(s, rs)
    ensures forall i :: 0 <= i < |s.routers| ==> s.routers[i].rules == RulesFor(s.cfg, s.routers[i].id)
  {
    forall i | 0 <= i < |s.routers| ensures s.routers[i].rules == RulesFor(s.cfg, s.routers[i].id) {
      assert RouterOk(s.cfg, rs, s.attempted, s.delivered, s.routers[i]);
    }
  }
}
