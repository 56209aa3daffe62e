/** What a user of the simulator may rely on, in every state of every session. */
module Guarantees {
  import opened Wrappers
  import opened Graphs
  import opened Forwarding
  import opened Packets
  import opened Simulation
  import opened Ranges
  import opened Sums
  import opened Totals
  import opened Network
  import opened NetworkSteps
  import opened Ledger
  import opened Drain
  import opened Protocol
  import opened ProtocolSteps
  import opened Invariants
  import opened Sessions

  /** The packet waits in some queue or is on some link. */
  ghost predicate InNetwork(s: State, p: Packet) {
    || (exists i :: 0 <= i < |s.routers| && p in s.routers[i].queue)
    || (exists k :: 0 <= k < |s.flights| && s.flights[k].packet == p)
  }

  lemma InNetworkOk(s: State, rs: Routes, p: Packet)
    requires GoodNetwork(s, rs) && InNetwork(s, p)
    ensures PacketOk(s.cfg, rs, s.attempted, s.delivered, p)
  {
    if i :| 0 <= i < |s.routers| && p in s.routers[i].queue {
      assert RouterOk(s.cfg, rs, s.attempted, s.delivered, s.routers[i]);
      assert QueuedOk(s.cfg, rs, s.attempted, s.delivered, s.routers[i].id, p);
    } else {
      var k :| 0 <= k < |s.flights| && s.flights[k].packet == p;
      assert FlightOk(s.cfg, rs, s.attempted, s.delivered, s.flights[k]);
    }
  }

  // ---------------------------------------------------------------- reliable, ordered transport

  /**
   * Under any loss, delay, reordering and duplication the delivered sequences are 0..m-1, the ones
   * sent are 0..m-1 or 0..m, no packet in the network is ahead of either, and a run that claims
   * completion while still running has delivered everything.
   */
  lemma TcpSafety(c: Config, steps: seq<Step>)
    requires Legal(c, steps) && Session(c, steps).cfg.mode == TCP
    ensures var s := Session(c, steps);
      && s.delivered == Range(|s.delivered|) && s.attempted == Range(|s.attempted|)
      && |s.delivered| <= |s.attempted| <= |s.delivered| + 1
      && (forall p :: InNetwork(s, p) && p.kind == Data ==> p.sequence in s.attempted)
      && (forall p :: InNetwork(s, p) && p.kind == Ack ==> p.ackFor == Some(p.sequence) && p.sequence in s.delivered)
      && (s.running && s.completed ==> |s.delivered| == s.cfg.goal)
  {
    var s := Session(c, steps);
    SessionGood(c, steps);
    forall p | InNetwork(s, p)
      ensures if p.kind == Data then p.sequence in s.attempted
              else p.ackFor == Some(p.sequence) && p.sequence in s.delivered {
      InNetworkOk(s, RoutesOf(s.cfg), p);
    }
  }

  /** The timers are to send the sequences not yet sent, in order and 260 ms apart, and hold nothing else. */
  ghost predicate OnlyRestOfSchedule(s: State) {
    var sent := |s.attempted|;
    && |s.events| == s.cfg.goal - sent
    && forall i :: 0 <= i < |s.events| ==>
         s.events[i].due == (sent + i) * 260 && s.events[i].callback == SendData(sent + i)
  }

  /**
   * UDP delivers only what was sent, sends in order, never repeats and never acknowledges; while the run
   * goes on exactly the sequences not yet sent are on the timers, each at its own time.
   */
  lemma UdpSafety(c: Config, steps: seq<Step>)
    requires Legal(c, steps) && Session(c, steps).cfg.mode == UDP
    ensures var s := Session(c, steps);
      && s.attempted == Range(|s.attempted|) && s.delivered <= s.attempted
      && s.stats.retransmissions == 0 && s.stats.acknowledgements == 0
      && (forall p :: InNetwork(s, p) ==> p.kind == Data && p.sequence in s.attempted)
      && (s.running ==> OnlyRestOfSchedule(s))
  {
    var s := Session(c, steps);
    SessionGood(c, steps);
    forall p | InNetwork(s, p) ensures p.kind == Data && p.sequence in s.attempted {
      InNetworkOk(s, RoutesOf(s.cfg), p);
    }
    if s.running {
      RestOfSchedule(s);
    }
  }

  lemma RestOfSchedule(s: State)
    requires UdpRunning(s) && Firsts(s) <= s.cfg.goal
    ensures OnlyRestOfSchedule(s)
  {
  }

  /** Event i is the only one that would do anything, it is what the sender waits for, and it is near. */
  ghost predicate OnlyMover(s: State, i: int) {
    && 0 <= i < |s.events| && s.events[i].due <= s.now + (if s.awaiting.Some? then 950 else 150)
    && (match s.awaiting
        case Some(q) => s.events[i].callback == Timeout(q, s.token)
        case None => s.events[i].callback == SendData(s.nextSequence) && s.nextSequence < s.cfg.goal)
    && forall j :: 0 <= j < |s.events| ==> (Call(s, s.events[j].callback) != s <==> j == i)
  }

  /**
   * TCP never stalls: until completion exactly one pending event would transmit, it is the timeout of
   * the awaited sequence or the sending of the next one, and it is due within one timeout.
   */
  lemma TcpNeverStalls(c: Config, steps: seq<Step>)
    requires Legal(c, steps)
    requires Session(c, steps).cfg.mode == TCP && Session(c, steps).running && !Session(c, steps).completed
    ensures exists i :: OnlyMover(Session(c, steps), i)
  {
    SessionGood(c, steps);
    OneMover(Session(c, steps));
  }

  lemma OneMover(s: State)
    requires ProtocolOk(s) && s.cfg.mode == TCP && s.running && !s.completed
    ensures exists i :: OnlyMover(s, i)
  {
    var e :| OnlyLive(s, e);
    var i :| 0 <= i < |s.events| && s.events[i] == e;
    forall j | 0 <= j < |s.events| ensures Call(s, s.events[j].callback) != s <==> j == i {
      assert s.events[j] in s.events;
      if j == i {
        LiveTransmits(s, e);
      } else {
        assert s.events[j] != e by {
          assert if i < j then Before(s.events[i], s.events[j]) else Before(s.events[j], s.events[i]);
        }
      }
    }
    assert OnlyMover(s, i);
  }

  lemma LiveTransmits(s: State, e: Event)
    requires s.cfg.mode == TCP && s.running && !s.completed && OnlyLive(s, e) && s.nextSequence < s.cfg.goal
    requires s.awaiting.Some? ==> s.awaiting.value == s.nextSequence
    ensures Call(s, e.callback) != s
  {
    TransmitTimers(s, s.nextSequence, s.awaiting.Some?);
  }

  /** Once everything is acknowledged no timer has any effect; UDP has no timers but its sends. */
  lemma CompletedTimersAreIdle(c: Config, steps: seq<Step>)
    requires Legal(c, steps) && Session(c, steps).running && Session(c, steps).completed
    ensures var s := Session(c, steps);
      forall e :: e in s.events ==> Call(s, e.callback) == s
  {
    SessionGood(c, steps);
  }

  /** Each repeat waited out the timeout before it, and each new sequence the pause after its acknowledgement. */
  lemma TimeSpent(c: Config, steps: seq<Step>)
    requires Legal(c, steps) && |Session(c, steps).attempted| > 0
    ensures TimeAccounted(Session(c, steps))
  {
    SessionGood(c, steps);
    InOrderIsTimed(Session(c, steps));
  }

  ghost predicate TimeAccounted(s: State) {
    var firsts, repeats := |s.attempted|, s.stats.retransmissions;
    if s.cfg.mode == TCP then 950 * repeats + 150 * (firsts - 1) <= s.now
    else repeats == 0 && 260 * (firsts - 1) <= s.now
  }

  lemma InOrderIsTimed(s: State)
    requires InOrder(s) && |s.attempted| > 0
    ensures TimeAccounted(s)
  {
  }

  // ---------------------------------------------------------------- the end of a run

  /**
   * A run that ends before the time limit ends for a reason: nothing is left in the network or on the
   * timers, TCP has delivered every sequence, UDP has sent every one, and every packet sent has either
   * arrived or been dropped.
   */
  lemma EarlyEndMeansDone(c: Config, steps: seq<Step>, dt: nat, choice: int -> Outcome)
    requires Legal(c, steps) && Session(c, steps).running
    requires !Update(Session(c, steps), dt, choice).running && Update(Session(c, steps), dt, choice).now < MAX_RUNTIME
    ensures var s := Update(Session(c, steps), dt, choice);
      && NetworkIdle(s) && s.stats.sent == s.stats.dropped + Arrivals(s)
      && (if s.cfg.mode == TCP then |s.delivered| == s.cfg.goal else |s.attempted| == s.cfg.goal)
  {
    var s := Session(c, steps);
    SessionGood(c, steps);
    var rs := RoutesOf(s.cfg);
    GoodIsKept(rs, s.cfg);
    FrameKeeps(GoodIn(rs, s.cfg), Anything(), s, dt, choice);
    DoneWhenIdle(Frame(s, dt, choice), rs);
  }

  lemma DoneWhenIdle(s: State, rs: Routes)
    requires Good(s, rs) && s.running && !FinishIfDone(s).running && s.now < MAX_RUNTIME
    ensures var t := FinishIfDone(s);
      && NetworkIdle(t) && t.stats.sent == t.stats.dropped + Arrivals(t)
      && (if t.cfg.mode == TCP then |t.delivered| == t.cfg.goal else |t.attempted| == t.cfg.goal)
  {
    FinishGood(s, rs);
    GoodCounts(FinishIfDone(s), rs);
    assert forall i :: 0 <= i < |s.routers| ==> QueueLength(s.routers[i]) == 0;
    SumZero(s.routers, QueueLength);
  }

  lemma GoodCounts(s: State, rs: Routes)
    requires Good(s, rs)
    ensures s.stats.sent == Sum(s.routers, QueueLength) + |s.flights| + s.stats.dropped + Arrivals(s)
  {
    QueuedOnes(s.routers);
    SumOfOnes(s.flights, FlightWeight(One()));
    SumOfOnes(s.log, LogWeight(One()));
    DropsAreLogged(s);
    LogSplits(s.log);
  }

  /** Drops are counted where they are logged and nowhere else. */
  lemma DropsAreLogged(s: State)
    ensures Total(s, Drops()) == Sum(s.log, LogWeight(Drops()))
  {
    forall i | 0 <= i < |s.routers| ensures RouterWeight(Drops())(s.routers[i]) == 0 {
      SumZero(s.routers[i].queue, QueueWeight(s.routers[i].id, Drops()));
    }
    SumZero(s.routers, RouterWeight(Drops()));
    SumZero(s.flights, FlightWeight(Drops()));
  }

  lemma {:induction false} LogSplits(log: seq<PacketEvent>)
    ensures Sum(log, LogWeight(Drops())) + Sum(log, Arrival()) == |log|
  {
    if log != [] {
      LogSplits(log[..|log| - 1]);
    }
  }

  // ---------------------------------------------------------------- conservation and statistics

  function QueueLength(r: Router): nat {
    |r.queue|
  }

  lemma {:induction false} SumOfOnes<T(!new)>(s: seq<T>, f: T -> nat)
    requires forall x :: f(x) == 1
    ensures Sum(s, f) == |s|
  {
    if s != [] {
      SumOfOnes(s[..|s| - 1], f);
    }
  }

  lemma {:induction false} QueuedOnes(routers: seq<Router>)
    ensures Sum(routers, RouterWeight(One())) == Sum(routers, QueueLength)
  {
    if routers != [] {
      QueuedOnes(routers[..|routers| - 1]);
      var r := routers[|routers| - 1];
      SumOfOnes(r.queue, QueueWeight(r.id, One()));
    }
  }

  ghost function Arrival(): PacketEvent -> nat {
    (e: PacketEvent) => if e.Delivered? then 1 else 0
  }

  /** Number of arrivals at a destination so far. */
  ghost function Arrivals(s: State): nat {
    Sum(s.log, Arrival())
  }

  /**
   * Every packet id ever handed out is in exactly one place, once; and packets sent are exactly those
   * queued, in flight, dropped or arrived.
   */
  lemma PacketsAreConserved(c: Config, steps: seq<Step>)
    requires Legal(c, steps)
    ensures var s := Session(c, steps);
      && (forall x {:trigger IdIs(x)} :: Total(s, IdIs(x)) == if 1 <= x < s.nextPacketId then 1 else 0)
      && s.stats.sent == s.nextPacketId - 1
      && s.stats.sent == Sum(s.routers, QueueLength) + |s.flights| + s.stats.dropped + Arrivals(s)
      && s.stats.dropped == Total(s, Drops())
  {
    var s := Session(c, steps);
    SessionGood(c, steps);
    GoodCounts(s, RoutesOf(s.cfg));
  }

  /** Packets sent split into first transmissions, repeats, acknowledgements and link duplicates. */
  lemma StatisticsAddUp(c: Config, steps: seq<Step>)
    requires Legal(c, steps)
    ensures var s := Session(c, steps);
      && s.stats.sent == |s.attempted| + s.stats.retransmissions + s.stats.acknowledgements + s.stats.duplicates
      && s.stats.delivered == |s.delivered| == |s.stats.completedSequences|
      && s.stats.acknowledgements == (if s.cfg.mode == TCP then Total(s, DataArrivals()) else 0)
      && (s.cfg.mode == UDP ==> s.stats.retransmissions == 0)
  {
    SessionGood(c, steps);
  }

  // ---------------------------------------------------------------- load on the network

  lemma {:induction false} QueueAtMost(c: Config, rs: Routes, a: set<int>, d: set<int>, node: int, q: seq<Packet>)
    requires forall p :: p in q ==> QueuedOk(c, rs, a, d, node, p)
    ensures Sum(q, QueueWeight(node, One())) <= Sum(q, QueueWeight(node, Worth(c, rs, true, PACKETS)))
  {
    forall i | 0 <= i < |q|
      ensures QueueWeight(node, One())(q[i]) <= QueueWeight(node, Worth(c, rs, true, PACKETS))(q[i]) {
      assert q[i] in q;
    }
    SumAtMost(q, QueueWeight(node, One()), QueueWeight(node, Worth(c, rs, true, PACKETS)));
  }

  /** Every packet is worth at least one. */
  lemma CountAtMostWorth(s: State, rs: Routes)
    requires GoodNetwork(s, rs)
    ensures Total(s, One()) <= Total(s, Worth(s.cfg, rs, true, PACKETS))
  {
    var w := Worth(s.cfg, rs, true, PACKETS);
    forall i | 0 <= i < |s.routers| ensures RouterWeight(One())(s.routers[i]) <= RouterWeight(w)(s.routers[i]) {
      var r := s.routers[i];
      assert RouterOk(s.cfg, rs, s.attempted, s.delivered, r);
      QueueAtMost(s.cfg, rs, s.attempted, s.delivered, r.id, r.queue);
    }
    SumAtMost(s.routers, RouterWeight(One()), RouterWeight(w));
    forall k | 0 <= k < |s.flights| ensures FlightWeight(One())(s.flights[k]) <= FlightWeight(w)(s.flights[k]) {
      assert FlightOk(s.cfg, rs, s.attempted, s.delivered, s.flights[k]);
    }
    SumAtMost(s.flights, FlightWeight(One()), FlightWeight(w));
    SumAtMost(s.log, LogWeight(One()), LogWeight(w));
  }

  /** Packets that one data transmission can cause at most, over h links there and back links back. */
  ghost function PerTransmission(mode: Mode, h: nat, back: nat): nat {
    if mode == TCP then (1 + Pow2(back)) * Pow2(h) else Pow2(h)
  }

  lemma BudgetClosed(c: Config, rs: Routes)
    ensures Budget(c, rs, true, PACKETS) == PerTransmission(c.mode, Links(rs.data), Links(rs.ack))
  {
    WorthClosed(1, Links(rs.ack));
    WorthClosed(Base(c, rs, true, PACKETS, Data), Links(rs.data));
  }

  /** Duplication is bounded: at most 2^h (1 + 2^h') packets per data transmission in TCP, 2^h in UDP. */
  lemma DuplicationIsBounded(c: Config, steps: seq<Step>)
    requires Legal(c, steps)
    ensures Configured(Session(c, steps).cfg)
    ensures var s := Session(c, steps);
      var rs := RoutesOf(s.cfg);
      s.stats.sent <= Transmissions(s) * PerTransmission(s.cfg.mode, Links(rs.data), Links(rs.ack))
  {
    SessionGood(c, steps);
    GoodIsBounded(Session(c, steps), RoutesOf(Session(c, steps).cfg));
  }

  lemma GoodIsBounded(s: State, rs: Routes)
    requires GoodNetwork(s, rs) && Census(s) && Statistics(s) && PaidFor(s, rs, true, PACKETS) && 0 <= Transmissions(s)
    ensures s.stats.sent <= Transmissions(s) * PerTransmission(s.cfg.mode, Links(rs.data), Links(rs.ack))
  {
    CountAtMostWorth(s, rs);
    BudgetClosed(s.cfg, rs);
    TimesIsProduct(Transmissions(s), Budget(s.cfg, rs, true, PACKETS));
  }

  /** Dispatches and landings are bounded by the transmissions alone: once sending stops, so does the network. */
  lemma NetworkDrains(c: Config, steps: seq<Step>)
    requires Legal(c, steps)
    ensures Configured(Session(c, steps).cfg)
    ensures var s := Session(c, steps);
      s.moves <= Transmissions(s) * Budget(s.cfg, RoutesOf(s.cfg), true, MOVES)
  {
    SessionGood(c, steps);
    PaidMoves(Session(c, steps), RoutesOf(Session(c, steps).cfg));
  }

  lemma PaidMoves(s: State, rs: Routes)
    requires PaidFor(s, rs, true, MOVES) && 0 <= Transmissions(s)
    ensures s.moves <= Transmissions(s) * Budget(s.cfg, rs, true, MOVES)
  {
    TimesIsProduct(Transmissions(s), Budget(s.cfg, rs, true, MOVES));
  }

  // ---------------------------------------------------------------- paths

  /**
   * Every packet, copies, lost and filtered ones included, has come along the forwarding path of its
   * kind; none waits at its own destination; a delivered one has taken a least-delay path; and nothing
   * ever raises.
   */
  lemma HistoriesFollowTheTables(c: Config, steps: seq<Step>)
    requires Legal(c, steps)
    ensures Configured(Session(c, steps).cfg)
    ensures var s := Session(c, steps);
      var g, t := s.cfg.graph, s.cfg.tables;
      && !s.failed
      && (forall p :: InNetwork(s, p) || OnRecord(s, p) ==>
            p.source in g && p.destination in g && p.history <= Path(g, t, p.source, p.destination))
      && (forall i, p :: 0 <= i < |s.routers| && p in s.routers[i].queue ==> p.destination != s.routers[i].id)
      && (forall k :: 0 <= k < |s.log| && s.log[k].Delivered? ==>
            var p := s.log[k].packet;
            p.source in g && p.destination in g && Shortest(g, p.history, p.source, p.destination)
            && Cost(g, p.history) == Distance(g, s.cfg.source, s.cfg.destination))
  {
    var s := Session(c, steps);
    SessionGood(c, steps);
    var rs := RoutesOf(s.cfg);
    forall p | InNetwork(s, p) || OnRecord(s, p)
      ensures p.source in s.cfg.graph && p.destination in s.cfg.graph
              && p.history <= Path(s.cfg.graph, s.cfg.tables, p.source, p.destination) {
      PacketOnItsPath(s, rs, p);
    }
    forall i, p | 0 <= i < |s.routers| && p in s.routers[i].queue ensures p.destination != s.routers[i].id {
      QueuedNotHome(s, rs, i, p);
    }
    forall k | 0 <= k < |s.log| && s.log[k].Delivered?
      ensures var p := s.log[k].packet;
        p.source in s.cfg.graph && p.destination in s.cfg.graph
        && Shortest(s.cfg.graph, p.history, p.source, p.destination)
        && Cost(s.cfg.graph, p.history) == Distance(s.cfg.graph, s.cfg.source, s.cfg.destination) {
      DeliveredShortest(s, k);
    }
  }

  /** The packet has left the network, delivered or dropped. */
  ghost predicate OnRecord(s: State, p: Packet) {
    exists k :: 0 <= k < |s.log| && s.log[k].packet == p
  }

  lemma PacketOnItsPath(s: State, rs: Routes, p: Packet)
    requires GoodNetwork(s, rs) && (InNetwork(s, p) || OnRecord(s, p))
    ensures PacketOk(s.cfg, rs, s.attempted, s.delivered, p)
  {
    if InNetwork(s, p) {
      InNetworkOk(s, rs, p);
    } else {
      var k :| 0 <= k < |s.log| && s.log[k].packet == p;
      assert EventOk(s.cfg, rs, s.attempted, s.delivered, s.log[k]);
    }
  }

  lemma QueuedNotHome(s: State, rs: Routes, i: nat, p: Packet)
    requires GoodNetwork(s, rs) && i < |s.routers| && p in s.routers[i].queue
    ensures p.destination != s.routers[i].id
  {
    assert RouterOk(s.cfg, rs, s.attempted, s.delivered, s.routers[i]);
    QueuedNext(rs, s.cfg, s.attempted, s.delivered, s.routers[i], p);
  }

  lemma DeliveredShortest(s: State, k: nat)
    requires Configured(s.cfg) && GoodNetwork(s, RoutesOf(s.cfg)) && k < |s.log| && s.log[k].Delivered?
    ensures var g, p := s.cfg.graph, s.log[k].packet;
      p.source in g && p.destination in g && Shortest(g, p.history, p.source, p.destination)
      && Cost(g, p.history) == Distance(g, s.cfg.source, s.cfg.destination)
  {
    var c, p := s.cfg, s.log[k].packet;
    assert EventOk(c, RoutesOf(c), s.attempted, s.delivered, s.log[k]);
    PathIsShortest(c.graph, c.tables, p.source, p.destination);
    DistanceSymmetric(c.graph, c.source, c.destination);
  }

  // ---------------------------------------------------------------- firewall

  /**
   * With the rule inactive nothing is filtered. With it active no data ever leaves the firewall's router. If
   * that router is on the data's way, before its end, nothing is delivered; if it is not, the rule never drops
   * anything. It never drops an acknowledgement.
   */
  lemma FirewallDecides(c: Config, steps: seq<Step>)
    requires Legal(c, steps)
    ensures Configured(Session(c, steps).cfg)
    ensures var s := Session(c, steps);
      !s.cfg.useSdn || s.cfg.firewall == None || s.cfg.port != 80 ==>
        forall k :: 0 <= k < |s.log| ==> !s.log[k].Filtered?
    ensures var s := Session(c, steps);
      s.cfg.useSdn && s.cfg.firewall.Some? && s.cfg.port == 80 ==>
      var f, way := s.cfg.firewall.value, RoutesOf(s.cfg).data;
      && (forall k :: 0 <= k < |s.flights| && s.flights[k].packet.kind == Data ==> s.flights[k].start != f)
      && (f in way[..|way| - 1] ==> s.delivered == {})
      && (f !in way[..|way| - 1] ==> forall k :: 0 <= k < |s.log| ==> !s.log[k].Filtered?)
      && (forall k :: 0 <= k < |s.log| && s.log[k].Filtered? ==> s.log[k].packet.kind == Data)
  {
    var s := Session(c, steps);
    SessionGood(c, steps);
    if Blocks(s.cfg) {
      FirewallHolds(s, RoutesOf(s.cfg));
      if s.cfg.firewall.value in RoutesOf(s.cfg).data[..|RoutesOf(s.cfg).data| - 1] {
        NothingArrives(s);
      }
    } else {
      NothingIsFiltered(s, RoutesOf(s.cfg));
    }
  }

  lemma NothingIsFiltered(s: State, rs: Routes)
    requires GoodNetwork(s, rs) && !Blocks(s.cfg)
    ensures forall k :: 0 <= k < |s.log| ==> !s.log[k].Filtered?
  {
    forall k | 0 <= k < |s.log| ensures !s.log[k].Filtered? {
      assert EventOk(s.cfg, rs, s.attempted, s.delivered, s.log[k]);
    }
  }

  ghost predicate DataArrived(e: PacketEvent) {
    e.Delivered? && e.packet.kind == Data
  }

  lemma FirewallHolds(s: State, rs: Routes)
    requires GoodNetwork(s, rs) && Blocks(s.cfg)
    ensures var f, way := s.cfg.firewall.value, rs.data;
      && |way| > 0
      && (forall k :: 0 <= k < |s.flights| && s.flights[k].packet.kind == Data ==> s.flights[k].start != f)
      && (f in way[..|way| - 1] ==> forall k :: 0 <= k < |s.log| ==> !DataArrived(s.log[k]))
      && (f !in way[..|way| - 1] ==> forall k :: 0 <= k < |s.log| ==> !s.log[k].Filtered?)
      && (forall k :: 0 <= k < |s.log| && s.log[k].Filtered? ==> s.log[k].packet.kind == Data)
  {
    var f, way := s.cfg.firewall.value, rs.data;
    forall k | 0 <= k < |s.flights| && s.flights[k].packet.kind == Data ensures s.flights[k].start != f {
      assert FlightOk(s.cfg, rs, s.attempted, s.delivered, s.flights[k]);
    }
    forall k | 0 <= k < |s.log| ensures DataArrived(s.log[k]) ==> f !in way[..|way| - 1] {
      assert EventOk(s.cfg, rs, s.attempted, s.delivered, s.log[k]);
    }
    forall k | 0 <= k < |s.log| && s.log[k].Filtered?
      ensures s.log[k].packet.kind == Data && f in way[..|way| - 1] {
      assert EventOk(s.cfg, rs, s.attempted, s.delivered, s.log[k]);
      var h := s.log[k].packet.history;
      assert way[..|way| - 1][|h| - 1] == f;
    }
  }

  lemma NothingArrives(s: State)
    requires InOrder(s) && Witnessed(s) && forall k :: 0 <= k < |s.log| ==> !DataArrived(s.log[k])
    ensures s.delivered == {}
  {
    forall q ensures q !in s.delivered {
      NoWitness(s.log, q);
    }
    if s.cfg.mode == TCP {
      RangeGrows(|s.delivered|, |s.attempted|);
    }
    NothingBelow(s.delivered, |s.attempted|);
  }

  lemma NoWitness(log: seq<PacketEvent>, q: int)
    requires forall k :: 0 <= k < |log| ==> !DataArrived(log[k])
    ensures !Witness(log, q)
  {
  }

  // ---------------------------------------------------------------- the event loop

  /** The events a pass of the event loop runs, in order. */
  ghost function FiredEvents(s: State): seq<Event>
    decreases DueCount(s.events, s.now)
  {
    if s.events == [] || s.events[0].due > s.now then []
    else
      FireUsesUpDue(s);
      [s.events[0]] + FiredEvents(Fire(s))
  }

  /** The events due now. */
  ghost function DuePart(events: seq<Event>, now: int): seq<Event> {
    if events == [] || events[0].due > now then [] else [events[0]] + DuePart(events[1..], now)
  }

  lemma {:induction false} LaterInsertKeepsDuePart(events: seq<Event>, e: Event, now: int)
    requires now < e.due
    ensures DuePart(Insert(events, e), now) == DuePart(events, now)
  {
    if events != [] && !Before(e, events[0]) {
      LaterInsertKeepsDuePart(events[1..], e, now);
      assert Insert(events, e)[1..] == Insert(events[1..], e);
    }
  }

  lemma FireKeepsDuePart(s: State)
    requires s.events != [] && s.events[0].due <= s.now
    ensures DuePart(Fire(s).events, s.now) == DuePart(s.events[1..], s.now) && Fire(s).now == s.now
  {
    var rest, r := s.events[1..], Fire(s);
    if r.events != rest {
      LaterInsertKeepsDuePart(rest, Event(s.now + RETRANSMISSION_TIMEOUT, s.nextEventId,
                                          Timeout(s.events[0].callback.sequence, r.token)), s.now);
    }
  }

  lemma {:induction false} FiredAreTheDue(s: State)
    ensures FiredEvents(s) == DuePart(s.events, s.now)
    ensures RunDueEvents(s).events == [] || s.now < RunDueEvents(s).events[0].due
    decreases DueCount(s.events, s.now)
  {
    if s.events != [] && s.events[0].due <= s.now {
      FireUsesUpDue(s);
      FireKeepsDuePart(s);
      FiredAreTheDue(Fire(s));
    }
  }

  lemma {:induction false} DuePartIsPrefix(events: seq<Event>, now: int)
    requires Sorted(events)
    ensures DuePart(events, now) <= events
    ensures forall e :: e in DuePart(events, now) <==> e in events && e.due <= now
  {
    if events != [] {
      DuePartIsPrefix(events[1..], now);
      assert forall e :: e in events <==> e == events[0] || e in events[1..];
      if events[0].due > now {
        forall e | e in events ensures e.due > now {
          if e != events[0] {
            var i :| 0 <= i < |events| && events[i] == e;
            assert Before(events[0], events[i]);
          }
        }
      }
    }
  }

  /**
   * The event loop runs exactly the events that were due when it was entered, in (due, id) order, and
   * leaves only later ones, although callbacks schedule new events while it runs.
   */
  lemma EventLoopExact(c: Config, steps: seq<Step>, dt: nat)
    requires Legal(c, steps) && Session(c, steps).running
    ensures ExactPass(Later(Session(c, steps), dt))
  {
    SessionGood(c, steps);
    ClockGood(Session(c, steps), RoutesOf(Session(c, steps).cfg), dt);
    GoodPass(Later(Session(c, steps), dt), RoutesOf(Session(c, steps).cfg));
  }

  /** Due earlier, or at the same time and scheduled earlier. */
  predicate Sooner(e: Event, f: Event) {
    e.due < f.due || (e.due == f.due && e.id < f.id)
  }

  ghost predicate ExactPass(s: State) {
    && FiredEvents(s) <= s.events
    && (forall i, j :: 0 <= i < j < |FiredEvents(s)| ==> Sooner(FiredEvents(s)[i], FiredEvents(s)[j]))
    && (forall e :: e in FiredEvents(s) <==> e in s.events && e.due <= s.now)
    && (forall e :: e in RunDueEvents(s).events ==> s.now < e.due)
  }

  lemma GoodPass(s: State, rs: Routes)
    requires Good(s, rs) && s.running
    ensures ExactPass(s)
  {
    GoodIsKept(rs, s.cfg);
    RunDueKeeps(GoodIn(rs, s.cfg), s);
    GoodIsSorted(s, rs, s.cfg);
    GoodIsSorted(RunDueEvents(s), rs, s.cfg);
    SortedPass(s);
  }

  lemma GoodIsSorted(s: State, rs: Routes, c: Config)
    requires GoodIn(rs, c)(s) && s.running
    ensures Sorted(s.events)
  {
  }

  lemma SortedPass(s: State)
    requires Sorted(s.events) && Sorted(RunDueEvents(s).events)
    ensures ExactPass(s)
  {
    FiredAreTheDue(s);
    DuePartIsPrefix(s.events, s.now);
    RestIsLater(s, RunDueEvents(s));
  }

  lemma RestIsLater(s: State, s': State)
    requires Sorted(s'.events) && (s'.events == [] || s.now < s'.events[0].due)
    ensures forall e :: e in s'.events ==> s.now < e.due
  {
    forall e | e in s'.events ensures s.now < e.due {
      var i :| 0 <= i < |s'.events| && s'.events[i] == e;
      if i > 0 {
        assert Before(s'.events[0], s'.events[i]);
      }
    }
  }
}
