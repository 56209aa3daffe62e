/** Whole sessions of runs, resets and setting changes, and what is promised about every one of them. */
module Sessions {
  import opened Wrappers
  import opened Graphs
  import opened Forwarding
  import opened Packets
  import opened Simulation
  import opened Sums
  import opened Totals
  import opened Network
  import opened Ledger
  import opened Drain
  import opened Protocol
  import opened Invariants

  /** The topology is connected with positive delays and tables built for it; the ends are distinct nodes. */
  ghost predicate Configured(c: Config) {
    && Routable(c.graph, c.tables)
    && Elements(c.ids) == c.graph.Keys
    && (forall i, j :: 0 <= i < j < |c.ids| ==> c.ids[i] < c.ids[j])
    && c.source in c.graph && c.destination in c.graph && c.source != c.destination
    && 1 <= c.goal
  }

  /** The routes that following the tables gives. */
  ghost function RoutesOf(c: Config): Routes
    requires Configured(c)
  {
    Routes(Path(c.graph, c.tables, c.source, c.destination), Path(c.graph, c.tables, c.destination, c.source))
  }

  lemma RouteIsGood(c: Config, a: int, d: int)
    requires Configured(c) && a in c.graph && d in c.graph && a != d
    ensures GoodRoute(c, Path(c.graph, c.tables, a, d), a, d)
  {
    var r := Path(c.graph, c.tables, a, d);
    PathHop(c.graph, c.tables, a, d, |r| - 1);
    forall i, j | 0 <= i && j == i + 1 && j < |r| ensures HandsOver(c, d, r[i], r[j]) {
      PathHop(c.graph, c.tables, a, d, i);
      PathHop(c.graph, c.tables, a, d, j);
      assert r[i] in Elements(c.ids) && r[j] in Elements(c.ids);
    }
  }

  lemma ConfiguredIsPlanned(c: Config)
    requires Configured(c)
    ensures Planned(c, RoutesOf(c))
  {
    RouteIsGood(c, c.source, c.destination);
    RouteIsGood(c, c.destination, c.source);
  }

  /** The smallest topology a session can use: two routers and one link between them. */
  function Pair(mode: Mode): Config {
    Config(map[0 := map[1 := 20], 1 := map[0 := 20]], map[0 := map[1 := 1], 1 := map[0 := 0]], [0, 1],
           mode, 6, 443, false, None, 0, 1)
  }

  lemma PairHop(g: Graph, a: int, d: int)
    requires g == Pair(TCP).graph && a in g && d in g && a != d
    ensures Reachable(g, a, d) && Reachable(g, a, a) && FirstHop(g, a, d, d)
  {
    assert HasEdge(g, a, d);
    assert Joins(g, [a], a, a) && Joins(g, [a, d], a, d);
    var p := DistanceIsLeast(g, a, d);
    ShortestFirstHop(g, p, a, d);
  }

  lemma PairConnected(g: Graph)
    requires g == Pair(TCP).graph
    ensures Connected(g)
  {
    PairHop(g, 0, 1);
    PairHop(g, 1, 0);
    forall a, d | a in g && d in g ensures Reachable(g, a, d) {
      assert (a == 0 || a == 1) && (d == 0 || d == 1);
    }
  }

  lemma PairTables(g: Graph, t: Tables)
    requires g == Pair(TCP).graph && t == Pair(TCP).tables
    ensures FirstHops(g, t)
  {
    PairHop(g, 0, 1);
    PairHop(g, 1, 0);
    assert RowOfFirstHops(g, 0, t[0]) && RowOfFirstHops(g, 1, t[1]);
  }

  lemma PairLinks(g: Graph)
    requires g == Pair(TCP).graph
    ensures Symmetric(g) && Closed(g) && Positive(g) && NonNegative(g)
  {
  }

  /** The conditions on a configuration can be met. */
  lemma PairIsConfigured(mode: Mode)
    ensures Configured(Pair(mode))
  {
    var c := Pair(mode);
    PairLinks(c.graph);
    PairConnected(c.graph);
    PairTables(c.graph, c.tables);
    assert Elements(c.ids) == {0, 1};
  }

  // ---------------------------------------------------------------- starting afresh

  ghost predicate Fresh(s: State) {
    && s.routers == BuildRouters(s.cfg) && s.flights == [] && s.log == [] && !s.failed && s.moves == 0
    && s.nextPacketId == 1 && s.attempted == {} && s.delivered == {}
    && s.stats.(startTime := None) == NO_STATS
  }

  lemma FreshTotal(s: State, w: Weight)
    requires Fresh(s)
    ensures Total(s, w) == 0
  {
    forall i | 0 <= i < |s.routers| ensures RouterWeight(w)(s.routers[i]) == 0 {
      assert s.routers[i].queue == [];
    }
    SumZero(s.routers, RouterWeight(w));
  }

  lemma FreshBooks(s: State, rs: Routes)
    requires Fresh(s)
    ensures Census(s) && Statistics(s) && PaidFor(s, rs, true, PACKETS) && PaidFor(s, rs, true, MOVES) && Witnessed(s)
  {
    FreshTotal(s, One());
    FreshTotal(s, Drops());
    FreshTotal(s, DataArrivals());
    FreshTotal(s, Worth(s.cfg, rs, true, PACKETS));
    FreshTotal(s, Worth(s.cfg, rs, true, MOVES));
    forall x ensures Total(s, IdIs(x)) == if 1 <= x < s.nextPacketId then 1 else 0 {
      FreshTotal(s, IdIs(x));
    }
  }

  lemma FreshGood(s: State, rs: Routes)
    requires Fresh(s) && Planned(s.cfg, rs) && 1 <= s.cfg.goal && ProtocolOk(s)
    ensures Good(s, rs)
  {
    FreshBooks(s, rs);
  }

  lemma ResetGood(c: Config, rs: Routes)
    requires Planned(c, rs) && 1 <= c.goal
    ensures Good(Reset(c), rs)
  {
    FreshGood(Reset(c), rs);
  }

  lemma {:induction false} InsertLast(events: seq<Event>, e: Event)
    requires forall i :: 0 <= i < |events| ==> Before(events[i], e)
    ensures Insert(events, e) == events + [e]
  {
    if events != [] {
      InsertLast(events[1..], e);
    }
  }

  /** The first n entries of the UDP sender's schedule. */
  ghost predicate UdpSchedule(s: State, n: nat) {
    && s.now == 0 && s.nextEventId == n + 1 && |s.events| == n
    && forall i :: 0 <= i < n ==> s.events[i] == Event(i * SEND_INTERVAL, i + 1, SendData(i))
  }

  lemma {:induction false} ScheduleAllExact(s: State, n: nat)
    requires UdpSchedule(s, n) && n <= s.cfg.goal
    ensures var s' := ScheduleAll(s, n);
      UdpSchedule(s', s.cfg.goal) && s' == s.(events := s'.events, nextEventId := s'.nextEventId)
    decreases s.cfg.goal - n
  {
    if n < s.cfg.goal {
      InsertLast(s.events, Event(n * SEND_INTERVAL, n + 1, SendData(n)));
      ScheduleAllExact(Schedule(s, n * SEND_INTERVAL, SendData(n)), n + 1);
    }
  }

  lemma StartGood(c: Config, rs: Routes)
    requires Planned(c, rs) && 1 <= c.goal
    ensures Good(StartRun(c), rs)
  {
    var s := Reset(c).(running := true, stats := NO_STATS.(startTime := Some(0)));
    if c.mode == UDP {
      ScheduleAllExact(s, 0);
      UdpStarts(StartRun(c));
    } else {
      var e := Event(0, 1, SendData(0));
      assert StartRun(c).events == [e];
      assert OnlyLive(StartRun(c), e);
    }
    FreshGood(StartRun(c), rs);
  }

  lemma UdpStarts(s: State)
    requires 1 <= s.cfg.goal && UdpSchedule(s, s.cfg.goal) && s.cfg.mode == UDP
    requires s.attempted == {} && s.delivered == {} && s.stats.retransmissions == 0
    requires !s.completed && s.awaiting == None && s.udpSentAll
    ensures ProtocolOk(s)
  {
  }

  /** Every configuration a session uses is fit. */
  ghost predicate Legal(c: Config, steps: seq<Step>) {
    Configured(c) && forall i :: 0 <= i < |steps| && steps[i].Configure? ==> Configured(steps[i].cfg)
  }

  /** Every state of every session is good. */
  lemma {:induction false} SessionGood(c: Config, steps: seq<Step>)
    requires Legal(c, steps)
    ensures Configured(Session(c, steps).cfg)
    ensures Good(Session(c, steps), RoutesOf(Session(c, steps).cfg))
  {
    if steps == [] {
      ConfiguredIsPlanned(c);
      ResetGood(c, RoutesOf(c));
    } else {
      var front, step := steps[..|steps| - 1], steps[|steps| - 1];
      SessionGood(c, front);
      ApplyGood(Session(c, front), step);
    }
  }

  lemma ApplyGood(s: State, step: Step)
    requires Configured(s.cfg) && Good(s, RoutesOf(s.cfg))
    requires step.Configure? ==> Configured(step.cfg)
    ensures Configured(Apply(s, step).cfg) && Good(Apply(s, step), RoutesOf(Apply(s, step).cfg))
  {
    match step
    case Start => FreshStart(s.cfg);
    case Tick(dt, choice) => UpdateGood(s, RoutesOf(s.cfg), dt, choice);
    case Configure(c) => FreshReset(c);
  }

  lemma FreshStart(c: Config)
    requires Configured(c)
    ensures StartRun(c).cfg == c && Good(StartRun(c), RoutesOf(c))
  {
    ConfiguredIsPlanned(c);
    StartGood(c, RoutesOf(c));
    StartKeepsConfig(c);
  }

  lemma FreshReset(c: Config)
    requires Configured(c)
    ensures Reset(c).cfg == c && Good(Reset(c), RoutesOf(c))
  {
    ConfiguredIsPlanned(c);
    ResetGood(c, RoutesOf(c));
  }

  lemma StartKeepsConfig(c: Config)
    ensures StartRun(c).cfg == c
  {
    var s := Reset(c).(running := true, stats := NO_STATS.(startTime := Some(0)));
    if c.mode == UDP && c.goal >= 0 {
      ScheduleAllExact(s, 0);
    }
  }
}
