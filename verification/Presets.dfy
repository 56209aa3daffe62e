/** Two of the presets of graph.py: the ways that packets take there, and what TCP makes of them. */
module Presets {
  import opened Wrappers
  import opened Graphs
  import opened Topologies
  import opened Forwarding
  import opened Certificates
  import opened Simulation
  import opened Network
  import opened Sessions
  import opened FaithfulLinks
  import opened Traces
  import opened Couriers
  import opened Timetable
  import opened RoundTrips
  import opened Delivery

  const NODES := [0, 1, 2, 3, 4, 5]

  const CAMPUS_BACKBONE := [
    Link(0, 1, 260), Link(0, 2, 180), Link(1, 2, 200), Link(1, 3, 220), Link(2, 3, 170),
    Link(2, 4, 230), Link(3, 4, 180), Link(3, 5, 260), Link(4, 5, 190)]

  const REDUNDANT_RING := [
    Link(0, 1, 170), Link(1, 2, 190), Link(2, 3, 170), Link(3, 4, 190), Link(4, 5, 170),
    Link(5, 0, 190), Link(0, 2, 240), Link(2, 4, 240), Link(4, 0, 240)]

  /** A preset with links between its nodes is fit for the simulator, between any two of them. */
  lemma PresetIsFit(links: seq<Link>)
    requires forall i :: 0 <= i < |links| ==> 0 < links[i].delay && links[i].a in NODES && links[i].b in NODES
    ensures var g := Topology(NODES, links);
      Symmetric(g) && Closed(g) && Positive(g) && NonNegative(g) && g.Keys == Elements(NODES)
  {
    TopologyFit(NODES, links);
    TopologyNodes(NODES, links);
  }

  /** A TCP run of six sequences on a preset. */
  ghost predicate RunOn(c: Config, links: seq<Link>, source: int, destination: int) {
    && c.graph == Topology(NODES, links) && c.source == source && c.destination == destination
    && c.mode == TCP && c.goal == 6
  }

  lemma NodesAscend()
    ensures forall i, j :: 0 <= i < j < |NODES| ==> NODES[i] < NODES[j]
  {
  }

  /** Tables for a preset in which everybody reaches the hub. */
  lemma PresetIsRoutable(links: seq<Link>, hub: int) returns (t: Tables)
    requires forall i :: 0 <= i < |links| ==> 0 < links[i].delay && links[i].a in NODES && links[i].b in NODES
    requires forall v :: v in Elements(NODES) ==> Reachable(Topology(NODES, links), v, hub)
    ensures Routable(Topology(NODES, links), t)
  {
    PresetIsFit(links);
    ConnectedThrough(Topology(NODES, links), hub);
    t := SomeTables(Topology(NODES, links));
  }

  /** There are such runs. */
  lemma PresetIsConfigured(links: seq<Link>, t: Tables, source: int, destination: int) returns (c: Config)
    requires Routable(Topology(NODES, links), t) && Topology(NODES, links).Keys == Elements(NODES)
    requires source in Elements(NODES) && destination in Elements(NODES) && source != destination
    ensures Configured(c) && RunOn(c, links, source, destination)
  {
    NodesAscend();
    c := Config(Topology(NODES, links), t, NODES, TCP, 6, 443, false, None, source, destination);
  }

  // ---------------------------------------------------------------- Campus Backbone, 0 to 5

  /** Least delays to node 5, and to node 0. */
  function CampusTo5(v: int): int {
    if v == 0 then 600 else if v == 1 then 480 else if v == 2 then 420 else if v == 3 then 260
    else if v == 4 then 190 else 0
  }

  function CampusTo0(v: int): int {
    if v == 5 then 600 else if v == 1 then 260 else if v == 2 then 180 else if v == 3 then 350
    else if v == 4 then 410 else 0
  }

  lemma CampusIsDistinct()
    ensures Distinct(CAMPUS_BACKBONE)
  {
  }

  lemma CampusLevels()
    ensures LevelsFit(CAMPUS_BACKBONE, CampusTo5) && LevelsFit(CAMPUS_BACKBONE, CampusTo0)
  {
  }

  lemma CampusDown5()
    ensures DownAlong(CAMPUS_BACKBONE, CampusTo5, [0, 2, 4, 5], [1, 5, 8])
  {
    assert OnlyDown(CAMPUS_BACKBONE, CampusTo5, 1, 0, 2);
    assert OnlyDown(CAMPUS_BACKBONE, CampusTo5, 5, 2, 4);
    assert OnlyDown(CAMPUS_BACKBONE, CampusTo5, 8, 4, 5);
  }

  lemma CampusDown0()
    ensures DownAlong(CAMPUS_BACKBONE, CampusTo0, [5, 4, 2, 0], [8, 5, 1])
  {
    assert OnlyDown(CAMPUS_BACKBONE, CampusTo0, 8, 5, 4);
    assert OnlyDown(CAMPUS_BACKBONE, CampusTo0, 5, 4, 2);
    assert OnlyDown(CAMPUS_BACKBONE, CampusTo0, 1, 2, 0);
  }

  /** On the campus all data goes over 2 and 4, and so do the acknowledgements. */
  lemma CampusRoutes(c: Config)
    requires Configured(c) && RunOn(c, CAMPUS_BACKBONE, 0, 5)
    ensures RoutesOf(c) == Routes([0, 2, 4, 5], [5, 4, 2, 0])
  {
    CampusIsDistinct();
    CampusLevels();
    CampusDown5();
    CampusDown0();
    DownIsPath(NODES, CAMPUS_BACKBONE, c.tables, CampusTo5, [0, 2, 4, 5], [1, 5, 8]);
    DownIsPath(NODES, CAMPUS_BACKBONE, c.tables, CampusTo0, [5, 4, 2, 0], [8, 5, 1]);
  }

  lemma CampusIsConnected()
    ensures forall v :: v in Elements(NODES) ==> Reachable(Topology(NODES, CAMPUS_BACKBONE), v, 5)
  {
    CampusIsDistinct();
    assert Joins(Topology(NODES, CAMPUS_BACKBONE), [5], 5, 5);
    ReachOver(NODES, CAMPUS_BACKBONE, 8, 4, 5, 5);
    ReachOver(NODES, CAMPUS_BACKBONE, 7, 3, 5, 5);
    ReachOver(NODES, CAMPUS_BACKBONE, 5, 2, 4, 5);
    ReachOver(NODES, CAMPUS_BACKBONE, 3, 1, 3, 5);
    ReachOver(NODES, CAMPUS_BACKBONE, 1, 0, 2, 5);
  }

  lemma CampusIsConfigured() returns (c: Config)
    ensures Configured(c) && RunOn(c, CAMPUS_BACKBONE, 0, 5)
  {
    PresetIsFit(CAMPUS_BACKBONE);
    CampusIsConnected();
    var t := PresetIsRoutable(CAMPUS_BACKBONE, 5);
    c := PresetIsConfigured(CAMPUS_BACKBONE, t, 0, 5);
  }

  /**
   * The campus at the normal speed of links, each with up to 80 ms of jitter, and at 60 frames a second: what
   * routers 0, 2, 4 and 5 send on the way; the others never see a packet, and their bound is no restriction.
   */
  function CampusConditions(): Conditions {
    Conditions(v => if v == 0 then 260 else if v == 2 || v == 4 then 310 else if v == 5 then 270 else MAX_RUNTIME,
               false, false, 17)
  }

  lemma OneMoreLeg(pace: Pace, v: int, route: seq<int>)
    requires route != []
    ensures pace.Legs([v] + route) == pace.on.delay(v) + pace.on.frame + pace.Legs(route)
  {
    assert ([v] + route)[1..] == route;
  }

  lemma ThreeLegs(pace: Pace, v: int, w: int, x: int, d: int)
    ensures pace.Legs([v, w, x, d]) == pace.on.delay(v) + pace.on.delay(w) + pace.on.delay(x) + 3 * pace.on.frame
  {
    OneMoreLeg(pace, x, [d]);
    OneMoreLeg(pace, w, [x, d]);
    OneMoreLeg(pace, v, [w, x, d]);
    assert [v, w, x, d] == [v] + [w, x, d] && [w, x, d] == [w] + [x, d] && [x, d] == [x] + [d];
  }

  lemma CampusTimes(c: Config)
    requires Configured(c) && RunOn(c, CAMPUS_BACKBONE, 0, 5)
    ensures var pace := PaceOf(c, CampusConditions());
      pace.RoundTrip() == 1872 && Load(c, pace) == 372 && pace.Turn() == 62
  {
    var pace := PaceOf(c, CampusConditions());
    CampusRoutes(c);
    ThreeLegs(pace, 0, 2, 4, 5);
    ThreeLegs(pace, 5, 4, 2, 0);
    PlainLoad(c, pace);
  }

  /** Neither end nor way of the campus run passes router 3, where the preset has its firewall. */
  lemma CampusIsOpen(c: Config)
    requires Configured(c) && RunOn(c, CAMPUS_BACKBONE, 0, 5) && c.firewall in {None, Some(3)}
    ensures OpenTcp(c, RoutesOf(c))
  {
    CampusRoutes(c);
    assert [0, 2, 4, 5][..3] == [0, 2, 4];
  }

  lemma CampusTime(c: Config)
    requires Configured(c) && RunOn(c, CAMPUS_BACKBONE, 0, 5)
    ensures AllDelivered(c, CampusConditions(), 0) == Some(24221)
  {
    CampusTimes(c);
  }

  /**
   * Without loss and duplication every TCP run that ends on the campus has delivered all its sequences, though
   * the links of a round trip there take 1200 ms at least; the firewall is not in the way.
   */
  lemma CampusDelivers(c: Config, steps: seq<Step>)
    requires Legal(c, steps) && Smooth(steps, CampusConditions())
    requires RunOn(Session(c, steps).cfg, CAMPUS_BACKBONE, 0, 5) && Session(c, steps).cfg.firewall in {None, Some(3)}
    ensures var s := Session(c, steps); !s.running && s.completed ==> |s.delivered| == 6
  {
    TcpDelivers(c, steps, CampusConditions());
    NothingIsLost(c, steps, CampusConditions());
    CampusIsOpen(Session(c, steps).cfg);
    CampusTime(Session(c, steps).cfg);
  }

  // ---------------------------------------------------------------- Redundant Ring, 5 to 2

  /** Least delays to node 2, and to node 5. */
  function RingTo2(v: int): int {
    if v == 5 then 410 else if v == 4 then 240 else if v == 0 then 240 else if v == 1 then 190
    else if v == 3 then 170 else 0
  }

  function RingTo5(v: int): int {
    if v == 2 then 410 else if v == 4 then 170 else if v == 0 then 190 else if v == 1 || v == 3 then 360
    else 0
  }

  lemma RingIsDistinct()
    ensures Distinct(REDUNDANT_RING)
  {
  }

  lemma RingLevels()
    ensures LevelsFit(REDUNDANT_RING, RingTo2) && LevelsFit(REDUNDANT_RING, RingTo5)
  {
  }

  lemma RingDown2()
    ensures DownAlong(REDUNDANT_RING, RingTo2, [5, 4, 2], [4, 7])
  {
    assert OnlyDown(REDUNDANT_RING, RingTo2, 4, 5, 4);
    assert OnlyDown(REDUNDANT_RING, RingTo2, 7, 4, 2);
  }

  lemma RingDown5()
    ensures DownAlong(REDUNDANT_RING, RingTo5, [2, 4, 5], [7, 4])
  {
    assert OnlyDown(REDUNDANT_RING, RingTo5, 7, 2, 4);
    assert OnlyDown(REDUNDANT_RING, RingTo5, 4, 4, 5);
  }

  /** Round the ring all packets go over 4. */
  lemma RingRoutes(c: Config)
    requires Configured(c) && RunOn(c, REDUNDANT_RING, 5, 2)
    ensures RoutesOf(c) == Routes([5, 4, 2], [2, 4, 5])
  {
    RingIsDistinct();
    RingLevels();
    RingDown2();
    RingDown5();
    DownIsPath(NODES, REDUNDANT_RING, c.tables, RingTo2, [5, 4, 2], [4, 7]);
    DownIsPath(NODES, REDUNDANT_RING, c.tables, RingTo5, [2, 4, 5], [7, 4]);
  }

  lemma RingIsConnected()
    ensures forall v :: v in Elements(NODES) ==> Reachable(Topology(NODES, REDUNDANT_RING), v, 2)
  {
    RingIsDistinct();
    assert Joins(Topology(NODES, REDUNDANT_RING), [2], 2, 2);
    ReachOver(NODES, REDUNDANT_RING, 1, 1, 2, 2);
    ReachOver(NODES, REDUNDANT_RING, 2, 3, 2, 2);
    ReachOver(NODES, REDUNDANT_RING, 6, 0, 2, 2);
    ReachOver(NODES, REDUNDANT_RING, 7, 4, 2, 2);
    ReachOver(NODES, REDUNDANT_RING, 4, 5, 4, 2);
  }

  lemma RingIsConfigured() returns (c: Config)
    ensures Configured(c) && RunOn(c, REDUNDANT_RING, 5, 2)
  {
    PresetIsFit(REDUNDANT_RING);
    RingIsConnected();
    var t := PresetIsRoutable(REDUNDANT_RING, 2);
    c := PresetIsConfigured(REDUNDANT_RING, t, 5, 2);
  }

  /** The ring with links at their fastest, 0.4 of the normal delay and jitter, and at 60 frames a second. */
  function RingConditions(): Conditions {
    Conditions(v => if v == 5 then 100 else if v == 2 || v == 4 then 128 else MAX_RUNTIME, false, false, 17)
  }

  lemma TwoLegs(pace: Pace, v: int, w: int, d: int)
    ensures pace.Legs([v, w, d]) == pace.on.delay(v) + pace.on.delay(w) + 2 * pace.on.frame
  {
    OneMoreLeg(pace, w, [d]);
    OneMoreLeg(pace, v, [w, d]);
    assert [v, w, d] == [v] + [w, d] && [w, d] == [w] + [d];
  }

  lemma RingTimes(c: Config)
    requires Configured(c) && RunOn(c, REDUNDANT_RING, 5, 2)
    ensures Swift(c, PaceOf(c, RingConditions())) && AllDelivered(c, RingConditions(), 0) == Some(6073)
  {
    var pace := PaceOf(c, RingConditions());
    RingRoutes(c);
    TwoLegs(pace, 5, 4, 2);
    TwoLegs(pace, 2, 4, 5);
    PlainLoad(c, pace);
    assert pace.RoundTrip() == 552 && Load(c, pace) == 248;
  }

  /**
   * Without loss and duplication no TCP run on such a ring sends anything twice, and all is delivered within
   * 6073 ms, unless the firewall at router 4 blocks it.
   */
  lemma RingNeverRepeats(c: Config, steps: seq<Step>)
    requires Legal(c, steps) && Smooth(steps, RingConditions())
    requires RunOn(Session(c, steps).cfg, REDUNDANT_RING, 5, 2) && !Blocks(Session(c, steps).cfg)
    ensures var s := Session(c, steps);
      && s.stats.retransmissions == 0
      && ((s.running && s.now >= 6073) || (!s.running && s.completed) ==> |s.delivered| == 6)
  {
    SessionGood(c, steps);
    ConfiguredIsPlanned(Session(c, steps).cfg);
    RingTimes(Session(c, steps).cfg);
    TcpNeverRepeats(c, steps, RingConditions());
    TcpDelivers(c, steps, RingConditions());
    NothingIsLost(c, steps, RingConditions());
  }

  /** The same ring where links may lose packets. */
  function LossyRing(): Conditions {
    RingConditions().(losses := true)
  }

  lemma LossyRingTimes(c: Config, losses: nat)
    requires Configured(c) && RunOn(c, REDUNDANT_RING, 5, 2) && losses <= 8
    ensures AllDelivered(c, LossyRing(), losses).Some? && AllDelivered(c, LossyRing(), losses).value <= MAX_RUNTIME
  {
    var pace := PaceOf(c, LossyRing());
    RingRoutes(c);
    TwoLegs(pace, 5, 4, 2);
    TwoLegs(pace, 2, 4, 5);
    PlainLoad(c, pace);
    assert Period(pace) == 764 && Load(c, pace) == 248 && LossCost(pace) == 1519;
    assert losses * 1519 <= 12152;
  }

  /** Up to eight packets may be lost on the ring, and still every TCP run that ends has delivered everything. */
  lemma RingSurvivesLosses(c: Config, steps: seq<Step>)
    requires Legal(c, steps) && Smooth(steps, LossyRing()) && Losses(Session(c, steps)) <= 8
    requires RunOn(Session(c, steps).cfg, REDUNDANT_RING, 5, 2) && !Blocks(Session(c, steps).cfg)
    ensures var s := Session(c, steps); !s.running && s.completed ==> |s.delivered| == 6
  {
    SessionGood(c, steps);
    ConfiguredIsPlanned(Session(c, steps).cfg);
    LossyRingTimes(Session(c, steps).cfg, Losses(Session(c, steps)));
    TcpDelivers(c, steps, LossyRing());
  }
}
