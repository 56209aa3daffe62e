/**
 * What one frame does to routers, links and log, said of the packets themselves: which timers run, which packet each
 * router sends off and over which link, which flights end, and that all this happens in this order.
 */
module Frames {
  import opened Wrappers
  import opened Graphs
  import opened Packets
  import opened Simulation
  import opened Network
  import opened NetworkSteps
  import opened Accounts
  import opened Ledger
  import opened Invariants
  import opened Sessions
  import opened Guarantees
  import opened Progress

  // ---------------------------------------------------------------- one router

  /** The router has a packet and is free. */
  predicate Free(now: int, r: Router) {
    r.queue != [] && r.available <= now
  }

  /** The rule against data to port 80 stands in this router and applies to the head of its queue. */
  predicate Rejects(c: Config, r: Router)
    requires r.queue != []
  {
    c.useSdn && c.firewall == Some(r.id) && c.port == 80 && r.queue[0].kind == Data
  }

  /** The router after its turn: one packet fewer and busy for 45 ms, or as it was. */
  function Turned(now: int, r: Router): Router {
    if Free(now, r) then r.(queue := r.queue[1..], available := now + 45) else r
  }

  /** The duplicate that a link makes of a packet, under an id of its own. */
  predicate Duplicates(p: Packet, d: Packet) {
    d == p.(id := d.id, duplicate := true, duplicatedFrom := Some(p.id))
  }

  /** fs is what the router's turn puts on its link: the head of its queue as it fares, then its duplicate. */
  predicate Sends(c: Config, now: int, r: Router, o: Outcome, fs: seq<Flight>) {
    if !Free(now, r) || Rejects(c, r) then fs == []
    else
      var p := r.queue[0];
      && p.destination in r.table && |fs| == (if o.duplicated then 2 else 1)
      && fs[0] == Flight(p, r.id, r.table[p.destination], o.delay, o.dropped)
      && (o.duplicated ==>
            && fs[1] == Flight(fs[1].packet, r.id, r.table[p.destination], o.copyDelay, o.copyDropped)
            && Duplicates(p, fs[1].packet))
  }

  /** What the router's turn puts on record. */
  function Rejected(c: Config, now: int, r: Router): seq<PacketEvent> {
    if Free(now, r) && Rejects(c, r) then [Filtered(r.queue[0])] else []
  }

  ghost predicate TurnExact(s: State, t: State, i: nat, o: Outcome, fs: seq<Flight>) {
    && i < |s.routers| && t.cfg == s.cfg && t.now == s.now
    && t.routers == s.routers[i := Turned(s.now, s.routers[i])]
    && t.flights == s.flights + fs && Sends(s.cfg, s.now, s.routers[i], o, fs)
    && t.log == s.log + Rejected(s.cfg, s.now, s.routers[i])
  }

  lemma DispatchExact(rs: Routes, s: State, i: nat, o: Outcome) returns (fs: seq<Flight>)
    requires GoodNetwork(s, rs) && i < |s.routers|
    ensures TurnExact(s, Dispatch(s, i, o), i, o, fs)
  {
    var r, t := s.routers[i], Dispatch(s, i, o);
    fs := [];
    if Free(s.now, r) {
      var p := r.queue[0];
      DispatchCases(rs, s, i, o);
      assert RouterOk(s.cfg, rs, s.attempted, s.delivered, r);
      assert QueuedOk(s.cfg, rs, s.attempted, s.delivered, r.id, p);
      if !Filters(s, i) {
        fs := LaunchExact(s, Popped(s, i), p, r.id, r.table[p.destination], o);
      }
    }
  }

  lemma LaunchExact(s: State, s1: State, p: Packet, start: int, end: int, o: Outcome) returns (fs: seq<Flight>)
    requires HasEdge(s1.cfg.graph, start, end) && p.current == start && p.port == s1.cfg.port
    requires s1.flights == s.flights
    ensures Launch(s1, p, start, end, o).flights == s.flights + fs && |fs| == (if o.duplicated then 2 else 1)
    ensures fs[0] == Flight(p, start, end, o.delay, o.dropped)
    ensures o.duplicated ==> fs[1] == Flight(fs[1].packet, start, end, o.copyDelay, o.copyDropped)
                             && Duplicates(p, fs[1].packet)
    ensures Launch(s1, p, start, end, o).routers == s1.routers && Launch(s1, p, start, end, o).log == s1.log
  {
    fs := [Flight(p, start, end, o.delay, o.dropped)];
    if o.duplicated {
      fs := fs + [Flight(Copy(s1, p, start), start, end, o.copyDelay, o.copyDropped)];
    }
  }

  // ---------------------------------------------------------------- all routers

  /** The parts put together, in order. */
  function Joined<T>(parts: seq<seq<T>>): seq<T> {
    if parts == [] then [] else parts[0] + Joined(parts[1..])
  }

  /** The routers from number i on have their turn in this order; parts[j] is what router i + j puts on its link. */
  ghost predicate TurnsExact(s: State, t: State, i: nat, choice: int -> Outcome, parts: seq<seq<Flight>>) {
    && i + |parts| == |s.routers| == |t.routers| && t.cfg == s.cfg && t.now == s.now
    && (forall j :: 0 <= j < |s.routers| ==>
          t.routers[j] == if j < i then s.routers[j] else Turned(s.now, s.routers[j]))
    && t.flights == s.flights + Joined(parts)
    && (forall j :: 0 <= j < |parts| ==>
          Sends(s.cfg, s.now, s.routers[i + j], choice(s.routers[i + j].id), parts[j]))
    && t.log == s.log + AllRejected(s.cfg, s.now, s.routers[i..])
  }

  function AllRejected(c: Config, now: int, routers: seq<Router>): seq<PacketEvent> {
    if routers == [] then [] else Rejected(c, now, routers[0]) + AllRejected(c, now, routers[1..])
  }

  lemma {:induction false} PassExact(rs: Routes, s: State, i: nat, choice: int -> Outcome)
    returns (parts: seq<seq<Flight>>)
    requires GoodNetwork(s, rs) && i <= |s.routers|
    ensures TurnsExact(s, DispatchRouters(s, i, choice), i, choice, parts)
    decreases |s.routers| - i
  {
    parts := [];
    if i < |s.routers| {
      var o := choice(s.routers[i].id);
      var next := Dispatch(s, i, o);
      DispatchKeeps(rs, s, i, o);
      var fs := DispatchExact(rs, s, i, o);
      var rest := PassExact(rs, next, i + 1, choice);
      parts := [fs] + rest;
      OneTurnMore(s, next, DispatchRouters(next, i + 1, choice), i, choice, fs, rest);
    }
  }

  lemma OneTurnMore(s: State, next: State, t: State, i: nat, choice: int -> Outcome, fs: seq<Flight>,
                    rest: seq<seq<Flight>>)
    requires i < |s.routers| && TurnExact(s, next, i, choice(s.routers[i].id), fs)
    requires TurnsExact(next, t, i + 1, choice, rest)
    ensures TurnsExact(s, t, i, choice, [fs] + rest)
  {
    var parts := [fs] + rest;
    assert parts[1..] == rest && Joined(parts) == fs + Joined(rest);
    assert s.routers[i..][1..] == next.routers[i + 1..];
    forall j | 0 <= j < |parts|
      ensures Sends(s.cfg, s.now, s.routers[i + j], choice(s.routers[i + j].id), parts[j]) {
      if j > 0 {
        assert next.routers[i + 1 + (j - 1)] == s.routers[i + j];
        assert parts[j] == rest[j - 1];
      }
    }
  }

  // ---------------------------------------------------------------- all flights

  /** The flights with more than dt to go, dt older and in the same order. */
  function StillFlying(flights: seq<Flight>, dt: int): seq<Flight> {
    if flights == [] then []
    else
      var f := flights[0];
      (if f.remaining > dt then [f.(remaining := f.remaining - dt)] else []) + StillFlying(flights[1..], dt)
  }

  function CountOver(flights: seq<Flight>, dt: int): nat {
    if flights == [] then 0 else CountOver(flights[1..], dt) + if flights[0].remaining > dt then 0 else 1
  }

  /** What the end of a flight puts on record: the packet if it is lost, or if it is where it was to go. */
  function EndOf(f: Flight): seq<PacketEvent> {
    if f.dropped then [Lost(f.packet)]
    else if f.end == f.packet.destination then
      [Delivered(f.packet.(current := f.end, history := f.packet.history + [f.end]))]
    else []
  }

  function EndsOf(flights: seq<Flight>, dt: int): seq<PacketEvent> {
    if flights == [] then []
    else (if flights[0].remaining > dt then [] else EndOf(flights[0])) + EndsOf(flights[1..], dt)
  }

  /** The flights from number k on have their turn. */
  ghost predicate EndsExact(s: State, t: State, k: nat, dt: nat) {
    && k <= |s.flights| && t.cfg == s.cfg && t.now == s.now
    && t.flights == s.flights[..k] + StillFlying(s.flights[k..], dt)
    && t.moves == s.moves + CountOver(s.flights[k..], dt)
    && t.log == s.log + EndsOf(s.flights[k..], dt)
  }

  lemma LandExact(s: State, k: nat)
    requires k < |s.flights|
    ensures var t := Land(s, k);
      && t.cfg == s.cfg && t.now == s.now && t.moves == s.moves + 1
      && t.flights == s.flights[..k] + s.flights[k + 1..] && t.log == s.log + EndOf(s.flights[k])
  {
    var f := s.flights[k];
    LandCounters(s, k);
    if Delivers(f) {
      LandLog(s, k);
    }
  }

  lemma OneOlder(s: State, next: State, t: State, k: nat, dt: nat)
    requires k < |s.flights| && s.flights[k].remaining > dt
    requires next == s.(flights := s.flights[k := s.flights[k].(remaining := s.flights[k].remaining - dt)])
    requires EndsExact(next, t, k + 1, dt)
    ensures EndsExact(s, t, k, dt)
  {
    var older := s.flights[k].(remaining := s.flights[k].remaining - dt);
    assert s.flights[k..][1..] == s.flights[k + 1..] == next.flights[k + 1..];
    assert next.flights[..k + 1] == s.flights[..k] + [older];
  }

  lemma OneOver(s: State, next: State, t: State, k: nat, dt: nat)
    requires k < |s.flights| && s.flights[k].remaining <= dt
    requires next.cfg == s.cfg && next.now == s.now && next.moves == s.moves + 1
    requires next.flights == s.flights[..k] + s.flights[k + 1..] && next.log == s.log + EndOf(s.flights[k])
    requires EndsExact(next, t, k, dt)
    ensures EndsExact(s, t, k, dt)
  {
    assert s.flights[k..][1..] == s.flights[k + 1..] == next.flights[k..];
    assert next.flights[..k] == s.flights[..k];
  }

  lemma {:induction false} AdvanceExact(s: State, k: nat, dt: nat)
    requires k <= |s.flights|
    ensures EndsExact(s, AdvanceInFlight(s, k, dt), k, dt)
    decreases |s.flights| - k
  {
    if k < |s.flights| {
      if s.flights[k].remaining - dt > 0 {
        AdvanceExact(Age(s, k, dt), k + 1, dt);
        OneOlder(s, Age(s, k, dt), AdvanceInFlight(s, k, dt), k, dt);
      } else {
        LandExact(s, k);
        AdvanceExact(Land(s, k), k, dt);
        OneOver(s, Land(s, k), AdvanceInFlight(s, k, dt), k, dt);
      }
    }
  }

  // ---------------------------------------------------------------- a whole frame

  lemma FiredIsGood(s: State, rs: Routes, dt: nat)
    requires Good(s, rs) && s.running
    ensures GoodNetwork(RunDueEvents(Later(s, dt)), rs) && RunDueEvents(Later(s, dt)).cfg == s.cfg
  {
    ClockGood(s, rs, dt);
    GoodIsKept(rs, s.cfg);
    RunDueKeeps(GoodIn(rs, s.cfg), Later(s, dt));
  }

  lemma LinksExact(rs: Routes, fired: State, dt: nat, choice: int -> Outcome)
    returns (sent: State, parts: seq<seq<Flight>>)
    requires GoodNetwork(fired, rs)
    ensures TurnsExact(fired, sent, 0, choice, parts)
    ensures EndsExact(sent, AdvanceInFlight(DispatchRouters(fired, 0, choice), 0, dt), 0, dt)
  {
    parts := PassExact(rs, fired, 0, choice);
    sent := DispatchRouters(fired, 0, choice);
    AdvanceExact(sent, 0, dt);
  }

  lemma Ascending(s: State, rs: Routes)
    requires Configured(s.cfg) && GoodNetwork(s, rs)
    ensures forall i, j :: 0 <= i < j < |s.routers| ==> s.routers[i].id < s.routers[j].id
  {
  }

  /**
   * A frame of dt advances the clock, runs exactly the timers due by then, gives every router its turn in ascending
   * order, and then ends exactly the flights with no more than dt to go, those just launched among them.
   */
  lemma FrameExact(c: Config, steps: seq<Step>, dt: nat, choice: int -> Outcome)
    returns (fired: State, sent: State, parts: seq<seq<Flight>>)
    requires Legal(c, steps) && Session(c, steps).running
    ensures fired == RunDueEvents(Later(Session(c, steps), dt)) && ExactPass(Later(Session(c, steps), dt))
    ensures Undisturbed(Later(Session(c, steps), dt), fired)
    ensures TurnsExact(fired, sent, 0, choice, parts)
    ensures EndsExact(sent, Frame(Session(c, steps), dt, choice), 0, dt)
    ensures forall i, j :: 0 <= i < j < |fired.routers| ==> fired.routers[i].id < fired.routers[j].id
  {
    var s := Session(c, steps);
    EventLoopExact(c, steps, dt);
    SessionGood(c, steps);
    fired := RunDueEvents(Later(s, dt));
    RunDueUndisturbed(Later(s, dt));
    FiredIsGood(s, RoutesOf(s.cfg), dt);
    Ascending(fired, RoutesOf(s.cfg));
    sent, parts := LinksExact(RoutesOf(s.cfg), fired, dt, choice);
  }
}
