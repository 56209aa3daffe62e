/**
 * simulation.py: the engine's state and what each of its methods makes of it. Loss, delay and
 * duplication arrive as Outcome values; a Python exception sets failed.
 */
module Simulation {
  import opened Wrappers
  import opened Graphs
  import opened Forwarding
  import opened Packets

  const SEND_INTERVAL := 260
  const RETRANSMISSION_TIMEOUT := 950
  const MAX_RUNTIME := 25000
  const PROCESSING_DELAY := 45
  const NEXT_SEND_DELAY := 150
  const BLOCKED_PORT := 80

  datatype Mode = UDP | TCP

  /**
   * What only a reset changes; ids lists the routers in the ascending order they are dispatched in, and
   * firewall is the router that has the rule while useSdn is on, if the topology has one.
   */
  datatype Config = Config(
    graph: Graph, tables: Tables, ids: seq<int>, mode: Mode, goal: int, port: int,
    useSdn: bool, firewall: Option<int>, source: int, destination: int)

  datatype Callback = SendData(sequence: int) | Timeout(sequence: int, token: int)
  datatype Event = Event(due: int, id: int, callback: Callback)

  /** How one launched packet fares on its link, and whether the link duplicates it. */
  datatype Outcome = Outcome(delay: int, dropped: bool, duplicated: bool, copyDelay: int, copyDropped: bool)

  /**
   * log, attempted and moves are history kept for the statements only: every packet event so far,
   * the sequences whose data has been injected, and the number of dispatches and landings.
   */
  datatype State = State(
    cfg: Config, now: int, running: bool, completed: bool, failed: bool,
    nextPacketId: int, nextEventId: int, nextSequence: int, awaiting: Option<int>, token: int,
    udpSentAll: bool, delivered: set<int>, events: seq<Event>, flights: seq<Flight>,
    routers: seq<Router>, stats: Stats, log: seq<PacketEvent>, attempted: set<int>, moves: nat)

  // ---------------------------------------------------------------- routers

  function RulesFor(c: Config, id: int): Option<seq<Rule>> {
    if c.useSdn && c.firewall == Some(id) then Some([Rule(BLOCKED_PORT, Data, Drop)]) else None
  }

  function TableOf(c: Config, id: int): map<int, int> {
    if id in c.tables then c.tables[id] else map[]
  }

  function BuildRouters(c: Config): seq<Router> {
    seq(|c.ids|, i requires 0 <= i < |c.ids| =>
      Router(c.ids[i], TableOf(c, c.ids[i]), RulesFor(c, c.ids[i]), [], 0))
  }

  /** Where a key stands in the list of routers; the length of the list when it is missing. */
  function IndexOf(ids: seq<int>, v: int): (i: nat)
    ensures i <= |ids|
    ensures i < |ids| ==> ids[i] == v
    ensures v in ids ==> i < |ids|
  {
    if ids == [] then 0 else if ids[0] == v then 0 else 1 + IndexOf(ids[1..], v)
  }

  function Enqueue(s: State, node: int, p: Packet): (r: State)
    ensures r == s.(routers := r.routers, failed := r.failed) && |r.routers| == |s.routers|
  {
    var i := IndexOf(s.cfg.ids, node);
    if i < |s.routers| then
      s.(routers := s.routers[i := s.routers[i].(queue := s.routers[i].queue + [p])])
    else s.(failed := true)
  }

  // ---------------------------------------------------------------- events

  predicate Before(e: Event, f: Event) {
    e.due < f.due || (e.due == f.due && e.id < f.id)
  }

  /** The heap holds its entries in (due, id) order as far as popping can tell. */
  function Insert(events: seq<Event>, e: Event): (r: seq<Event>)
    ensures forall f :: f in r <==> f == e || f in events
    ensures |r| == |events| + 1
  {
    if events == [] || Before(e, events[0]) then [e] + events
    else
      assert forall f :: f in events <==> f == events[0] || f in events[1..];
      [events[0]] + Insert(events[1..], e)
  }

  function Schedule(s: State, delay: int, callback: Callback): State {
    s.(events := Insert(s.events, Event(s.now + delay, s.nextEventId, callback)),
       nextEventId := s.nextEventId + 1)
  }

  // ---------------------------------------------------------------- sending

  function NewPacket(s: State, source: int, destination: int, kind: Kind, sequence: int,
                     ackFor: Option<int>, retransmission: bool): Packet {
    Packet(s.nextPacketId, source, destination, source, kind, sequence, ackFor, s.cfg.port,
           retransmission, false, None, [source])
  }

  function Inject(s: State, p: Packet): (r: State)
    ensures r == s.(routers := r.routers, failed := r.failed, stats := r.stats) && |r.routers| == |s.routers|
  {
    var stats := s.stats.(
      sent := s.stats.sent + 1,
      retransmissions := s.stats.retransmissions + if p.retransmission then 1 else 0,
      duplicates := s.stats.duplicates + if p.duplicate then 1 else 0);
    Enqueue(s.(stats := stats), p.source, p)
  }

  function InjectData(s: State, sequence: int, retransmission: bool): (r: State)
    ensures r == s.(routers := r.routers, failed := r.failed, stats := r.stats,
                    nextPacketId := s.nextPacketId + 1, attempted := s.attempted + {sequence})
    ensures |r.routers| == |s.routers|
  {
    var p := NewPacket(s, s.cfg.source, s.cfg.destination, Data, sequence, None, retransmission);
    Inject(s.(nextPacketId := s.nextPacketId + 1, attempted := s.attempted + {sequence}), p)
  }

  function Transmit(s: State, sequence: int, retransmission: bool): (r: State)
    ensures r.now == s.now && r.flights == s.flights && r.log == s.log && |r.routers| == |s.routers|
    ensures r.events == s.events || r.events == Insert(s.events,
              Event(s.now + RETRANSMISSION_TIMEOUT, s.nextEventId, Timeout(sequence, r.token)))
  {
    if sequence >= s.cfg.goal then s
    else
      var s := InjectData(s, sequence, retransmission);
      if s.cfg.mode == UDP then s
      else
        var s := s.(awaiting := Some(sequence), token := s.token + 1);
        Schedule(s, RETRANSMISSION_TIMEOUT, Timeout(sequence, s.token))
  }

  function SendAck(s: State, sequence: int): (r: State)
    ensures r == s.(routers := r.routers, failed := r.failed, stats := r.stats,
                    nextPacketId := s.nextPacketId + 1)
    ensures |r.routers| == |s.routers|
  {
    var p := NewPacket(s, s.cfg.destination, s.cfg.source, Ack, sequence, Some(sequence), false);
    var stats := s.stats.(acknowledgements := s.stats.acknowledgements + 1);
    Inject(s.(nextPacketId := s.nextPacketId + 1, stats := stats), p)
  }

  // ---------------------------------------------------------------- timers

  function OnTimeout(s: State, sequence: int, token: int): State {
    if !s.running || s.completed then s
    else if s.awaiting != Some(sequence) || token != s.token then s
    else Transmit(s, sequence, true)
  }

  function Call(s: State, callback: Callback): State {
    match callback
    case SendData(sequence) => Transmit(s, sequence, false)
    case Timeout(sequence, token) => OnTimeout(s, sequence, token)
  }

  /** Pop the first event and run it. */
  function Fire(s: State): State
    requires s.events != []
  {
    Call(s.(events := s.events[1..]), s.events[0].callback)
  }

  function DueCount(events: seq<Event>, now: int): nat {
    if events == [] then 0 else DueCount(events[1..], now) + if events[0].due <= now then 1 else 0
  }

  lemma {:induction false} LaterEventIsNotDue(events: seq<Event>, e: Event, now: int)
    requires now < e.due
    ensures DueCount(Insert(events, e), now) == DueCount(events, now)
  {
    if events != [] && !Before(e, events[0]) {
      LaterEventIsNotDue(events[1..], e, now);
      assert Insert(events, e)[1..] == Insert(events[1..], e);
    } else {
      assert Insert(events, e)[1..] == events;
    }
  }

  /** A callback schedules at most one event, and that strictly later than now. */
  lemma FireUsesUpDue(s: State)
    requires s.events != [] && s.events[0].due <= s.now
    ensures Fire(s).now == s.now
    ensures DueCount(Fire(s).events, s.now) < DueCount(s.events, s.now)
  {
    var rest := s.events[1..];
    var r := Fire(s);
    if r.events != rest {
      LaterEventIsNotDue(rest, Event(s.now + RETRANSMISSION_TIMEOUT, s.nextEventId,
                                     Timeout(s.events[0].callback.sequence, r.token)), s.now);
    }
  }

  function RunDueEvents(s: State): State
    decreases DueCount(s.events, s.now)
  {
    if s.events == [] || s.events[0].due > s.now then s
    else
      FireUsesUpDue(s);
      RunDueEvents(Fire(s))
  }

  // ---------------------------------------------------------------- dispatching

  function Launch(s: State, p: Packet, start: int, end: int, o: Outcome): (r: State)
    ensures r == s.(flights := r.flights, nextPacketId := r.nextPacketId, stats := r.stats, failed := r.failed)
    ensures r.stats.retransmissions == s.stats.retransmissions
  {
    if !HasEdge(s.cfg.graph, start, end) then s.(failed := true)
    else
      var s := s.(flights := s.flights + [Flight(p, start, end, o.delay, o.dropped)]);
      if !o.duplicated then s
      else
        var stats := s.stats.(sent := s.stats.sent + 1, duplicates := s.stats.duplicates + 1);
        s.(flights := s.flights + [Flight(Copy(s, p, start), start, end, o.copyDelay, o.copyDropped)],
           nextPacketId := s.nextPacketId + 1, stats := stats)
  }

  /** The duplicate a link makes: a new packet with the same content and the same past. */
  function Copy(s: State, p: Packet, start: int): Packet {
    Packet(s.nextPacketId, p.source, p.destination, start, p.kind, p.sequence, p.ackFor, s.cfg.port,
           p.retransmission, true, Some(p.id), p.history)
  }

  function RecordDrop(s: State, e: PacketEvent): State {
    s.(stats := s.stats.(dropped := s.stats.dropped + 1), log := s.log + [e])
  }

  /** Router i takes the head off its queue and is busy for a while. */
  function Popped(s: State, i: nat): State
    requires i < |s.routers| && s.routers[i].queue != []
  {
    var r := s.routers[i];
    s.(routers := s.routers[i := r.(queue := r.queue[1..], available := s.now + PROCESSING_DELAY)],
       moves := s.moves + 1)
  }

  /** Router i handles the head of its queue, if it has one and is not still busy. */
  function Dispatch(s: State, i: nat, o: Outcome): (r: State)
    requires i < |s.routers|
    ensures r == s.(routers := r.routers, flights := r.flights, nextPacketId := r.nextPacketId, stats := r.stats,
                    log := r.log, moves := r.moves, failed := r.failed)
    ensures |r.routers| == |s.routers| && r.stats.retransmissions == s.stats.retransmissions && s.log <= r.log
  {
    var r := s.routers[i];
    if r.queue == [] || r.available > s.now then s
    else
      var p := r.queue[0];
      var s := Popped(s, i);
      var action := if r.rules.Some? then ApplyRules(r.rules.value, p) else None;
      match action
      case Some(Drop) => RecordDrop(s, Filtered(p))
      case Some(Forward(hop)) => Launch(s, p, r.id, hop, o)
      case None =>
        if p.destination in r.table then Launch(s, p, r.id, r.table[p.destination], o)
        else s.(failed := true)
  }

  /** One pass over the routers from number i on; choice gives each router's link its luck. */
  function DispatchRouters(s: State, i: nat, choice: int -> Outcome): State
    requires i <= |s.routers|
    decreases |s.routers| - i
  {
    if i == |s.routers| then s
    else DispatchRouters(Dispatch(s, i, choice(s.routers[i].id)), i + 1, choice)
  }

  // ---------------------------------------------------------------- arriving

  function OnAckReceived(s: State, ackFor: Option<int>): (r: State)
    ensures r.flights == s.flights && r.routers == s.routers && r.log == s.log
  {
    if s.awaiting != ackFor then s
    else
      var s := s.(awaiting := None);
      if ackFor == None then s
      else if ackFor.value + 1 >= s.cfg.goal then s.(completed := true)
      else
        Schedule(s.(nextSequence := ackFor.value + 1), NEXT_SEND_DELAY, SendData(ackFor.value + 1))
  }

  function MarkDelivered(s: State, sequence: int): (r: State)
    ensures r == s.(delivered := s.delivered + {sequence}, stats := r.stats)
  {
    if sequence in s.delivered then
      assert s.delivered + {sequence} == s.delivered;
      s
    else
      s.(delivered := s.delivered + {sequence},
         stats := s.stats.(delivered := s.stats.delivered + 1,
                           completedSequences := s.stats.completedSequences + {sequence}))
  }

  function OnDataReceived(s: State, sequence: int): (r: State)
    ensures r.flights == s.flights && |r.routers| == |s.routers|
  {
    var s := MarkDelivered(s, sequence);
    if s.cfg.mode == TCP then SendAck(s, sequence) else s
  }

  function Arrived(f: Flight): Packet {
    f.packet.(current := f.end, history := f.packet.history + [f.end])
  }

  function HandleArrival(s: State, f: Flight): (r: State)
    ensures r.flights == s.flights && |r.routers| == |s.routers|
  {
    var p := Arrived(f);
    if p.current == p.destination then
      var s := s.(log := s.log + [Delivered(p)]);
      if p.kind == Data then OnDataReceived(s, p.sequence) else OnAckReceived(s, p.ackFor)
    else Enqueue(s, p.current, p)
  }

  function Ended(s: State, k: nat): State
    requires k < |s.flights|
  {
    s.(flights := s.flights[..k] + s.flights[k + 1..], moves := s.moves + 1)
  }

  /** Flight k ends: it is lost on its link or arrives. */
  function Land(s: State, k: nat): (r: State)
    requires k < |s.flights|
    ensures r.flights == s.flights[..k] + s.flights[k + 1..] && |r.routers| == |s.routers|
  {
    var f := s.flights[k];
    var s := Ended(s, k);
    if f.dropped then RecordDrop(s, Lost(f.packet)) else HandleArrival(s, f)
  }

  function Age(s: State, k: nat, dt: int): State
    requires k < |s.flights|
  {
    s.(flights := s.flights[k := s.flights[k].(remaining := s.flights[k].remaining - dt)])
  }

  /** One pass over the flights from number k on. */
  function AdvanceInFlight(s: State, k: nat, dt: int): State
    requires k <= |s.flights|
    decreases |s.flights| - k
  {
    if k == |s.flights| then s
    else if s.flights[k].remaining - dt > 0 then AdvanceInFlight(Age(s, k, dt), k + 1, dt)
    else AdvanceInFlight(Land(s, k), k, dt)
  }

  // ---------------------------------------------------------------- whole updates and user actions

  predicate NetworkIdle(s: State) {
    (forall i :: 0 <= i < |s.routers| ==> s.routers[i].queue == []) && s.flights == [] && s.events == []
  }

  function FinishRun(s: State): State {
    if !s.running then s
    else s.(running := false, completed := true, stats := s.stats.(endTime := Some(s.now)))
  }

  function FinishIfDone(s: State): State {
    if (s.cfg.mode == UDP && s.udpSentAll && NetworkIdle(s))
       || (s.cfg.mode == TCP && s.completed && NetworkIdle(s))
       || s.now >= MAX_RUNTIME
    then FinishRun(s) else s
  }

  function Later(s: State, dt: nat): State {
    s.(now := s.now + dt)
  }

  /** A frame of a running simulation, before it is decided whether the run is over. */
  function Frame(s: State, dt: nat, choice: int -> Outcome): State {
    AdvanceInFlight(DispatchRouters(RunDueEvents(Later(s, dt)), 0, choice), 0, dt)
  }

  function Update(s: State, dt: nat, choice: int -> Outcome): State {
    if s.running then FinishIfDone(Frame(s, dt, choice)) else s
  }

  function Reset(c: Config): State {
    State(c, 0, false, false, false, 1, 1, 0, None, 0, false, {}, [], [], BuildRouters(c),
          NO_STATS, [], {}, 0)
  }

  /** The UDP sender's schedule from the given sequence on. */
  function ScheduleAll(s: State, sequence: nat): State
    decreases s.cfg.goal - sequence
  {
    if sequence >= s.cfg.goal then s
    else ScheduleAll(Schedule(s, sequence * SEND_INTERVAL, SendData(sequence)), sequence + 1)
  }

  function StartRun(c: Config): State {
    var s := Reset(c).(running := true, stats := NO_STATS.(startTime := Some(0)));
    if c.mode == UDP then ScheduleAll(s, 0).(udpSentAll := true)
    else Schedule(s, 0, SendData(0))
  }

  /** Everything a user or the frame timer can do; every setting is changed together with a reset. */
  datatype Step =
    | Start
    | Tick(dt: nat, choice: int -> Outcome)
    | Configure(cfg: Config)

  function Apply(s: State, step: Step): State {
    match step
    case Start => StartRun(s.cfg)
    case Tick(dt, choice) => Update(s, dt, choice)
    case Configure(c) => Reset(c)
  }

  /** The state after a whole session of steps, from a freshly configured engine. */
  function Session(c: Config, steps: seq<Step>): State {
    if steps == [] then Reset(c)
    else Apply(Session(c, steps[..|steps| - 1]), steps[|steps| - 1])
  }
}
