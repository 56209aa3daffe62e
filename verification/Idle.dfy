/**
 * The network falls idle in time: with bounded link delays and frames it makes a move at least every so
 * often while it holds any packet, and the moves there can be are bounded.
 */
module Idle {
  import opened Wrappers
  import opened Packets
  import opened Simulation
  import opened Accounts
  import opened Ledger
  import opened Drain
  import opened ProtocolSteps
  import opened Invariants
  import opened Sessions
  import opened Guarantees
  import opened Progress

  /** No packet waits in a queue or is on a link. */
  ghost predicate Quiet(s: State) {
    s.flights == [] && forall i :: 0 <= i < |s.routers| ==> s.routers[i].queue == []
  }

  /** Every router is free within its processing delay. */
  ghost predicate Prompt(s: State) {
    forall i :: 0 <= i < |s.routers| ==> s.routers[i].available <= s.now + PROCESSING_DELAY
  }

  /** So it is, and every flight has at most d to go. */
  ghost predicate Brisk(s: State, d: nat) {
    Prompt(s) && forall k :: 0 <= k < |s.flights| ==> s.flights[k].remaining <= d
  }

  /** Links delay a packet and its copy by at most d. */
  function Within(d: nat): Outcome -> bool {
    (o: Outcome) => o.delay <= d && o.copyDelay <= d
  }

  ghost predicate Gentle(steps: seq<Step>, d: nat) {
    forall i :: 0 <= i < |steps| && steps[i].Tick? ==> forall id :: Within(d)(steps[i].choice(id))
  }

  // ---------------------------------------------------------------- delays stay bounded

  ghost predicate SameAvailable(s: State, t: State) {
    |t.routers| == |s.routers| && forall i :: 0 <= i < |s.routers| ==> t.routers[i].available == s.routers[i].available
  }

  lemma EnqueueAvailable(s: State, node: int, p: Packet)
    ensures SameAvailable(s, Enqueue(s, node, p))
  {
  }

  lemma DataAvailable(s: State, q: int)
    ensures SameAvailable(s, OnDataReceived(s, q))
  {
    var s1 := MarkDelivered(s, q);
    if s.cfg.mode == TCP {
      InjectUndisturbed(s1.(nextPacketId := s1.nextPacketId + 1,
                            stats := s1.stats.(acknowledgements := s1.stats.acknowledgements + 1)), AckPacket(s1, q));
    }
  }

  lemma LandAvailable(s: State, k: nat)
    requires k < |s.flights|
    ensures SameAvailable(s, Land(s, k))
  {
    var f := s.flights[k];
    var s1, p := Ended(s, k), Arrived(f);
    if !f.dropped {
      if p.current != p.destination {
        EnqueueAvailable(s1, p.current, p);
      } else if p.kind == Data {
        DataAvailable(s1.(log := s1.log + [Delivered(p)]), p.sequence);
      }
    }
  }

  lemma FireRuns(s: State)
    requires s.events != []
    ensures Fire(s).running == s.running
  {
  }

  lemma FireBrisk(s: State, d: nat)
    requires Brisk(s, d) && s.events != []
    ensures Brisk(Fire(s), d) && Fire(s).running == s.running
  {
    FireUndisturbed(s);
    FireRuns(s);
  }

  lemma LaunchBrisk(s: State, p: Packet, start: int, end: int, o: Outcome, d: nat)
    requires Brisk(s, d) && Within(d)(o)
    ensures Brisk(Launch(s, p, start, end, o), d)
  {
  }

  lemma PoppedBrisk(s: State, i: nat, d: nat)
    requires Brisk(s, d) && i < |s.routers| && s.routers[i].queue != []
    ensures Brisk(Popped(s, i), d)
  {
  }

  lemma DispatchBrisk(s: State, i: nat, o: Outcome, d: nat)
    requires Brisk(s, d) && Within(d)(o) && i < |s.routers|
    ensures Brisk(Dispatch(s, i, o), d)
  {
    var r := s.routers[i];
    if r.queue != [] && r.available <= s.now {
      PoppedBrisk(s, i, d);
      HandlingBrisk(Popped(s, i), r, r.queue[0], o, d);
    }
  }

  /** What a dispatch does with the packet it has taken off its queue. */
  lemma HandlingBrisk(s: State, r: Router, p: Packet, o: Outcome, d: nat)
    requires Brisk(s, d) && Within(d)(o)
    ensures Brisk(RecordDrop(s, Filtered(p)), d)
    ensures forall hop :: Brisk(Launch(s, p, r.id, hop, o), d)
    ensures Brisk(s.(failed := true), d)
  {
    forall hop ensures Brisk(Launch(s, p, r.id, hop, o), d) {
      LaunchBrisk(s, p, r.id, hop, o, d);
    }
  }

  lemma AgeBrisk(s: State, k: nat, dt: nat, d: nat)
    requires Brisk(s, d) && k < |s.flights|
    ensures Brisk(Age(s, k, dt), d)
  {
  }

  lemma LandBrisk(s: State, k: nat, d: nat)
    requires Brisk(s, d) && k < |s.flights|
    ensures Brisk(Land(s, k), d) && Land(s, k).running == s.running
  {
    LandAvailable(s, k);
    LandTimers(s, k);
    forall j | 0 <= j < |Land(s, k).flights| ensures Land(s, k).flights[j].remaining <= d {
      assert Land(s, k).flights[j] == s.flights[if j < k then j else j + 1];
    }
  }

  ghost function BriskIn(d: nat): State -> bool {
    (s: State) => Brisk(s, d)
  }

  lemma BriskIsKept(d: nat)
    ensures KeptByTime(BriskIn(d)) && KeptByFiring(BriskIn(d))
    ensures KeptByDispatch(BriskIn(d), Within(d)) && KeptByFlights(BriskIn(d))
  {
    var p := BriskIn(d);
    assert KeptByFiring(p) by {
      forall t: State | p(t) && t.running && t.events != [] && t.events[0].due <= t.now
        ensures p(Fire(t)) && Fire(t).running { FireBrisk(t, d); }
    }
    assert KeptByDispatch(p, Within(d)) by {
      forall t: State, i: nat, o: Outcome | p(t) && i < |t.routers| && Within(d)(o)
        ensures p(Dispatch(t, i, o)) && Dispatch(t, i, o).running == t.running { DispatchBrisk(t, i, o, d); }
    }
    assert KeptByFlights(p) by {
      forall t: State, k: nat, dt: nat | p(t) && k < |t.flights|
        ensures p(Age(t, k, dt)) && Age(t, k, dt).running == t.running { AgeBrisk(t, k, dt, d); }
      forall t: State, k: nat | p(t) && t.running && k < |t.flights|
        ensures p(Land(t, k)) && Land(t, k).running { LandBrisk(t, k, d); }
    }
  }

  lemma UpdateBrisk(s: State, dt: nat, choice: int -> Outcome, d: nat)
    requires Brisk(s, d) && forall id :: Within(d)(choice(id))
    ensures Brisk(Update(s, dt, choice), d)
  {
    BriskIsKept(d);
    UpdateKeeps(BriskIn(d), Within(d), s, dt, choice);
  }

  lemma StartBrisk(c: Config, d: nat)
    requires 1 <= c.goal
    ensures Brisk(StartRun(c), d)
  {
    var s := Reset(c).(running := true, stats := NO_STATS.(startTime := Some(0)));
    if c.mode == UDP {
      ScheduleAllExact(s, 0);
    }
  }

  lemma {:induction false} SessionBrisk(c: Config, steps: seq<Step>, d: nat)
    requires Legal(c, steps) && Gentle(steps, d)
    ensures Brisk(Session(c, steps), d)
  {
    if steps != [] {
      var front, step := steps[..|steps| - 1], steps[|steps| - 1];
      SessionBrisk(c, front, d);
      SessionGood(c, front);
      StepBrisk(Session(c, front), step, d);
    }
  }

  lemma StepBrisk(s: State, step: Step, d: nat)
    requires Brisk(s, d) && 1 <= s.cfg.goal
    requires step.Tick? ==> forall id :: Within(d)(step.choice(id))
    ensures Brisk(Apply(s, step), d)
  {
    match step
    case Start => StartBrisk(s.cfg, d);
    case Tick(dt, choice) => UpdateBrisk(s, dt, choice, d);
    case Configure(_) =>
  }

  // ---------------------------------------------------------------- one frame without a move

  /** A pass over the routers that moves nothing changes nothing. */
  lemma {:induction false} IdlePass(s: State, i: nat, choice: int -> Outcome)
    requires i <= |s.routers| && DispatchRouters(s, i, choice).moves == s.moves
    ensures DispatchRouters(s, i, choice) == s
    decreases |s.routers| - i
  {
    if i < |s.routers| {
      var next := Dispatch(s, i, choice(s.routers[i].id));
      DispatchMoves(s, i, choice(s.routers[i].id));
      DispatchPassMoves(next, i + 1, choice);
      IdlePass(s, i + 1, choice);
    }
  }

  /** The flights from number k on are dt older and nothing else has changed. */
  ghost predicate OnlyOlder(s: State, t: State, k: nat, dt: nat) {
    && t == s.(flights := t.flights) && |t.flights| == |s.flights|
    && forall j :: 0 <= j < |s.flights| ==>
         t.flights[j].remaining == s.flights[j].remaining - if j < k then 0 else dt
  }

  /** A pass over the flights that ends none only makes them older. */
  lemma {:induction false} IdleAdvance(s: State, k: nat, dt: nat)
    requires k <= |s.flights| && AdvanceInFlight(s, k, dt).moves == s.moves
    ensures OnlyOlder(s, AdvanceInFlight(s, k, dt), k, dt)
    decreases |s.flights| - k
  {
    if k < |s.flights| {
      if s.flights[k].remaining - dt > 0 {
        IdleAdvance(Age(s, k, dt), k + 1, dt);
      } else {
        LandCounters(s, k);
        AdvanceMoves(Land(s, k), k, dt);
      }
    }
  }

  /** Some packet will be moved by the given time. */
  ghost predicate WaitsUntil(s: State, time: int) {
    SomeRouterDue(s, time) || SomeFlightDue(s, time - s.now)
  }

  /** A frame that moves nothing leaves everything waiting as it was. */
  lemma IdleFrame(s: State, dt: nat, choice: int -> Outcome)
    requires Frame(s, dt, choice).moves == s.moves
    ensures var s2 := RunDueEvents(Later(s, dt));
      && Undisturbed(Later(s, dt), s2) && OnlyOlder(s2, Frame(s, dt, choice), 0, dt)
  {
    var s2 := RunDueEvents(Later(s, dt));
    RunDueUndisturbed(Later(s, dt));
    DispatchPassMoves(s2, 0, choice);
    AdvanceMoves(DispatchRouters(s2, 0, choice), 0, dt);
    IdlePass(s2, 0, choice);
    IdleAdvance(s2, 0, dt);
  }

  lemma StillWaits(s: State, dt: nat, choice: int -> Outcome, time: int)
    requires Frame(s, dt, choice).moves == s.moves && WaitsUntil(s, time)
    ensures WaitsUntil(Frame(s, dt, choice), time) && Frame(s, dt, choice).now == s.now + dt
  {
    var t := Frame(s, dt, choice);
    IdleFrame(s, dt, choice);
    if j: nat :| RouterDue(s, j, time) {
      assert RouterDue(t, j, time);
    } else {
      var left := time - s.now;
      var k: nat :| FlightDue(s, k, left);
      assert FlightDue(t, k, left - dt);
    }
  }

  lemma WaitIsOver(s: State, dt: nat, time: int)
    requires WaitsUntil(s, time) && time <= s.now + dt
    ensures SomethingDue(s, dt)
  {
    if j: nat :| RouterDue(s, j, time) {
      assert RouterDue(s, j, s.now + dt);
    } else {
      var left := time - s.now;
      var k: nat :| FlightDue(s, k, left);
      assert FlightDue(s, k, dt);
    }
  }

  lemma FinishedWaits(s: State, time: int)
    ensures WaitsUntil(s, time) ==> WaitsUntil(FinishIfDone(s), time)
    ensures FinishIfDone(s).now == s.now && FinishIfDone(s).moves == s.moves && FinishIfDone(s).cfg == s.cfg
  {
    var left := time - s.now;
    if j: nat :| RouterDue(s, j, time) {
      assert RouterDue(FinishIfDone(s), j, time);
    } else if k: nat :| FlightDue(s, k, left) {
      assert FlightDue(FinishIfDone(s), k, left);
    }
  }

  /** What waits until some time is moved by a tick, or that time has not come and it waits on. */
  lemma TickWaits(s: State, dt: nat, choice: int -> Outcome, time: int)
    requires s.running && WaitsUntil(s, time)
    ensures var t := Update(s, dt, choice);
      t.moves > s.moves || (t.moves == s.moves && t.now == s.now + dt < time && WaitsUntil(t, time))
  {
    UpdateMoves(s, dt, choice);
    FinishedWaits(Frame(s, dt, choice), time);
    if time <= s.now + dt {
      WaitIsOver(s, dt, time);
    } else if Update(s, dt, choice).moves == s.moves {
      StillWaits(s, dt, choice, time);
    }
  }

  /** How long the network can go without a move while it holds a packet. */
  function Wait(d: nat): nat {
    if d < PROCESSING_DELAY then PROCESSING_DELAY else d
  }

  lemma BusyWaits(s: State, d: nat)
    requires Brisk(s, d) && !Quiet(s)
    ensures WaitsUntil(s, s.now + Wait(d))
  {
    var time := s.now + Wait(d);
    if s.flights != [] {
      assert FlightDue(s, 0, Wait(d));
    } else {
      var i :| 0 <= i < |s.routers| && s.routers[i].queue != [];
      assert RouterDue(s, i, time);
    }
  }

  // ---------------------------------------------------------------- stretches without an empty network

  /** Frames of at most f ms of a running engine whose links delay by at most d. */
  ghost predicate Stretch(c: Config, steps: seq<Step>, ticks: seq<Step>, d: nat, f: nat) {
    && Legal(c, steps + ticks) && Gentle(steps + ticks, d) && AllTicks(ticks)
    && forall n :: 0 <= n < |ticks| ==> ticks[n].dt <= f && At(c, steps, ticks, n).running
  }

  lemma StretchIsFit(c: Config, steps: seq<Step>, ticks: seq<Step>, d: nat, f: nat, n: nat)
    requires Stretch(c, steps, ticks, d, f) && n <= |ticks|
    ensures Legal(c, steps + ticks[..n]) && Gentle(steps + ticks[..n], d)
  {
    var all, part := steps + ticks, steps + ticks[..n];
    assert forall i :: 0 <= i < |part| ==> part[i] == all[i];
  }

  /** The time by which that many moves have been made and one more is due. */
  ghost function Limit(start: int, moves: int, d: nat, f: nat): int {
    start + Times(moves, Wait(d) + f) + Wait(d)
  }

  lemma {:induction false} LimitGrows(start: int, a: int, b: int, d: nat, f: nat)
    requires a <= b
    ensures Limit(start, a, d, f) <= Limit(start, b, d, f)
    decreases b - a
  {
    if a < b {
      LimitGrows(start, a, b - 1, d, f);
    }
  }

  lemma LimitOfOneMore(start: int, moves: nat, more: nat, d: nat, f: nat)
    requires moves < more
    ensures Limit(start, moves, d, f) + Wait(d) + f <= Limit(start, more, d, f)
  {
    LimitGrows(start, moves + 1, more, d, f);
  }

  /** The clock and the next move of s are within what the moves since the start allow. */
  ghost predicate OnTime(s: State, start: State, d: nat, f: nat) {
    && s.moves >= start.moves && s.cfg == start.cfg
    && s.now <= Limit(start.now, s.moves - start.moves, d, f)
    && exists time :: time <= Limit(start.now, s.moves - start.moves, d, f) && WaitsUntil(s, time)
  }

  lemma OnTimeNext(s: State, start: State, dt: nat, choice: int -> Outcome, t: State, d: nat, f: nat)
    requires OnTime(s, start, d, f) && s.running && dt <= f && t == Update(s, dt, choice)
    requires t.cfg == s.cfg && t.now <= s.now + dt && Brisk(t, d) && !Quiet(t)
    ensures OnTime(t, start, d, f)
  {
    var time :| time <= Limit(start.now, s.moves - start.moves, d, f) && WaitsUntil(s, time);
    TickWaits(s, dt, choice, time);
    if t.moves > s.moves {
      LimitOfOneMore(start.now, s.moves - start.moves, t.moves - start.moves, d, f);
      BusyWaits(t, d);
    }
  }

  lemma RunDueClock(s: State)
    ensures RunDueEvents(s).now == s.now
  {
    RunDueUndisturbed(s);
  }

  lemma {:induction false} AdvanceClock(s: State, k: nat, dt: nat)
    requires k <= |s.flights|
    ensures AdvanceInFlight(s, k, dt).now == s.now
    decreases |s.flights| - k
  {
    if k < |s.flights| {
      if s.flights[k].remaining - dt > 0 {
        AdvanceClock(Age(s, k, dt), k + 1, dt);
      } else {
        LandTimers(s, k);
        AdvanceClock(Land(s, k), k, dt);
      }
    }
  }

  lemma {:induction false} DispatchClock(s: State, i: nat, choice: int -> Outcome)
    requires i <= |s.routers|
    ensures DispatchRouters(s, i, choice).now == s.now
    decreases |s.routers| - i
  {
    if i < |s.routers| {
      DispatchClock(Dispatch(s, i, choice(s.routers[i].id)), i + 1, choice);
    }
  }

  /** The clock moves by the frame, if the engine is running. */
  lemma UpdateClock(s: State, dt: nat, choice: int -> Outcome)
    ensures Update(s, dt, choice).now == s.now + if s.running then dt else 0
  {
    if s.running {
      RunDueClock(Later(s, dt));
      DispatchClock(RunDueEvents(Later(s, dt)), 0, choice);
      AdvanceClock(DispatchRouters(RunDueEvents(Later(s, dt)), 0, choice), 0, dt);
    }
  }

  lemma {:induction false} BusyStretch(c: Config, steps: seq<Step>, ticks: seq<Step>, d: nat, f: nat, n: nat)
    requires Stretch(c, steps, ticks, d, f) && n <= |ticks|
    requires forall k :: 0 <= k <= n ==> !Quiet(At(c, steps, ticks, k))
    ensures OnTime(At(c, steps, ticks, n), At(c, steps, ticks, 0), d, f)
  {
    var s := At(c, steps, ticks, n);
    StretchIsFit(c, steps, ticks, d, f, n);
    SessionBrisk(c, steps + ticks[..n], d);
    if n == 0 {
      BusyWaits(s, d);
    } else {
      BusyStretch(c, steps, ticks, d, f, n - 1);
      var before, tick := At(c, steps, ticks, n - 1), ticks[n - 1];
      AtNext(c, steps, ticks, n - 1);
      UpdateClock(before, tick.dt, tick.choice);
      TickKeepsConfig(c, steps, ticks, d, f, n - 1);
      OnTimeNext(before, At(c, steps, ticks, 0), tick.dt, tick.choice, s, d, f);
    }
  }

  lemma TickKeepsConfig(c: Config, steps: seq<Step>, ticks: seq<Step>, d: nat, f: nat, n: nat)
    requires Stretch(c, steps, ticks, d, f) && n < |ticks|
    ensures At(c, steps, ticks, n + 1).cfg == At(c, steps, ticks, n).cfg
  {
    StretchIsFit(c, steps, ticks, d, f, n);
    SessionGood(c, steps + ticks[..n]);
    AtNext(c, steps, ticks, n);
    UpdateGood(At(c, steps, ticks, n), RoutesOf(At(c, steps, ticks, n).cfg), ticks[n].dt, ticks[n].choice);
  }

  /** Moves that the transmissions so far still pay for. */
  ghost function MovesLeft(s: State): int
    requires Configured(s.cfg)
  {
    Transmissions(s) * Budget(s.cfg, RoutesOf(s.cfg), true, MOVES) - s.moves
  }

  /**
   * The network falls idle: in any stretch of frames that brings no new transmission and lasts longer than
   * the moves left can take, each at most Wait(d) and a frame after the one before, there is a moment when
   * every queue and every link is empty.
   */
  lemma NetworkFallsIdle(c: Config, steps: seq<Step>, ticks: seq<Step>, d: nat, f: nat)
    requires Stretch(c, steps, ticks, d, f)
    requires Transmissions(At(c, steps, ticks, |ticks|)) == Transmissions(At(c, steps, ticks, 0))
    ensures var s := At(c, steps, ticks, 0);
      Configured(s.cfg) && 0 <= MovesLeft(s)
      && (At(c, steps, ticks, |ticks|).now > s.now + MovesLeft(s) * (Wait(d) + f) + Wait(d) ==>
            exists n :: 0 <= n <= |ticks| && Quiet(At(c, steps, ticks, n)))
  {
    var s, t := At(c, steps, ticks, 0), At(c, steps, ticks, |ticks|);
    StretchIsFit(c, steps, ticks, d, f, 0);
    StretchIsFit(c, steps, ticks, d, f, |ticks|);
    NetworkDrains(c, steps + ticks[..0]);
    NetworkDrains(c, steps + ticks[..|ticks|]);
    if forall n :: 0 <= n <= |ticks| ==> !Quiet(At(c, steps, ticks, n)) {
      BusyStretch(c, steps, ticks, d, f, |ticks|);
      InTime(t, s, MovesLeft(s), d, f);
    }
  }

  lemma InTime(t: State, s: State, left: nat, d: nat, f: nat)
    requires OnTime(t, s, d, f) && t.moves - s.moves <= left
    ensures t.now <= s.now + left * (Wait(d) + f) + Wait(d)
  {
    LimitGrows(s.now, t.moves - s.moves, left, d, f);
    TimesIsProduct(left, Wait(d) + f);
  }
}
