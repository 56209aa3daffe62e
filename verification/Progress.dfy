/**
 * The other half of draining: whenever something in the network is due, an update does move it, so the
 * network cannot stay busy for longer than the transmissions pay for.
 */
module Progress {
  import opened Packets
  import opened Simulation
  import opened Accounts
  import opened Ledger
  import opened Drain
  import opened Protocol
  import opened ProtocolSteps
  import opened Sessions
  import opened Guarantees

  /** Router j has a packet and will be free by the given time. */
  predicate RouterDue(s: State, j: nat, time: int) {
    j < |s.routers| && s.routers[j].queue != [] && s.routers[j].available <= time
  }

  /** Flight k will be over after dt more. */
  predicate FlightDue(s: State, k: nat, dt: int) {
    k < |s.flights| && s.flights[k].remaining <= dt
  }

  /** Sending a packet off adds to the links and disturbs no router. */
  ghost predicate OnlyAddsFlights(s: State, t: State) {
    t.moves == s.moves && t.routers == s.routers && s.flights <= t.flights
  }

  lemma LaunchAdds(s: State, p: Packet, start: int, end: int, o: Outcome)
    ensures OnlyAddsFlights(s, Launch(s, p, start, end, o))
  {
  }

  /** Whatever becomes of a packet taken off its queue. */
  lemma HandlingAdds(s: State, r: Router, p: Packet, o: Outcome)
    ensures OnlyAddsFlights(s, RecordDrop(s, Filtered(p))) && OnlyAddsFlights(s, s.(failed := true))
    ensures forall hop :: OnlyAddsFlights(s, Launch(s, p, r.id, hop, o))
  {
    forall hop ensures OnlyAddsFlights(s, Launch(s, p, r.id, hop, o)) {
      LaunchAdds(s, p, r.id, hop, o);
    }
  }

  lemma DispatchAdds(s: State, i: nat, o: Outcome)
    requires i < |s.routers| && s.routers[i].queue != [] && s.routers[i].available <= s.now
    ensures OnlyAddsFlights(Popped(s, i), Dispatch(s, i, o))
  {
    HandlingAdds(Popped(s, i), s.routers[i], s.routers[i].queue[0], o);
  }

  lemma DispatchMoves(s: State, i: nat, o: Outcome)
    requires i < |s.routers|
    ensures Dispatch(s, i, o).moves == s.moves + if RouterDue(s, i, s.now) then 1 else 0
    ensures s.flights <= Dispatch(s, i, o).flights
    ensures RouterDue(s, i, s.now) ==>
              Dispatch(s, i, o).routers[i].available == s.now + PROCESSING_DELAY
              && Dispatch(s, i, o).routers[i].queue == s.routers[i].queue[1..]
    ensures forall j :: 0 <= j < |s.routers| && j != i ==> Dispatch(s, i, o).routers[j] == s.routers[j]
  {
    if RouterDue(s, i, s.now) {
      DispatchAdds(s, i, o);
    }
  }

  lemma {:induction false} DispatchPassMoves(s: State, i: nat, choice: int -> Outcome)
    requires i <= |s.routers|
    ensures var s' := DispatchRouters(s, i, choice);
      s'.moves >= s.moves && s.flights <= s'.flights
      && forall j: nat :: i <= j && RouterDue(s, j, s.now) ==> s'.moves > s.moves
    decreases |s.routers| - i
  {
    if i < |s.routers| {
      var o := choice(s.routers[i].id);
      DispatchMoves(s, i, o);
      var next := Dispatch(s, i, o);
      DispatchPassMoves(next, i + 1, choice);
      forall j: nat | i <= j && RouterDue(s, j, s.now) ensures DispatchRouters(s, i, choice).moves > s.moves {
        if j > i {
          assert RouterDue(next, j, next.now);
        }
      }
    }
  }

  lemma {:induction false} AdvanceMoves(s: State, k: nat, dt: int)
    requires k <= |s.flights|
    ensures AdvanceInFlight(s, k, dt).moves >= s.moves
    ensures forall j: nat :: k <= j && FlightDue(s, j, dt) ==> AdvanceInFlight(s, k, dt).moves > s.moves
    decreases |s.flights| - k
  {
    if k < |s.flights| {
      if s.flights[k].remaining - dt > 0 {
        AdvanceMoves(Age(s, k, dt), k + 1, dt);
        forall j: nat | k <= j && FlightDue(s, j, dt) ensures AdvanceInFlight(s, k, dt).moves > s.moves {
          assert FlightDue(Age(s, k, dt), j, dt);
        }
      } else {
        LandCounters(s, k);
        AdvanceMoves(Land(s, k), k, dt);
      }
    }
  }

  /** Timers touch neither links nor what routers already hold. */
  ghost predicate Undisturbed(s: State, t: State) {
    && t.moves == s.moves && t.flights == s.flights && t.now == s.now && |t.routers| == |s.routers|
    && forall j :: 0 <= j < |s.routers| ==>
                     s.routers[j].queue <= t.routers[j].queue && t.routers[j].available == s.routers[j].available
  }

  lemma InjectUndisturbed(s: State, p: Packet)
    ensures Undisturbed(s, Inject(s, p))
  {
  }

  lemma TransmitUndisturbed(s: State, q: int, again: bool)
    ensures Undisturbed(s, Transmit(s, q, again))
  {
    if q < s.cfg.goal {
      var s' := s.(nextPacketId := s.nextPacketId + 1, attempted := s.attempted + {q});
      InjectUndisturbed(s', DataPacket(s, q, again));
      assert Undisturbed(s, InjectData(s, q, again));
    }
  }

  lemma FireUndisturbed(s: State)
    requires s.events != []
    ensures Undisturbed(s, Fire(s))
  {
    match s.events[0].callback
    case SendData(q) => TransmitUndisturbed(Rest(s), q, false);
    case Timeout(q, _) => TransmitUndisturbed(Rest(s), q, true);
  }

  lemma {:induction false} RunDueUndisturbed(s: State)
    ensures Undisturbed(s, RunDueEvents(s))
    decreases DueCount(s.events, s.now)
  {
    if s.events != [] && s.events[0].due <= s.now {
      FireUsesUpDue(s);
      FireUndisturbed(s);
      RunDueUndisturbed(Fire(s));
    }
  }

  /** An update of a running engine that finds a router or a flight due makes at least one move. */
  lemma DueIsMoved(s: State, dt: nat, choice: int -> Outcome, j: nat, k: nat)
    requires s.running && (RouterDue(s, j, s.now + dt) || FlightDue(s, k, dt))
    ensures Update(s, dt, choice).moves > s.moves
  {
    var s1 := Later(s, dt);
    var s2 := RunDueEvents(s1);
    var s3 := DispatchRouters(s2, 0, choice);
    RunDueUndisturbed(s1);
    DispatchPassMoves(s2, 0, choice);
    AdvanceMoves(s3, 0, dt);
    if RouterDue(s, j, s.now + dt) {
      assert RouterDue(s2, j, s2.now);
    } else {
      assert FlightDue(s3, k, dt);
    }
  }

  /** Some router or some flight will be due after dt more. */
  ghost predicate SomethingDue(s: State, dt: nat) {
    SomeRouterDue(s, s.now + dt) || SomeFlightDue(s, dt)
  }

  ghost predicate SomeFlightDue(s: State, dt: int) {
    exists k: nat :: FlightDue(s, k, dt)
  }

  ghost predicate SomeRouterDue(s: State, time: int) {
    exists j: nat :: RouterDue(s, j, time)
  }

  /** An update never takes a move back, and makes one when something is due. */
  lemma UpdateMoves(s: State, dt: nat, choice: int -> Outcome)
    ensures Update(s, dt, choice).moves >= s.moves
    ensures s.running && SomethingDue(s, dt) ==> Update(s, dt, choice).moves > s.moves
  {
    if s.running {
      RunDueUndisturbed(Later(s, dt));
      DispatchPassMoves(RunDueEvents(Later(s, dt)), 0, choice);
      AdvanceMoves(DispatchRouters(RunDueEvents(Later(s, dt)), 0, choice), 0, dt);
      if SomethingDue(s, dt) {
        DueMoves(s, dt, choice);
      }
    }
  }

  lemma DueMoves(s: State, dt: nat, choice: int -> Outcome)
    requires s.running && SomethingDue(s, dt)
    ensures Update(s, dt, choice).moves > s.moves
  {
    var time := s.now + dt;
    if j: nat :| RouterDue(s, j, time) {
      DueIsMoved(s, dt, choice, j, |s.flights|);
    } else {
      var k: nat :| FlightDue(s, k, dt);
      DueIsMoved(s, dt, choice, |s.routers|, k);
    }
  }

  // ---------------------------------------------------------------- stretches of ticks

  ghost predicate AllTicks(ticks: seq<Step>) {
    forall n :: 0 <= n < |ticks| ==> ticks[n].Tick?
  }

  /** The state n ticks after the given steps. */
  ghost function At(c: Config, steps: seq<Step>, ticks: seq<Step>, n: nat): State
    requires n <= |ticks|
  {
    Session(c, steps + ticks[..n])
  }

  lemma SessionSnoc(c: Config, steps: seq<Step>, step: Step)
    ensures Session(c, steps + [step]) == Apply(Session(c, steps), step)
  {
    assert (steps + [step])[..|steps|] == steps;
  }

  lemma TakeOneMore<T>(front: seq<T>, s: seq<T>, n: nat)
    requires n < |s|
    ensures front + s[..n + 1] == front + s[..n] + [s[n]]
  {
    assert s[..n + 1] == s[..n] + [s[n]];
  }

  lemma AtNext(c: Config, steps: seq<Step>, ticks: seq<Step>, n: nat)
    requires n < |ticks| && ticks[n].Tick?
    ensures At(c, steps, ticks, n + 1) == Update(At(c, steps, ticks, n), ticks[n].dt, ticks[n].choice)
  {
    TakeOneMore(steps, ticks, n);
    SessionSnoc(c, steps + ticks[..n], ticks[n]);
  }

  /** How many of the first n ticks found a running engine with something due. */
  ghost function DueTicks(c: Config, steps: seq<Step>, ticks: seq<Step>, n: nat): nat
    requires AllTicks(ticks) && n <= |ticks|
  {
    if n == 0 then 0
    else
      var s := At(c, steps, ticks, n - 1);
      DueTicks(c, steps, ticks, n - 1) + if s.running && SomethingDue(s, ticks[n - 1].dt) then 1 else 0
  }

  lemma DueTickMoves(c: Config, steps: seq<Step>, ticks: seq<Step>, n: nat)
    requires n < |ticks| && ticks[n].Tick?
    ensures var s := At(c, steps, ticks, n);
      At(c, steps, ticks, n + 1).moves >= s.moves + if s.running && SomethingDue(s, ticks[n].dt) then 1 else 0
  {
    AtNext(c, steps, ticks, n);
    UpdateMoves(At(c, steps, ticks, n), ticks[n].dt, ticks[n].choice);
  }

  lemma {:induction false} MovesAtLeastDue(c: Config, steps: seq<Step>, ticks: seq<Step>, n: nat)
    requires AllTicks(ticks) && n <= |ticks|
    ensures At(c, steps, ticks, n).moves >= At(c, steps, ticks, 0).moves + DueTicks(c, steps, ticks, n)
  {
    if n > 0 {
      MovesAtLeastDue(c, steps, ticks, n - 1);
      DueTickMoves(c, steps, ticks, n - 1);
    }
  }

  /**
   * Over any stretch of ticks, busy and idle ones in any order, those that find something due are no more
   * than the transmissions so far pay for and earlier moves have left; and the clock bounds those.
   */
  lemma BusyTicksAreFew(c: Config, steps: seq<Step>, ticks: seq<Step>)
    requires Legal(c, steps + ticks) && AllTicks(ticks)
    ensures Configured(Session(c, steps + ticks).cfg)
    ensures var s := Session(c, steps + ticks);
      && Session(c, steps).moves + DueTicks(c, steps, ticks, |ticks|)
         <= Transmissions(s) * Budget(s.cfg, RoutesOf(s.cfg), true, MOVES)
      && Transmissions(s) <= s.cfg.goal + s.now / RETRANSMISSION_TIMEOUT
  {
    MovesAtLeastDue(c, steps, ticks, |ticks|);
    assert ticks[..|ticks|] == ticks && steps + ticks[..0] == steps;
    NetworkDrains(c, steps + ticks);
    SessionGood(c, steps + ticks);
    FewTransmissions(Session(c, steps + ticks));
  }

  lemma FewTransmissions(s: State)
    requires InOrder(s)
    ensures Transmissions(s) <= s.cfg.goal + s.now / RETRANSMISSION_TIMEOUT
    ensures RETRANSMISSION_TIMEOUT * s.stats.retransmissions <= s.now
  {
  }
}
