/** Everything that holds of the engine between any two of its inner steps, carried through whole updates. */
module Invariants {
  import opened Packets
  import opened Simulation
  import opened Totals
  import opened Network
  import opened NetworkSteps
  import opened Ledger
  import opened Drain
  import opened Protocol
  import opened ProtocolSteps

  /** Only what was seen to arrive counts as delivered. */
  ghost predicate Witnessed(s: State) {
    forall q :: q in s.delivered ==> Witness(s.log, q)
  }

  ghost predicate Witness(log: seq<PacketEvent>, q: int) {
    exists k :: 0 <= k < |log| && log[k].Delivered? && log[k].packet.kind == Data && log[k].packet.sequence == q
  }

  ghost predicate Good(s: State, rs: Routes) {
    && GoodNetwork(s, rs) && 1 <= s.cfg.goal
    && Census(s) && Statistics(s)
    && PaidFor(s, rs, true, PACKETS) && PaidFor(s, rs, true, MOVES)
    && ProtocolOk(s) && Witnessed(s)
  }

  // ---------------------------------------------------------------- inner steps

  lemma WitnessLonger(log: seq<PacketEvent>, log': seq<PacketEvent>, q: int)
    requires Witness(log, q) && log <= log'
    ensures Witness(log', q)
  {
    var k :| 0 <= k < |log| && log[k].Delivered? && log[k].packet.kind == Data && log[k].packet.sequence == q;
    assert log'[k] == log[k];
  }

  lemma WitnessesStay(s: State, s': State)
    requires Witnessed(s) && s.log <= s'.log && s'.delivered == s.delivered
    ensures Witnessed(s')
  {
    forall q | q in s'.delivered ensures Witness(s'.log, q) {
      WitnessLonger(s.log, s'.log, q);
    }
  }

  /** s' differs from s at most in its clock, its timers and its flags. */
  ghost predicate SameBooks(s: State, s': State) {
    && s'.cfg == s.cfg && s'.failed == s.failed && s'.nextPacketId == s.nextPacketId
    && s'.routers == s.routers && s'.flights == s.flights && s'.log == s.log && s'.moves == s.moves
    && s'.attempted == s.attempted && s'.delivered == s.delivered
    && s'.stats == s.stats.(endTime := s'.stats.endTime)
  }

  lemma SameCensus(s: State, s': State)
    requires Census(s) && SameBooks(s, s')
    ensures Census(s')
  {
    forall x ensures Total(s', IdIs(x)) == if 1 <= x < s'.nextPacketId then 1 else 0 {
      assert Total(s, IdIs(x)) == if 1 <= x < s.nextPacketId then 1 else 0;
    }
  }

  lemma SamePaid(s: State, s': State, rs: Routes, t: Toll)
    requires SameBooks(s, s') && PaidFor(s, rs, true, t)
    ensures PaidFor(s', rs, true, t)
  {
  }

  lemma SameRest(s: State, s': State, rs: Routes)
    requires SameBooks(s, s') && GoodNetwork(s, rs) && Witnessed(s) && Statistics(s)
    requires PaidFor(s, rs, true, PACKETS) && PaidFor(s, rs, true, MOVES)
    ensures GoodNetwork(s', rs) && Witnessed(s') && Statistics(s')
    ensures PaidFor(s', rs, true, PACKETS) && PaidFor(s', rs, true, MOVES)
  {
    SamePackets(rs, s, s');
    WitnessesStay(s, s');
    SamePaid(s, s', rs, PACKETS);
    SamePaid(s, s', rs, MOVES);
  }

  lemma SameBooksGood(s: State, s': State, rs: Routes)
    requires Good(s, rs) && SameBooks(s, s') && ProtocolOk(s')
    ensures Good(s', rs)
  {
    SameCensus(s, s');
    SameRest(s, s', rs);
  }

  lemma FireGood(s: State, rs: Routes)
    requires Good(s, rs) && s.running && s.events != [] && s.events[0].due <= s.now
    ensures Good(Fire(s), rs) && Fire(s).running && Fire(s).cfg == s.cfg
  {
    FireStaysOk(s);
    FireCases(s);
    SameCensus(s, Rest(s));
    SameRest(s, Rest(s), rs);
    FireKeeps(rs, s);
    if Fired(s).Some? {
      var (q, again) := Fired(s).value;
      TransmitBalances(rs, Rest(s), q, again);
      TransmitPays(rs, Rest(s), q, again, true, PACKETS);
      TransmitPays(rs, Rest(s), q, again, true, MOVES);
      TransmitCounters(Rest(s), q, again);
      WitnessesStay(Rest(s), Fire(s));
    }
  }

  lemma DispatchGood(s: State, rs: Routes, i: nat, o: Outcome)
    requires Good(s, rs) && i < |s.routers|
    ensures Good(Dispatch(s, i, o), rs) && Dispatch(s, i, o).running == s.running
  {
    DispatchKeeps(rs, s, i, o);
    DispatchBalances(rs, s, i, o);
    DispatchPays(rs, s, i, o, true, PACKETS);
    DispatchPays(rs, s, i, o, true, MOVES);
    DispatchStaysOk(s, i, o);
    WitnessesStay(s, Dispatch(s, i, o));
  }

  lemma AgeGood(s: State, rs: Routes, k: nat, dt: int)
    requires Good(s, rs) && k < |s.flights|
    ensures Good(Age(s, k, dt), rs) && Age(s, k, dt).running == s.running
  {
    AgeKeeps(rs, s, k, dt);
    AgeBalances(s, k, dt);
    AgePays(rs, s, k, dt, true, PACKETS);
    AgePays(rs, s, k, dt, true, MOVES);
    AgeStaysOk(s, k, dt);
  }

  lemma LandWitnessed(s: State, rs: Routes, k: nat)
    requires GoodNetwork(s, rs) && Witnessed(s) && k < |s.flights|
    ensures Witnessed(Land(s, k))
  {
    var f, s' := s.flights[k], Land(s, k);
    LandCounters(s, k);
    LandLog(s, k);
    forall q | q in s'.delivered ensures Witness(s'.log, q) {
      if q in s.delivered {
        WitnessLonger(s.log, s'.log, q);
      } else {
        assert s'.log[|s.log|] == Delivered(Arrived(f));
      }
    }
  }

  lemma LandLog(s: State, k: nat)
    requires k < |s.flights|
    ensures s.log <= Land(s, k).log
    ensures Delivers(s.flights[k]) ==> Land(s, k).log == s.log + [Delivered(Arrived(s.flights[k]))]
  {
    var f := s.flights[k];
    var s1 := Ended(s, k).(log := s.log + [Delivered(Arrived(f))]);
    if Delivers(f) {
      DataLog(s1, f.packet.sequence);
    }
  }

  lemma DataLog(s: State, q: int)
    ensures OnDataReceived(s, q).log == s.log
  {
  }

  lemma LandGood(s: State, rs: Routes, k: nat)
    requires Good(s, rs) && s.running && k < |s.flights|
    ensures Good(Land(s, k), rs) && Land(s, k).running && Land(s, k).cfg == s.cfg
  {
    LandKeeps(rs, s, k);
    LandBalances(rs, s, k);
    LandPays(rs, s, k, true, PACKETS);
    LandPays(rs, s, k, true, MOVES);
    LandStaysOk(rs, s, k);
    LandWitnessed(s, rs, k);
    LandCounters(s, k);
  }

  // ---------------------------------------------------------------- whole updates

  ghost predicate KeptByTime(p: State -> bool) {
    && (forall s: State, dt: nat {:trigger Later(s, dt)} :: p(s) ==> p(Later(s, dt)))
    && (forall s: State {:trigger FinishRun(s)} :: p(s) ==> p(FinishRun(s)))
  }

  ghost predicate KeptByFiring(p: State -> bool) {
    forall s: State {:trigger Fire(s)} ::
      p(s) && s.running && s.events != [] && s.events[0].due <= s.now ==> p(Fire(s)) && Fire(s).running
  }

  /** Any luck at all. */
  function Anything(): Outcome -> bool {
    o => true
  }

  ghost predicate KeptByDispatch(p: State -> bool, allowed: Outcome -> bool) {
    forall s: State, i: nat, o: Outcome {:trigger Dispatch(s, i, o)} ::
      p(s) && i < |s.routers| && allowed(o) ==> p(Dispatch(s, i, o)) && Dispatch(s, i, o).running == s.running
  }

  ghost predicate KeptByFlights(p: State -> bool) {
    && (forall s: State, k: nat, dt: nat {:trigger Age(s, k, dt)} ::
          p(s) && k < |s.flights| ==> p(Age(s, k, dt)) && Age(s, k, dt).running == s.running)
    && (forall s: State, k: nat {:trigger Land(s, k)} ::
          p(s) && s.running && k < |s.flights| ==> p(Land(s, k)) && Land(s, k).running)
  }

  lemma {:induction false} RunDueKeeps(p: State -> bool, s: State)
    requires KeptByFiring(p) && p(s) && s.running
    ensures p(RunDueEvents(s)) && RunDueEvents(s).running
    decreases DueCount(s.events, s.now)
  {
    if s.events != [] && s.events[0].due <= s.now {
      FireUsesUpDue(s);
      RunDueKeeps(p, Fire(s));
    }
  }

  /** Whatever each router's turn carries from its number to the next holds after a pass over the routers. */
  ghost predicate KeptByTurns(p: (State, int) -> bool, allowed: (int, Outcome) -> bool) {
    forall s: State, i: nat, o: Outcome {:trigger Dispatch(s, i, o)} ::
      p(s, i) && i < |s.routers| && allowed(s.routers[i].id, o) ==> p(Dispatch(s, i, o), i + 1)
  }

  lemma {:induction false} TurnsKeep(p: (State, int) -> bool, allowed: (int, Outcome) -> bool, s: State, i: nat,
                                     choice: int -> Outcome)
    requires KeptByTurns(p, allowed) && p(s, i) && i <= |s.routers| && forall id :: allowed(id, choice(id))
    ensures var t := DispatchRouters(s, i, choice); |t.routers| == |s.routers| && p(t, |t.routers|)
    decreases |s.routers| - i
  {
    if i < |s.routers| {
      TurnsKeep(p, allowed, Dispatch(s, i, choice(s.routers[i].id)), i + 1, choice);
    }
  }

  /** The same for the flights, which get older or end. */
  ghost predicate KeptByEnds(p: (State, int) -> bool, dt: nat) {
    && (forall s: State, k: nat {:trigger Age(s, k, dt)} ::
          p(s, k) && k < |s.flights| && s.flights[k].remaining - dt > 0 ==> p(Age(s, k, dt), k + 1))
    && (forall s: State, k: nat {:trigger Land(s, k)} ::
          p(s, k) && k < |s.flights| && s.flights[k].remaining - dt <= 0 ==> p(Land(s, k), k))
  }

  lemma {:induction false} EndsKeep(p: (State, int) -> bool, s: State, k: nat, dt: nat)
    requires KeptByEnds(p, dt) && p(s, k) && k <= |s.flights|
    ensures var t := AdvanceInFlight(s, k, dt); p(t, |t.flights|)
    decreases |s.flights| - k
  {
    if k < |s.flights| {
      if s.flights[k].remaining - dt > 0 {
        EndsKeep(p, Age(s, k, dt), k + 1, dt);
      } else {
        EndsKeep(p, Land(s, k), k, dt);
      }
    }
  }

  lemma DispatchRoutersKeeps(p: State -> bool, allowed: Outcome -> bool, s: State, i: nat, choice: int -> Outcome)
    requires KeptByDispatch(p, allowed) && p(s) && i <= |s.routers|
    requires forall id :: allowed(choice(id))
    ensures p(DispatchRouters(s, i, choice)) && DispatchRouters(s, i, choice).running == s.running
  {
    TurnsKeep((t: State, j: int) => p(t) && t.running == s.running, (id, o) => allowed(o), s, i, choice);
  }

  lemma AdvanceKeeps(p: State -> bool, s: State, k: nat, dt: nat)
    requires KeptByFlights(p) && p(s) && s.running && k <= |s.flights|
    ensures p(AdvanceInFlight(s, k, dt)) && AdvanceInFlight(s, k, dt).running
  {
    EndsKeep((t: State, j: int) => p(t) && t.running, s, k, dt);
  }

  lemma FrameKeeps(p: State -> bool, allowed: Outcome -> bool, s: State, dt: nat, choice: int -> Outcome)
    requires KeptByTime(p) && KeptByFiring(p) && KeptByDispatch(p, allowed) && KeptByFlights(p)
    requires p(s) && s.running && forall id :: allowed(choice(id))
    ensures p(Frame(s, dt, choice)) && Frame(s, dt, choice).running
  {
    var s1 := Later(s, dt);
    RunDueKeeps(p, s1);
    DispatchRoutersKeeps(p, allowed, RunDueEvents(s1), 0, choice);
    AdvanceKeeps(p, DispatchRouters(RunDueEvents(s1), 0, choice), 0, dt);
  }

  /** Whatever every inner step keeps under the luck allowed, a whole update keeps. */
  lemma UpdateKeeps(p: State -> bool, allowed: Outcome -> bool, s: State, dt: nat, choice: int -> Outcome)
    requires KeptByTime(p) && KeptByFiring(p) && KeptByDispatch(p, allowed) && KeptByFlights(p)
    requires p(s) && forall id :: allowed(choice(id))
    ensures p(Update(s, dt, choice))
  {
    if s.running {
      FrameKeeps(p, allowed, s, dt, choice);
    }
  }

  lemma ClockGood(s: State, rs: Routes, dt: nat)
    requires Good(s, rs)
    ensures Good(Later(s, dt), rs)
  {
    LaterStaysOk(s, dt);
    SameBooksGood(s, Later(s, dt), rs);
  }

  lemma FinishGood(s: State, rs: Routes)
    requires Good(s, rs)
    ensures Good(FinishRun(s), rs)
  {
    SameBooksGood(s, FinishRun(s), rs);
  }

  /** Being good, as a property the generic lemmas above can carry. */
  ghost function GoodIn(rs: Routes, c: Config): State -> bool {
    (t: State) => Good(t, rs) && t.cfg == c
  }

  lemma GoodIsKept(rs: Routes, c: Config)
    ensures KeptByTime(GoodIn(rs, c)) && KeptByFiring(GoodIn(rs, c))
    ensures KeptByDispatch(GoodIn(rs, c), Anything()) && KeptByFlights(GoodIn(rs, c))
  {
    var p := GoodIn(rs, c);
    assert KeptByTime(p) by {
      forall t: State, d: nat | p(t) ensures p(Later(t, d)) { ClockGood(t, rs, d); }
      forall t: State | p(t) ensures p(FinishRun(t)) { FinishGood(t, rs); }
    }
    assert KeptByFiring(p) by {
      forall t: State | p(t) && t.running && t.events != [] && t.events[0].due <= t.now
        ensures p(Fire(t)) && Fire(t).running { FireGood(t, rs); }
    }
    assert KeptByDispatch(p, Anything()) by {
      forall t: State, i: nat, o: Outcome | p(t) && i < |t.routers|
        ensures p(Dispatch(t, i, o)) && Dispatch(t, i, o).running == t.running { DispatchGood(t, rs, i, o); }
    }
    assert KeptByFlights(p) by {
      forall t: State, k: nat, d: nat | p(t) && k < |t.flights|
        ensures p(Age(t, k, d)) && Age(t, k, d).running == t.running { AgeGood(t, rs, k, d); }
      forall t: State, k: nat | p(t) && t.running && k < |t.flights|
        ensures p(Land(t, k)) && Land(t, k).running { LandGood(t, rs, k); }
    }
  }

  lemma UpdateGood(s: State, rs: Routes, dt: nat, choice: int -> Outcome)
    requires Good(s, rs)
    ensures Good(Update(s, dt, choice), rs) && Update(s, dt, choice).cfg == s.cfg
  {
    GoodIsKept(rs, s.cfg);
    UpdateKeeps(GoodIn(rs, s.cfg), Anything(), s, dt, choice);
  }
}
