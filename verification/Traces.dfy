/**
 * What becomes of every sequence that was sent, on any links: it is delivered, or one of its packets is still in
 * the network, or was lost or filtered and is on record.
 */
module Traces {
  import opened Wrappers
  import opened Packets
  import opened Simulation
  import opened Sums
  import opened Totals
  import opened Network
  import opened Accounts
  import opened Ledger
  import opened ProtocolSteps
  import opened Invariants
  import opened Sessions
  import opened Ranges
  import opened Protocol
  import opened Guarantees
  import opened Progress
  import opened FaithfulLinks

  function Original(p: Packet, q: int): nat {
    if p.kind == Data && p.sequence == q && !p.duplicate then 1 else 0
  }

  /** Packets that the source sent for sequence q and that are not delivered. */
  ghost function Trace(q: int): Weight {
    (it: Item) =>
      match it
      case Queued(_, p) => Original(p, q)
      case Flying(f) => Original(f.packet, q)
      case Logged(e) => if e.Delivered? then 0 else Original(e.packet, q)
  }

  ghost predicate Traced(s: State) {
    forall q {:trigger Trace(q)} :: q in s.attempted && q !in s.delivered ==> Total(s, Trace(q)) > 0
  }

  // ---------------------------------------------------------------- inner steps

  lemma SameTraced(s: State, t: State)
    requires Traced(s) && SameBooks(s, t)
    ensures Traced(t)
  {
    forall q | q in t.attempted && q !in t.delivered ensures Total(t, Trace(q)) > 0 {
      assert Total(s, Trace(q)) > 0;
    }
  }

  lemma TransmitTraced(rs: Routes, s: State, sequence: int, again: bool)
    requires GoodNetwork(s, rs) && Traced(s) && sequence < s.cfg.goal
    ensures Traced(Transmit(s, sequence, again))
  {
    TransmitCounters(s, sequence, again);
    forall q | q in s.attempted + {sequence} && q !in s.delivered
      ensures Total(Transmit(s, sequence, again), Trace(q)) > 0 {
      TransmitTotal(rs, s, sequence, again, Trace(q));
    }
  }

  lemma FireTraced(rs: Routes, s: State)
    requires Good(s, rs) && Traced(s) && s.running && s.events != []
    ensures Traced(Fire(s))
  {
    FireCases(s);
    SameTraced(s, Rest(s));
    if Fired(s).Some? {
      SamePackets(rs, s, Rest(s));
      TransmitTraced(rs, Rest(s), Fired(s).value.0, Fired(s).value.1);
    }
  }

  lemma LaunchedTrace(s: State, p: Packet, start: int, end: int, o: Outcome, q: int)
    ensures Launched(s, p, start, end, o, Trace(q)) >= Original(p, q)
  {
  }

  lemma WaitingTrace(node: int, p: Packet, q: int)
    ensures Trace(q)(Queued(node, p)) == Original(p, q) && Trace(q)(Logged(Filtered(p))) == Original(p, q)
  {
  }

  /** A packet that is filtered leaves its trace on record, and one that is launched on its link. */
  lemma TurnTrace(rs: Routes, s: State, i: nat, o: Outcome, q: int)
    requires GoodNetwork(s, rs) && i < |s.routers| && s.routers[i].queue != [] && s.routers[i].available <= s.now
    ensures Total(Dispatch(s, i, o), Trace(q)) >= Total(s, Trace(q))
  {
    var r := s.routers[i];
    var p, w := r.queue[0], Trace(q);
    DispatchTotal(rs, s, i, o, w);
    WaitingTrace(r.id, p, q);
    LaunchedTrace(s, p, r.id, r.table[p.destination], o, q);
    NoLess(Total(Dispatch(s, i, o), w), Total(s, w), Original(p, q),
           Launched(s, p, r.id, r.table[p.destination], o, w), Filters(s, i));
  }

  lemma NoLess(after: int, before: int, waiting: int, launched: int, filtered: bool)
    requires after + waiting == before + if filtered then waiting else launched
    requires launched >= waiting
    ensures after >= before
  {
  }

  lemma DispatchTrace(rs: Routes, s: State, i: nat, o: Outcome, q: int)
    requires GoodNetwork(s, rs) && i < |s.routers|
    ensures Total(Dispatch(s, i, o), Trace(q)) >= Total(s, Trace(q))
  {
    if s.routers[i].queue != [] && s.routers[i].available <= s.now {
      TurnTrace(rs, s, i, o, q);
    }
  }

  lemma DispatchTraced(rs: Routes, s: State, i: nat, o: Outcome)
    requires GoodNetwork(s, rs) && Traced(s) && i < |s.routers|
    ensures Traced(Dispatch(s, i, o))
  {
    forall q | q in s.attempted && q !in s.delivered ensures Total(Dispatch(s, i, o), Trace(q)) > 0 {
      DispatchTrace(rs, s, i, o, q);
    }
  }

  lemma AgeTraced(s: State, k: nat, dt: int)
    requires Traced(s) && k < |s.flights|
    ensures Traced(Age(s, k, dt))
  {
    forall q | q in s.attempted && q !in s.delivered ensures Total(Age(s, k, dt), Trace(q)) > 0 {
      AgeTotal(s, k, dt, Trace(q));
    }
  }

  lemma LandedTrace(s: State, f: Flight, q: int)
    ensures Landed(s, f, Trace(q)) >= Trace(q)(Flying(f)) || (Delivers(f) && f.packet.sequence == q)
  {
  }

  lemma LandTrace(rs: Routes, s: State, k: nat, q: int)
    requires GoodNetwork(s, rs) && k < |s.flights|
    ensures Total(Land(s, k), Trace(q)) >= Total(s, Trace(q)) || q in Land(s, k).delivered
  {
    LandTotal(rs, s, k, Trace(q));
    LandedTrace(s, s.flights[k], q);
    LandCounters(s, k);
  }

  lemma LandTraced(rs: Routes, s: State, k: nat)
    requires GoodNetwork(s, rs) && Traced(s) && k < |s.flights|
    ensures Traced(Land(s, k))
  {
    LandCounters(s, k);
    forall q | q in s.attempted && q !in Land(s, k).delivered ensures Total(Land(s, k), Trace(q)) > 0 {
      LandTrace(rs, s, k, q);
      assert Total(s, Trace(q)) > 0;
    }
  }

  // ---------------------------------------------------------------- packets lost on links

  /** Packets that were lost on a link or are on one that loses them, duplicates left out. */
  ghost function Losts(): Weight {
    (it: Item) =>
      match it
      case Queued(_, _) => 0
      case Flying(f) => if f.dropped && !f.packet.duplicate then 1 else 0
      case Logged(e) => if e.Lost? && !e.packet.duplicate then 1 else 0
  }

  ghost function Losses(s: State): nat {
    Total(s, Losts())
  }

  lemma TransmitLosses(rs: Routes, s: State, sequence: int, again: bool)
    requires GoodNetwork(s, rs)
    ensures Losses(Transmit(s, sequence, again)) == Losses(s)
  {
    TransmitTotal(rs, s, sequence, again, Losts());
  }

  lemma LaunchedLosses(s: State, p: Packet, start: int, end: int, o: Outcome)
    ensures Launched(s, p, start, end, o, Losts()) <= if o.dropped then 1 else 0
  {
  }

  lemma NotLostYet(node: int, p: Packet)
    ensures Losts()(Queued(node, p)) == 0 && Losts()(Logged(Filtered(p))) == 0
  {
  }

  lemma DispatchLosses(rs: Routes, s: State, i: nat, o: Outcome)
    requires GoodNetwork(s, rs) && i < |s.routers|
    ensures Losses(s) <= Losses(Dispatch(s, i, o)) <= Losses(s) + if o.dropped then 1 else 0
  {
    if s.routers[i].queue != [] && s.routers[i].available <= s.now {
      var r := s.routers[i];
      DispatchTotal(rs, s, i, o, Losts());
      NotLostYet(r.id, r.queue[0]);
      LaunchedLosses(s, r.queue[0], r.id, r.table[r.queue[0].destination], o);
    }
  }

  lemma AgeLosses(s: State, k: nat, dt: int)
    requires k < |s.flights|
    ensures Losses(Age(s, k, dt)) == Losses(s)
  {
    AgeTotal(s, k, dt, Losts());
  }

  lemma LandedLosses(s: State, f: Flight)
    ensures Landed(s, f, Losts()) == Losts()(Flying(f))
  {
  }

  lemma LandLosses(rs: Routes, s: State, k: nat)
    requires GoodNetwork(s, rs) && k < |s.flights|
    ensures Losses(Land(s, k)) == Losses(s)
  {
    LandTotal(rs, s, k, Losts());
    LandedLosses(s, s.flights[k]);
  }

  lemma SameLosses(s: State, t: State)
    requires SameBooks(s, t)
    ensures Losses(t) == Losses(s)
  {
  }

  lemma FireLosses(rs: Routes, s: State)
    requires Good(s, rs) && s.running && s.events != []
    ensures Losses(Fire(s)) == Losses(s)
  {
    FireCases(s);
    SameLosses(s, Rest(s));
    if Fired(s).Some? {
      SamePackets(rs, s, Rest(s));
      TransmitLosses(rs, Rest(s), Fired(s).value.0, Fired(s).value.1);
    }
  }

  // ---------------------------------------------------------------- every session

  /** Every sequence has left its trace, and if links are to lose nothing, nothing has been lost. */
  ghost function TracedIn(rs: Routes, c: Config, faithful: bool): State -> bool {
    (s: State) => Good(s, rs) && s.cfg == c && Traced(s) && (faithful ==> Losses(s) == 0)
  }

  function Luck(faithful: bool): Outcome -> bool {
    (o: Outcome) => faithful ==> !o.dropped
  }

  lemma TracedByEvents(rs: Routes, c: Config, faithful: bool)
    ensures KeptByTime(TracedIn(rs, c, faithful)) && KeptByFiring(TracedIn(rs, c, faithful))
  {
    var p := TracedIn(rs, c, faithful);
    assert KeptByTime(p) by {
      forall t: State, dt: nat | p(t) ensures p(Later(t, dt)) {
        ClockGood(t, rs, dt);
        SameTraced(t, Later(t, dt));
      }
      forall t: State | p(t) ensures p(FinishRun(t)) {
        FinishGood(t, rs);
        SameTraced(t, FinishRun(t));
      }
    }
    assert KeptByFiring(p) by {
      forall t: State | p(t) && t.running && t.events != [] && t.events[0].due <= t.now
        ensures p(Fire(t)) && Fire(t).running {
        FireGood(t, rs);
        FireTraced(rs, t);
        FireLosses(rs, t);
      }
    }
  }

  lemma DispatchStep(rs: Routes, c: Config, faithful: bool, t: State, i: nat, o: Outcome)
    requires TracedIn(rs, c, faithful)(t) && i < |t.routers| && Luck(faithful)(o)
    ensures TracedIn(rs, c, faithful)(Dispatch(t, i, o)) && Dispatch(t, i, o).running == t.running
  {
    DispatchGood(t, rs, i, o);
    DispatchTraced(rs, t, i, o);
    DispatchLosses(rs, t, i, o);
  }

  lemma AgeStep(rs: Routes, c: Config, faithful: bool, t: State, k: nat, dt: nat)
    requires TracedIn(rs, c, faithful)(t) && k < |t.flights|
    ensures TracedIn(rs, c, faithful)(Age(t, k, dt)) && Age(t, k, dt).running == t.running
  {
    AgeGood(t, rs, k, dt);
    AgeTraced(t, k, dt);
    AgeLosses(t, k, dt);
  }

  lemma LandStep(rs: Routes, c: Config, faithful: bool, t: State, k: nat)
    requires TracedIn(rs, c, faithful)(t) && t.running && k < |t.flights|
    ensures TracedIn(rs, c, faithful)(Land(t, k)) && Land(t, k).running
  {
    LandGood(t, rs, k);
    LandTraced(rs, t, k);
    LandLosses(rs, t, k);
  }

  lemma TracedByLinks(rs: Routes, c: Config, faithful: bool)
    ensures KeptByDispatch(TracedIn(rs, c, faithful), Luck(faithful)) && KeptByFlights(TracedIn(rs, c, faithful))
  {
    var p := TracedIn(rs, c, faithful);
    assert KeptByDispatch(p, Luck(faithful)) by {
      forall t: State, i: nat, o: Outcome | p(t) && i < |t.routers| && Luck(faithful)(o)
        ensures p(Dispatch(t, i, o)) && Dispatch(t, i, o).running == t.running {
        DispatchStep(rs, c, faithful, t, i, o);
      }
    }
    assert KeptByFlights(p) by {
      forall t: State, k: nat, dt: nat | p(t) && k < |t.flights|
        ensures p(Age(t, k, dt)) && Age(t, k, dt).running == t.running {
        AgeStep(rs, c, faithful, t, k, dt);
      }
      forall t: State, k: nat | p(t) && t.running && k < |t.flights| ensures p(Land(t, k)) && Land(t, k).running {
        LandStep(rs, c, faithful, t, k);
      }
    }
  }

  lemma UpdateTraced(s: State, rs: Routes, faithful: bool, dt: nat, choice: int -> Outcome)
    requires TracedIn(rs, s.cfg, faithful)(s) && forall id :: Luck(faithful)(choice(id))
    ensures TracedIn(rs, s.cfg, faithful)(Update(s, dt, choice)) && Update(s, dt, choice).cfg == s.cfg
  {
    TracedByEvents(rs, s.cfg, faithful);
    TracedByLinks(rs, s.cfg, faithful);
    UpdateKeeps(TracedIn(rs, s.cfg, faithful), Luck(faithful), s, dt, choice);
  }

  ghost predicate LeavesTraces(s: State, faithful: bool) {
    Configured(s.cfg) && TracedIn(RoutesOf(s.cfg), s.cfg, faithful)(s)
  }

  lemma FreshTraced(s: State, faithful: bool)
    requires Configured(s.cfg) && Good(s, RoutesOf(s.cfg)) && Fresh(s)
    ensures LeavesTraces(s, faithful)
  {
    FreshTotal(s, Losts());
  }

  lemma {:induction false} SessionTraced(c: Config, steps: seq<Step>, faithful: bool)
    requires Legal(c, steps) && (faithful ==> Faithful(steps))
    ensures LeavesTraces(Session(c, steps), faithful)
  {
    if steps == [] {
      FreshReset(c);
      FreshTraced(Reset(c), faithful);
    } else {
      var front, step := steps[..|steps| - 1], steps[|steps| - 1];
      SessionTraced(c, front, faithful);
      StepTraced(Session(c, front), step, faithful);
    }
  }

  lemma StepTraced(s: State, step: Step, faithful: bool)
    requires LeavesTraces(s, faithful)
    requires faithful && step.Tick? ==> forall id :: Intact()(step.choice(id))
    requires step.Configure? ==> Configured(step.cfg)
    ensures LeavesTraces(Apply(s, step), faithful)
  {
    match step
    case Start =>
      FreshStart(s.cfg);
      StartIsFresh(s.cfg);
      FreshTraced(StartRun(s.cfg), faithful);
    case Tick(dt, choice) =>
      UpdateTraced(s, RoutesOf(s.cfg), faithful, dt, choice);
    case Configure(c) =>
      FreshReset(c);
      FreshTraced(Reset(c), faithful);
  }

  // ---------------------------------------------------------------- the end of a run

  /** The log says that a packet of sequence q was lost or filtered. */
  ghost predicate OnRecord(log: seq<PacketEvent>, q: int) {
    exists k :: 0 <= k < |log| && !log[k].Delivered? && Original(log[k].packet, q) == 1
  }

  lemma IdleTrace(s: State, q: int)
    requires NetworkIdle(s) && !OnRecord(s.log, q)
    ensures Total(s, Trace(q)) == 0
  {
    forall i | 0 <= i < |s.routers| ensures RouterWeight(Trace(q))(s.routers[i]) == 0 {
      assert s.routers[i].queue == [];
    }
    SumZero(s.routers, RouterWeight(Trace(q)));
    SumZero(s.log, LogWeight(Trace(q)));
  }

  /**
   * A run that ends before the time limit has, for every sequence that was sent, either delivered it or a packet
   * of it on record as lost or filtered.
   */
  lemma NothingVanishes(c: Config, steps: seq<Step>, dt: nat, choice: int -> Outcome)
    requires Legal(c, steps) && Session(c, steps).running
    requires !Update(Session(c, steps), dt, choice).running && Update(Session(c, steps), dt, choice).now < MAX_RUNTIME
    ensures var s := Update(Session(c, steps), dt, choice);
      forall q :: q in s.attempted ==> q in s.delivered || OnRecord(s.log, q)
  {
    var s, steps' := Update(Session(c, steps), dt, choice), steps + [Tick(dt, choice)];
    EarlyEndMeansDone(c, steps, dt, choice);
    SessionSnoc(c, steps, Tick(dt, choice));
    SessionTraced(c, steps', false);
    forall q | q in s.attempted && q !in s.delivered ensures OnRecord(s.log, q) {
      if !OnRecord(s.log, q) {
        IdleTrace(s, q);
      }
    }
  }

  /** What is on no link that loses it, and passes no firewall, is on record as neither. */
  lemma NothingOnRecord(s: State, rs: Routes, q: int)
    requires GoodNetwork(s, rs) && Unfiltered(s.cfg, rs) && Losses(s) == 0
    ensures !OnRecord(s.log, q)
  {
    forall k | 0 <= k < |s.log| && !s.log[k].Delivered? ensures Original(s.log[k].packet, q) == 0 {
      SumRemove(s.log, k, LogWeight(Losts()));
      if Blocks(s.cfg) {
        FirewallHolds(s, rs);
      } else {
        NothingIsFiltered(s, rs);
      }
    }
  }

  lemma SentIsDelivered(s: State, rs: Routes)
    requires GoodNetwork(s, rs) && InOrder(s) && Unfiltered(s.cfg, rs) && Losses(s) == 0 && s.cfg.mode == UDP
    requires forall q :: q in s.attempted ==> q in s.delivered || OnRecord(s.log, q)
    ensures s.delivered == s.attempted
  {
    forall q | 0 <= q < |s.attempted| ensures q in s.delivered {
      InRange(|s.attempted|, q);
      NothingOnRecord(s, rs, q);
    }
    RangeWithin(|s.attempted|, s.delivered);
  }

  /** On links that lose nothing but duplicates, an unfiltered UDP run that ends early has delivered everything. */
  lemma UdpDelivers(c: Config, steps: seq<Step>, dt: nat, choice: int -> Outcome)
    requires Legal(c, steps) && Faithful(steps + [Tick(dt, choice)]) && Session(c, steps).running
    requires !Update(Session(c, steps), dt, choice).running && Update(Session(c, steps), dt, choice).now < MAX_RUNTIME
    ensures Configured(Update(Session(c, steps), dt, choice).cfg)
    ensures var s := Update(Session(c, steps), dt, choice);
      s.cfg.mode == UDP && Unfiltered(s.cfg, RoutesOf(s.cfg)) ==> |s.delivered| == s.cfg.goal
  {
    NothingVanishes(c, steps, dt, choice);
    EarlyEndMeansDone(c, steps, dt, choice);
    SessionSnoc(c, steps, Tick(dt, choice));
    SessionTraced(c, steps + [Tick(dt, choice)], true);
    var s := Update(Session(c, steps), dt, choice);
    if s.cfg.mode == UDP && Unfiltered(s.cfg, RoutesOf(s.cfg)) {
      SentIsDelivered(s, RoutesOf(s.cfg));
    }
  }
}
