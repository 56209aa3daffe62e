/**
 * Links that lose nothing, however slow they are and whatever they duplicate: somebody is always on the way
 * for the sequence that is waited for, and an empty network of an unfinished run is only pausing.
 */
module FaithfulLinks {
  import opened Wrappers
  import opened Packets
  import opened Simulation
  import opened Sums
  import opened Totals
  import opened Network
  import opened Accounts
  import opened Ledger
  import opened Protocol
  import opened ProtocolSteps
  import opened Invariants
  import opened Sessions
  import opened Idle

  /** Packets in the network that carry or acknowledge sequence q, and will not be lost on the link they are on. */
  ghost function Carries(q: int): Weight {
    (it: Item) =>
      match it
      case Queued(_, p) => if p.sequence == q then 1 else 0
      case Flying(f) => if f.packet.sequence == q && !f.dropped then 1 else 0
      case Logged(_) => 0
  }

  /** Somebody is on the way for the sequence that is waited for. */
  ghost predicate Awaited(s: State) {
    s.awaiting.Some? ==> Total(s, Carries(s.awaiting.value)) > 0
  }

  /** No firewall stops the data: the rule does not match it or stands where it does not pass. */
  ghost predicate Unfiltered(c: Config, rs: Routes) {
    |rs.data| > 0 && (Blocks(c) ==> c.firewall.value !in rs.data[..|rs.data| - 1])
  }

  ghost predicate OpenTcp(c: Config, rs: Routes) {
    c.mode == TCP && Unfiltered(c, rs)
  }

  ghost predicate Lossless(s: State, rs: Routes) {
    OpenTcp(s.cfg, rs) ==> Awaited(s)
  }

  /** A run that is still to be finished, with no firewall in its way. */
  ghost predicate Open(s: State, rs: Routes) {
    OpenTcp(s.cfg, rs) && s.running && !s.completed
  }

  /** The link does not lose the packet; what becomes of a duplicate does not matter. */
  function Intact(): Outcome -> bool {
    (o: Outcome) => !o.dropped
  }

  // ---------------------------------------------------------------- inner steps on faithful links

  lemma SameLossless(s: State, s': State, rs: Routes)
    requires SameBooks(s, s') && s'.awaiting == s.awaiting && Lossless(s, rs)
    ensures Lossless(s', rs)
  {
  }

  lemma TransmitLossless(s: State, rs: Routes, q: int, again: bool)
    requires GoodNetwork(s, rs) && Lossless(s, rs) && s.stats.retransmissions >= 0
    requires q < s.cfg.goal && (again <==> q in s.attempted)
    ensures Lossless(Transmit(s, q, again), rs)
  {
    TransmitCounters(s, q, again);
    if OpenTcp(s.cfg, rs) {
      TransmitAwaited(s, rs, q, again);
    }
  }

  lemma TransmitAwaited(s: State, rs: Routes, q: int, again: bool)
    requires GoodNetwork(s, rs) && q < s.cfg.goal && s.cfg.mode == TCP
    ensures Awaited(Transmit(s, q, again))
  {
    TransmitTotal(rs, s, q, again, Carries(q));
    TransmitTimers(s, q, again);
  }

  lemma FireLossless(s: State, rs: Routes)
    requires Good(s, rs) && Lossless(s, rs) && s.running && s.events != []
    ensures Lossless(Fire(s), rs)
  {
    FireCases(s);
    SameLossless(s, Rest(s), rs);
    if Fired(s).Some? {
      var (q, again) := Fired(s).value;
      SamePackets(rs, s, Rest(s));
      TransmitLossless(Rest(s), rs, q, again);
    }
  }

  lemma NotFiltered(s: State, rs: Routes, i: nat)
    requires GoodNetwork(s, rs) && OpenTcp(s.cfg, rs) && i < |s.routers| && s.routers[i].queue != []
    ensures !Filters(s, i)
  {
    var r := s.routers[i];
    assert RouterOk(s.cfg, rs, s.attempted, s.delivered, r);
    var p := r.queue[0];
    assert QueuedOk(s.cfg, rs, s.attempted, s.delivered, r.id, p);
    if p.kind == Data {
      Prefix(p.history, rs.data);
      assert rs.data[..|rs.data| - 1][|p.history| - 1] == r.id;
    }
  }

  lemma DispatchAwaited(s: State, rs: Routes, i: nat, o: Outcome)
    requires GoodNetwork(s, rs) && Awaited(s) && i < |s.routers| && OpenTcp(s.cfg, rs) && !o.dropped
    requires s.routers[i].queue != [] && s.routers[i].available <= s.now
    ensures Awaited(Dispatch(s, i, o))
  {
    NotFiltered(s, rs, i);
    if s.awaiting.Some? {
      DispatchTotal(rs, s, i, o, Carries(s.awaiting.value));
    }
  }

  lemma DispatchLossless(s: State, rs: Routes, i: nat, o: Outcome)
    requires GoodNetwork(s, rs) && Lossless(s, rs) && i < |s.routers| && Intact()(o)
    ensures Lossless(Dispatch(s, i, o), rs)
  {
    if s.routers[i].queue != [] && s.routers[i].available <= s.now {
      if OpenTcp(s.cfg, rs) {
        DispatchAwaited(s, rs, i, o);
      }
    }
  }

  lemma AgeLossless(s: State, rs: Routes, k: nat, dt: nat)
    requires Lossless(s, rs) && k < |s.flights|
    ensures Lossless(Age(s, k, dt), rs)
  {
    if s.awaiting.Some? {
      AgeTotal(s, k, dt, Carries(s.awaiting.value));
    }
  }

  /** What a flight for sequence q becomes is for sequence q, until its acknowledgement is home. */
  lemma LandedCarries(s: State, f: Flight, q: int)
    requires !f.dropped && s.cfg.mode == TCP
    ensures f.end != f.packet.destination || f.packet.kind == Data ==>
              Landed(s, f, Carries(q)) == Carries(q)(Flying(f))
  {
  }

  lemma LandAwaited(s: State, rs: Routes, k: nat)
    requires GoodNetwork(s, rs) && Awaited(s) && k < |s.flights| && OpenTcp(s.cfg, rs)
    ensures Awaited(Land(s, k))
  {
    var f, s' := s.flights[k], Land(s, k);
    assert FlightOk(s.cfg, rs, s.attempted, s.delivered, f);
    LandTimers(s, k);
    if s'.awaiting.Some? {
      var q := s'.awaiting.value;
      LandTotal(rs, s, k, Carries(q));
      if !f.dropped {
        LandedCarries(s, f, q);
      }
      LandAwaiting(s, k);
    }
  }

  lemma LandAwaiting(s: State, k: nat)
    requires k < |s.flights| && Land(s, k).awaiting.Some?
    ensures s.awaiting == Land(s, k).awaiting
    ensures var f := s.flights[k];
      !f.dropped && f.end == f.packet.destination && f.packet.kind == Ack ==> f.packet.ackFor != s.awaiting
  {
    LandTimers(s, k);
  }

  lemma LandLossless(s: State, rs: Routes, k: nat)
    requires GoodNetwork(s, rs) && Lossless(s, rs) && k < |s.flights|
    ensures Lossless(Land(s, k), rs)
  {
    LandCounters(s, k);
    if OpenTcp(s.cfg, rs) {
      LandAwaited(s, rs, k);
    }
  }

  // ---------------------------------------------------------------- whole sessions on faithful links

  ghost function LosslessIn(rs: Routes, c: Config): State -> bool {
    (s: State) => Good(s, rs) && s.cfg == c && Lossless(s, rs)
  }

  lemma LosslessKeptByEvents(rs: Routes, c: Config)
    ensures KeptByTime(LosslessIn(rs, c)) && KeptByFiring(LosslessIn(rs, c))
  {
    var p := LosslessIn(rs, c);
    assert KeptByTime(p) by {
      forall t: State, dt: nat | p(t) ensures p(Later(t, dt)) {
        ClockGood(t, rs, dt);
        SameLossless(t, Later(t, dt), rs);
      }
      forall t: State | p(t) ensures p(FinishRun(t)) {
        FinishGood(t, rs);
        SameLossless(t, FinishRun(t), rs);
      }
    }
    assert KeptByFiring(p) by {
      forall t: State | p(t) && t.running && t.events != [] && t.events[0].due <= t.now
        ensures p(Fire(t)) && Fire(t).running {
        FireGood(t, rs);
        FireLossless(t, rs);
      }
    }
  }

  lemma LosslessKeptByLinks(rs: Routes, c: Config)
    ensures KeptByDispatch(LosslessIn(rs, c), Intact()) && KeptByFlights(LosslessIn(rs, c))
  {
    var p := LosslessIn(rs, c);
    assert KeptByDispatch(p, Intact()) by {
      forall t: State, i: nat, o: Outcome | p(t) && i < |t.routers| && Intact()(o)
        ensures p(Dispatch(t, i, o)) && Dispatch(t, i, o).running == t.running {
        DispatchGood(t, rs, i, o);
        DispatchLossless(t, rs, i, o);
      }
    }
    assert KeptByFlights(p) by {
      forall t: State, k: nat, dt: nat | p(t) && k < |t.flights|
        ensures p(Age(t, k, dt)) && Age(t, k, dt).running == t.running {
        AgeGood(t, rs, k, dt);
        AgeLossless(t, rs, k, dt);
      }
      forall t: State, k: nat | p(t) && t.running && k < |t.flights|
        ensures p(Land(t, k)) && Land(t, k).running {
        LandGood(t, rs, k);
        LandLossless(t, rs, k);
      }
    }
  }

  /** No link loses a packet, except duplicates. */
  ghost predicate Faithful(steps: seq<Step>) {
    forall i :: 0 <= i < |steps| && steps[i].Tick? ==> forall id :: Intact()(steps[i].choice(id))
  }

  lemma UpdateLossless(s: State, rs: Routes, dt: nat, choice: int -> Outcome)
    requires Good(s, rs) && Lossless(s, rs) && forall id :: Intact()(choice(id))
    ensures Lossless(Update(s, dt, choice), rs)
  {
    LosslessKeptByEvents(rs, s.cfg);
    LosslessKeptByLinks(rs, s.cfg);
    UpdateKeeps(LosslessIn(rs, s.cfg), Intact(), s, dt, choice);
  }

  lemma StartIsFresh(c: Config)
    requires 1 <= c.goal
    ensures Fresh(StartRun(c)) && StartRun(c).awaiting == None && StartRun(c).now == 0
  {
    var s := Reset(c).(running := true, stats := NO_STATS.(startTime := Some(0)));
    if c.mode == UDP {
      ScheduleAllExact(s, 0);
    }
  }

  ghost predicate FitAndLossless(s: State) {
    Configured(s.cfg) && Good(s, RoutesOf(s.cfg)) && Lossless(s, RoutesOf(s.cfg))
  }

  lemma {:induction false} SessionLossless(c: Config, steps: seq<Step>)
    requires Legal(c, steps) && Faithful(steps)
    ensures FitAndLossless(Session(c, steps))
  {
    if steps == [] {
      SessionGood(c, steps);
    } else {
      var front, step := steps[..|steps| - 1], steps[|steps| - 1];
      SessionLossless(c, front);
      StepLossless(Session(c, front), step);
    }
  }

  lemma StepLossless(s: State, step: Step)
    requires FitAndLossless(s)
    requires step.Tick? ==> forall id :: Intact()(step.choice(id))
    requires step.Configure? ==> Configured(step.cfg)
    ensures FitAndLossless(Apply(s, step))
  {
    ApplyGood(s, step);
    match step
    case Start =>
      StartIsFresh(s.cfg);
    case Tick(dt, choice) =>
      UpdateGood(s, RoutesOf(s.cfg), dt, choice);
      UpdateLossless(s, RoutesOf(s.cfg), dt, choice);
    case Configure(_) =>
  }

  // ---------------------------------------------------------------- what that means for a run

  ghost predicate SendPending(s: State, e: Event) {
    s.awaiting == None && e in s.events && e.callback.SendData?
  }

  /** A packet with sequence q waits in a queue or is on a link that does not lose it. */
  ghost predicate OnItsWay(s: State, q: int) {
    || (exists i, p :: 0 <= i < |s.routers| && p in s.routers[i].queue && p.sequence == q)
    || exists k :: 0 <= k < |s.flights| && s.flights[k].packet.sequence == q && !s.flights[k].dropped
  }

  lemma NobodyOnTheWay(s: State, q: int)
    requires !OnItsWay(s, q)
    ensures Total(s, Carries(q)) == 0
  {
    forall i | 0 <= i < |s.routers| ensures RouterWeight(Carries(q))(s.routers[i]) == 0 {
      var r := s.routers[i];
      forall j | 0 <= j < |r.queue| ensures QueueWeight(r.id, Carries(q))(r.queue[j]) == 0 {
        assert r.queue[j] in r.queue;
      }
      SumZero(r.queue, QueueWeight(r.id, Carries(q)));
    }
    SumZero(s.routers, RouterWeight(Carries(q)));
    SumZero(s.flights, FlightWeight(Carries(q)));
    SumZero(s.log, LogWeight(Carries(q)));
  }

  /**
   * Between sequences the next one is at most a pause away; otherwise the sequence that is waited for, or its
   * acknowledgement, is in the network. So an empty network is only pausing.
   */
  lemma OpenIsAwaitedOrPausing(s: State, rs: Routes)
    requires Good(s, rs) && Lossless(s, rs) && Open(s, rs)
    ensures match s.awaiting
      case Some(q) => OnItsWay(s, q) && !Quiet(s)
      case None => exists e :: SendPending(s, e) && e.due <= s.now + NEXT_SEND_DELAY
  {
    match s.awaiting
    case Some(q) =>
      if !OnItsWay(s, q) {
        NobodyOnTheWay(s, q);
      }
    case None =>
      var e :| OnlyLive(s, e);
      assert SendPending(s, e);
  }

  /**
   * Whatever TCP waits for is on its way: on links that lose nothing but duplicates, and may be as slow as they
   * like, in every state of every session in which an unfiltered run is not completed.
   */
  lemma WhatIsAwaitedIsOnItsWay(c: Config, steps: seq<Step>)
    requires Legal(c, steps) && Faithful(steps)
    ensures Configured(Session(c, steps).cfg)
    ensures var s := Session(c, steps);
      Open(s, RoutesOf(s.cfg)) ==>
        match s.awaiting
        case Some(q) => OnItsWay(s, q) && !Quiet(s)
        case None => exists e :: SendPending(s, e) && e.due <= s.now + NEXT_SEND_DELAY
  {
    SessionLossless(c, steps);
    var s := Session(c, steps);
    if Open(s, RoutesOf(s.cfg)) {
      OpenIsAwaitedOrPausing(s, RoutesOf(s.cfg));
    }
  }
}
