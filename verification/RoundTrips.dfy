/**
 * Round trips that are over before the timer: if the links there and back and one turn of each router on the
 * way take less than the timeout, and nothing is lost or duplicated, no sequence is ever sent twice.
 */
module RoundTrips {
  import opened Wrappers
  import opened Packets
  import opened Simulation
  import opened Sums
  import opened Totals
  import opened Network
  import opened Accounts
  import opened Ledger
  import opened Drain
  import opened Protocol
  import opened ProtocolSteps
  import opened Invariants
  import opened Progress
  import opened Idle
  import opened Couriers
  import opened Timetable

  /** There and back in less than the timeout. */
  ghost predicate Swift(c: Config, pace: Pace) {
    !pace.on.duplicates && !pace.on.losses && pace.RoundTrip() + Load(c, pace) < RETRANSMISSION_TIMEOUT
  }

  /** Packets in the network. */
  ghost function Present(): Weight {
    (it: Item) => if it.Logged? then 0 else 1
  }

  /** When the awaited acknowledgement is to be home, seen from when its timer was started. */
  ghost function HomeFor(s: State, pace: Pace, timer: Event): int {
    timer.due - RETRANSMISSION_TIMEOUT + pace.RoundTrip() + Spent(s, pace) - Times(|s.attempted| - 1, Load(s.cfg, pace))
  }

  ghost predicate BeatsTimer(s: State, pace: Pace, ph: Phase, timer: Event) {
    OnlyLive(s, timer) && Courier(s, pace, HomeFor(s, pace, timer), ph)
  }

  /** Nothing was sent twice, there is one packet at most, and it will be home before the timer. */
  ghost predicate Unrepeated(s: State, pace: Pace, ph: Phase) {
    && s.stats.retransmissions == 0
    && (!s.completed ==>
          if s.awaiting.Some? then Total(s, Present()) <= 1 && exists timer :: BeatsTimer(s, pace, ph, timer)
          else Total(s, Present()) == 0)
  }

  // ---------------------------------------------------------------- the timer is ahead of the clock

  /** A packet in a queue has at least one more turn before it. */
  lemma WaitingHasATurn(s: State, pace: Pace, j: nat, p: Packet)
    requires GoodNetwork(s, pace.rs) && j < |s.routers| && p in s.routers[j].queue
    ensures Ahead(s, pace) >= pace.Turn()
  {
    var r := s.routers[j];
    assert RouterOk(s.cfg, pace.rs, s.attempted, s.delivered, r);
    assert QueuedOk(s.cfg, pace.rs, s.attempted, s.delivered, r.id, p);
    QueuedWorth(pace.rs, s.cfg, r.id, p, pace.on.duplicates, Charge(pace));
    QueuedIsCounted(s, Worth(s.cfg, pace.rs, pace.on.duplicates, Charge(pace)), j, p);
  }

  lemma SpentAtMost(s: State, pace: Pace)
    requires s.stats.retransmissions == 0 && |s.attempted| > 0
    ensures Spent(s, pace) + Ahead(s, pace) == Times(|s.attempted| - 1, Load(s.cfg, pace)) + Load(s.cfg, pace)
  {
  }

  lemma TimerIsAhead(s: State, pace: Pace, i: nat, k: nat, dt: nat, timer: Event)
    requires GoodNetwork(s, pace.rs) && s.stats.retransmissions == 0 && |s.attempted| > 0 && Swift(s.cfg, pace)
    requires Courier(s, pace, HomeFor(s, pace, timer), Phase(i, k, dt))
    ensures s.now < timer.due
  {
    var credit, ph := HomeFor(s, pace, timer), Phase(i, k, dt);
    SpentAtMost(s, pace);
    if j: nat, p :| CourierWaits(s, pace, credit, ph, j, p) {
      WaitingHasATurn(s, pace, j, p);
    } else {
      var j: nat :| CourierRides(s, pace, credit, ph, j);
      OneLegLess(s, pace, s.flights[j]);
    }
  }

  // ---------------------------------------------------------------- timers

  lemma HomeIsLater(s: State, t: State, pace: Pace, timer: Event)
    requires t.cfg == s.cfg && t.attempted == s.attempted && Spent(t, pace) >= Spent(s, pace)
    ensures HomeFor(t, pace, timer) >= HomeFor(s, pace, timer)
  {
  }

  /** What beat the timer still does, and there is no new packet. */
  lemma StillUnrepeated(s: State, t: State, pace: Pace, ph: Phase, after: Phase)
    requires Unrepeated(s, pace, ph) && t.stats.retransmissions == s.stats.retransmissions
    requires t.completed == s.completed && t.awaiting == s.awaiting && Total(t, Present()) <= Total(s, Present())
    requires forall timer {:trigger BeatsTimer(t, pace, after, timer)} ::
               !s.completed && s.awaiting.Some? && BeatsTimer(s, pace, ph, timer) ==> BeatsTimer(t, pace, after, timer)
    ensures Unrepeated(t, pace, after)
  {
    if !s.completed && s.awaiting.Some? {
      var timer :| BeatsTimer(s, pace, ph, timer);
      assert BeatsTimer(t, pace, after, timer);
    }
  }

  /** Before the timer only stale ones go off. */
  lemma OnlyStaleFire(s: State, pace: Pace, dt: nat)
    requires Sound(s, pace.rs) && Swift(s.cfg, pace) && Unrepeated(s, pace, Phase(0, 0, dt))
    requires s.events != [] && s.events[0].due <= s.now && (s.completed || s.awaiting.Some?)
    ensures Fired(s).None?
  {
    if !s.completed && Fired(s).Some? {
      var timer :| BeatsTimer(s, pace, Phase(0, 0, dt), timer);
      FiredIsPending(s);
      TimerIsAhead(s, pace, 0, 0, dt, timer);
    }
  }

  lemma RestBeatsTimer(s: State, pace: Pace, ph: Phase, timer: Event)
    requires ProtocolOk(s) && s.running && s.cfg.mode == TCP && !s.completed
    requires s.events != [] && Fired(s).None? && BeatsTimer(s, pace, ph, timer)
    ensures BeatsTimer(Rest(s), pace, ph, timer)
  {
    RestTimer(s, timer);
    SameSpent(s, Rest(s), pace);
    HomeIsLater(s, Rest(s), pace, timer);
    CourierUndisturbed(s, Rest(s), pace, HomeFor(s, pace, timer), ph);
    MoreCredit(Rest(s), pace, HomeFor(s, pace, timer), HomeFor(Rest(s), pace, timer), ph);
  }

  lemma RestUnrepeated(s: State, pace: Pace, dt: nat)
    requires ProtocolOk(s) && s.running && s.cfg.mode == TCP
    requires s.events != [] && Fired(s).None? && Unrepeated(s, pace, Phase(0, 0, dt))
    ensures Unrepeated(Rest(s), pace, Phase(0, 0, dt))
  {
    forall timer | !s.completed && BeatsTimer(s, pace, Phase(0, 0, dt), timer)
      ensures BeatsTimer(Rest(s), pace, Phase(0, 0, dt), timer) {
      RestBeatsTimer(s, pace, Phase(0, 0, dt), timer);
    }
    StillUnrepeated(s, Rest(s), pace, Phase(0, 0, dt), Phase(0, 0, dt));
  }

  lemma FlightsArePresent(s: State)
    ensures Total(s, Present()) == 0 ==> s.flights == []
  {
    if s.flights != [] {
      FlyingIsCounted(s, Present(), 0);
    }
  }

  lemma NothingAhead(s: State, pace: Pace)
    requires Total(s, Present()) == 0
    ensures Ahead(s, pace) == 0
  {
    var w := Worth(s.cfg, pace.rs, pace.on.duplicates, Charge(pace));
    forall i | 0 <= i < |s.routers| ensures RouterWeight(w)(s.routers[i]) == 0 {
      if s.routers[i].queue != [] {
        QueuedIsCounted(s, Present(), i, s.routers[i].queue[0]);
      }
    }
    SumZero(s.routers, RouterWeight(w));
    FlightsArePresent(s);
    SumZero(s.log, LogWeight(w));
  }

  /** The timer that a transmission of sequence q starts. */
  function TimerFor(s: State, q: int): Event {
    Event(s.now + RETRANSMISSION_TIMEOUT, s.nextEventId, Timeout(q, s.token + 1))
  }

  lemma TimerIsLive(s: State, q: int)
    requires q < s.cfg.goal && s.cfg.mode == TCP && ProtocolOk(Transmit(s, q, false)) && s.running && !s.completed
    ensures OnlyLive(Transmit(s, q, false), TimerFor(s, q))
  {
    var t := Transmit(s, q, false);
    TransmitTimers(s, q, false);
    var e :| OnlyLive(t, e);
    assert TimerFor(s, q) in t.events && Live(t, TimerFor(s, q));
  }

  /** In an empty network the whole round trip fits in after the timer has been started. */
  lemma FirstIsHome(s: State, t: State, pace: Pace, timer: Event)
    requires s.stats.retransmissions == 0 && Total(s, Present()) == 0 && t.cfg == s.cfg
    requires |t.attempted| == |s.attempted| + 1 && Spent(t, pace) == Spent(s, pace)
    requires timer.due == s.now + RETRANSMISSION_TIMEOUT
    ensures HomeFor(t, pace, timer) == s.now + pace.RoundTrip()
  {
    NothingAhead(s, pace);
  }

  lemma FirstPresent(s: State, rs: Routes, q: int)
    requires GoodNetwork(s, rs) && q < s.cfg.goal && Total(s, Present()) == 0
    ensures Total(Transmit(s, q, false), Present()) <= 1
  {
    TransmitTotal(rs, s, q, false, Present());
  }

  lemma FirstUnrepeated(s: State, pace: Pace, q: int, dt: nat)
    requires GoodNetwork(s, pace.rs) && Prompt(s) && s.cfg.mode == TCP && s.running && !s.completed
    requires q < s.cfg.goal && q !in s.attempted && s.stats.retransmissions == 0 && Total(s, Present()) == 0
    requires ProtocolOk(Transmit(s, q, false))
    ensures Unrepeated(Transmit(s, q, false), pace, Phase(0, 0, dt))
  {
    TimerIsLive(s, q);
    FirstCounts(s, pace, q);
    TransmitCounters(s, q, false);
    FirstIsHome(s, Transmit(s, q, false), pace, TimerFor(s, q));
    FirstPresent(s, pace.rs, q);
    SetsOut(s, pace, q, false, HomeFor(Transmit(s, q, false), pace, TimerFor(s, q)), dt);
    assert BeatsTimer(Transmit(s, q, false), pace, Phase(0, 0, dt), TimerFor(s, q));
  }

  lemma SendUnrepeated(s: State, pace: Pace, dt: nat)
    requires Sound(s, pace.rs) && Unrepeated(s, pace, Phase(0, 0, dt)) && !s.completed && s.awaiting == None
    requires s.events != [] && s.events[0].due <= s.now && Fired(s).Some?
    ensures Unrepeated(Fire(s), pace, Phase(0, 0, dt))
  {
    FirstIsDue(s);
    FireStaysOk(s);
    SamePackets(pace.rs, s, Rest(s));
    FirstUnrepeated(Rest(s), pace, Fired(s).value.0, dt);
  }

  lemma FireUnrepeated(s: State, pace: Pace, dt: nat)
    requires Sound(s, pace.rs) && Swift(s.cfg, pace) && Unrepeated(s, pace, Phase(0, 0, dt))
    requires s.events != [] && s.events[0].due <= s.now
    ensures Unrepeated(Fire(s), pace, Phase(0, 0, dt))
  {
    if s.completed || s.awaiting.Some? {
      OnlyStaleFire(s, pace, dt);
    }
    if Fired(s).None? {
      FireCases(s);
      RestUnrepeated(s, pace, dt);
    } else {
      SendUnrepeated(s, pace, dt);
    }
  }

  // ---------------------------------------------------------------- routers and links

  lemma DispatchPresent(s: State, rs: Routes, i: nat, o: Outcome)
    requires GoodNetwork(s, rs) && i < |s.routers| && !o.duplicated
    ensures Total(Dispatch(s, i, o), Present()) <= Total(s, Present())
  {
    if RouterDue(s, i, s.now) {
      DispatchTotal(rs, s, i, o, Present());
    }
  }

  lemma TurnBeatsTimer(s: State, t: State, pace: Pace, i: nat, o: Outcome, dt: nat, timer: Event)
    requires TurnOf(s, t, i, o) && SameProtocol(s, t) && Spent(t, pace) >= Spent(s, pace) + Earned(s, pace, i)
    requires Fits(pace.on, s.routers[i].id, o) && !o.dropped && BeatsTimer(s, pace, Phase(i, 0, dt), timer)
    ensures BeatsTimer(t, pace, Phase(i + 1, 0, dt), timer)
  {
    TimerStays(s, t, timer);
    CourierTurn(s, t, pace, HomeFor(s, pace, timer), HomeFor(t, pace, timer), i, o, dt);
  }

  lemma DispatchUnrepeated(s: State, pace: Pace, i: nat, o: Outcome, dt: nat)
    requires Sound(s, pace.rs) && Swift(s.cfg, pace) && i < |s.routers| && Fits(pace.on, s.routers[i].id, o)
    requires Unrepeated(s, pace, Phase(i, 0, dt))
    ensures Unrepeated(Dispatch(s, i, o), pace, Phase(i + 1, 0, dt))
  {
    DispatchPresent(s, pace.rs, i, o);
    DispatchSpent(s, pace, i, o);
    DispatchIsTurn(s, pace.rs, i, o);
    TurnUnrepeated(s, Dispatch(s, i, o), pace, i, o, dt);
  }

  lemma TurnUnrepeated(s: State, t: State, pace: Pace, i: nat, o: Outcome, dt: nat)
    requires TurnOf(s, t, i, o) && SameProtocol(s, t) && Spent(t, pace) >= Spent(s, pace) + Earned(s, pace, i)
    requires Fits(pace.on, s.routers[i].id, o) && !o.dropped && Total(t, Present()) <= Total(s, Present())
    requires Unrepeated(s, pace, Phase(i, 0, dt))
    ensures Unrepeated(t, pace, Phase(i + 1, 0, dt))
  {
    forall timer | BeatsTimer(s, pace, Phase(i, 0, dt), timer)
      ensures BeatsTimer(t, pace, Phase(i + 1, 0, dt), timer) {
      TurnBeatsTimer(s, t, pace, i, o, dt, timer);
    }
    StillUnrepeated(s, t, pace, Phase(i, 0, dt), Phase(i + 1, 0, dt));
  }

  lemma AgeBeatsTimer(s: State, pace: Pace, k: nat, dt: nat, timer: Event)
    requires k < |s.flights| && s.flights[k].remaining - dt > 0
    requires BeatsTimer(s, pace, Phase(|s.routers|, k, dt), timer)
    ensures BeatsTimer(Age(s, k, dt), pace, Phase(|s.routers|, k + 1, dt), timer)
  {
    TimerStays(s, Age(s, k, dt), timer);
    AgeSpent(s, pace, k, dt);
    HomeIsLater(s, Age(s, k, dt), pace, timer);
    AgeCourier(s, pace, HomeFor(s, pace, timer), k, dt);
    MoreCredit(Age(s, k, dt), pace, HomeFor(s, pace, timer), HomeFor(Age(s, k, dt), pace, timer),
               Phase(|s.routers|, k + 1, dt));
  }

  lemma AgeUnrepeated(s: State, pace: Pace, k: nat, dt: nat)
    requires k < |s.flights| && s.flights[k].remaining - dt > 0 && Unrepeated(s, pace, Phase(|s.routers|, k, dt))
    ensures Unrepeated(Age(s, k, dt), pace, Phase(|s.routers|, k + 1, dt))
  {
    forall timer | BeatsTimer(s, pace, Phase(|s.routers|, k, dt), timer)
      ensures BeatsTimer(Age(s, k, dt), pace, Phase(|s.routers|, k + 1, dt), timer) {
      AgeBeatsTimer(s, pace, k, dt, timer);
    }
    AgeTotal(s, k, dt, Present());
    StillUnrepeated(s, Age(s, k, dt), pace, Phase(|s.routers|, k, dt), Phase(|s.routers|, k + 1, dt));
  }

  /** A flight ends as at most one packet, and as none when its acknowledgement is home. */
  lemma LandPresent(s: State, rs: Routes, k: nat)
    requires GoodNetwork(s, rs) && k < |s.flights|
    ensures Total(Land(s, k), Present()) <= Total(s, Present())
    ensures Land(s, k).awaiting != s.awaiting ==> Total(Land(s, k), Present()) < Total(s, Present())
  {
    LandTotal(rs, s, k, Present());
    LandTimers(s, k);
  }

  lemma LandUnrepeated(s: State, pace: Pace, k: nat, dt: nat)
    requires Sound(s, pace.rs) && k < |s.flights| && Unrepeated(s, pace, Phase(|s.routers|, k, dt))
    ensures Unrepeated(Land(s, k), pace, Phase(|s.routers|, k, dt))
  {
    LandPresent(s, pace.rs, k);
    LandAtSender(s, pace.rs, k);
    LandCounters(s, k);
    MarkKeepsRetransmissions(s, s.flights[k]);
    if Land(s, k).awaiting == s.awaiting {
      forall timer | s.awaiting.Some? && BeatsTimer(s, pace, Phase(|s.routers|, k, dt), timer)
        ensures BeatsTimer(Land(s, k), pace, Phase(|s.routers|, k, dt), timer) {
        LandBeatsTimer(s, pace, k, dt, timer);
      }
      StillUnrepeated(s, Land(s, k), pace, Phase(|s.routers|, k, dt), Phase(|s.routers|, k, dt));
    }
  }

  lemma LandBeatsTimer(s: State, pace: Pace, k: nat, dt: nat, timer: Event)
    requires Sound(s, pace.rs) && k < |s.flights| && BeatsTimer(s, pace, Phase(|s.routers|, k, dt), timer)
    requires s.awaiting.Some? && Land(s, k).awaiting == s.awaiting
    ensures BeatsTimer(Land(s, k), pace, Phase(|s.routers|, k, dt), timer)
  {
    LandTimer(s, k, timer);
    LandHomeFor(s, pace, k, timer);
    LandCourier(s, pace, HomeFor(s, pace, timer), k, dt);
    MoreCredit(Land(s, k), pace, HomeFor(s, pace, timer), HomeFor(Land(s, k), pace, timer), Phase(|s.routers|, k, dt));
  }

  lemma LandHomeFor(s: State, pace: Pace, k: nat, timer: Event)
    requires GoodNetwork(s, pace.rs) && k < |s.flights|
    ensures HomeFor(Land(s, k), pace, timer) >= HomeFor(s, pace, timer)
  {
    LandSpent(s, pace, k);
    LandCounters(s, k);
    HomeIsLater(s, Land(s, k), pace, timer);
  }

  // ---------------------------------------------------------------- whole frames

  ghost function TimersBeaten(c: Config, pace: Pace, dt: nat): State -> bool {
    (s: State) => Sound(s, pace.rs) && s.cfg == c && Unrepeated(s, pace, Phase(0, 0, dt))
  }

  ghost function RoutersBeat(c: Config, pace: Pace, dt: nat): (State, int) -> bool {
    (s: State, i: int) => Sound(s, pace.rs) && s.cfg == c && Unrepeated(s, pace, Phase(i, 0, dt))
  }

  ghost function FlightsBeat(c: Config, pace: Pace, dt: nat): (State, int) -> bool {
    (s: State, k: int) => Sound(s, pace.rs) && s.cfg == c && Unrepeated(s, pace, Phase(|s.routers|, k, dt))
  }

  lemma TimerStep(c: Config, pace: Pace, dt: nat, s: State)
    requires Swift(c, pace) && TimersBeaten(c, pace, dt)(s) && s.events != [] && s.events[0].due <= s.now
    ensures TimersBeaten(c, pace, dt)(Fire(s)) && Fire(s).running
  {
    FireSound(s, pace.rs);
    FireGood(s, pace.rs);
    FireUnrepeated(s, pace, dt);
  }

  lemma RouterBeats(c: Config, pace: Pace, dt: nat, s: State, i: nat, o: Outcome)
    requires Swift(c, pace) && RoutersBeat(c, pace, dt)(s, i) && i < |s.routers| && Fits(pace.on, s.routers[i].id, o)
    ensures RoutersBeat(c, pace, dt)(Dispatch(s, i, o), i + 1)
  {
    DispatchSound(s, pace.rs, i, o);
    DispatchUnrepeated(s, pace, i, o, dt);
  }

  lemma AgeBeats(c: Config, pace: Pace, dt: nat, s: State, k: nat)
    requires FlightsBeat(c, pace, dt)(s, k) && k < |s.flights| && s.flights[k].remaining - dt > 0
    ensures FlightsBeat(c, pace, dt)(Age(s, k, dt), k + 1)
  {
    AgeSound(s, pace.rs, k, dt);
    AgeUnrepeated(s, pace, k, dt);
  }

  lemma LandBeats(c: Config, pace: Pace, dt: nat, s: State, k: nat)
    requires FlightsBeat(c, pace, dt)(s, k) && k < |s.flights|
    ensures FlightsBeat(c, pace, dt)(Land(s, k), k)
  {
    LandSound(s, pace.rs, k);
    LandGood(s, pace.rs, k);
    LandUnrepeated(s, pace, k, dt);
  }

  lemma FiringUnrepeated(c: Config, pace: Pace, dt: nat)
    requires Swift(c, pace)
    ensures KeptByFiring(TimersBeaten(c, pace, dt))
  {
    var p := TimersBeaten(c, pace, dt);
    forall s: State | p(s) && s.running && s.events != [] && s.events[0].due <= s.now
      ensures p(Fire(s)) && Fire(s).running {
      TimerStep(c, pace, dt, s);
    }
  }

  lemma TurnsUnrepeated(c: Config, pace: Pace, dt: nat)
    requires Swift(c, pace)
    ensures KeptByTurns(RoutersBeat(c, pace, dt), Fitting(pace.on))
  {
    var p := RoutersBeat(c, pace, dt);
    forall s: State, i: nat, o: Outcome | p(s, i) && i < |s.routers| && Fitting(pace.on)(s.routers[i].id, o)
      ensures p(Dispatch(s, i, o), i + 1) {
      RouterBeats(c, pace, dt, s, i, o);
    }
  }

  lemma EndsUnrepeated(c: Config, pace: Pace, dt: nat)
    ensures KeptByEnds(FlightsBeat(c, pace, dt), dt)
  {
    var p := FlightsBeat(c, pace, dt);
    forall s: State, k: nat | p(s, k) && k < |s.flights| && s.flights[k].remaining - dt > 0
      ensures p(Age(s, k, dt), k + 1) {
      AgeBeats(c, pace, dt, s, k);
    }
    forall s: State, k: nat | p(s, k) && k < |s.flights| && s.flights[k].remaining - dt <= 0
      ensures p(Land(s, k), k) {
      LandBeats(c, pace, dt, s, k);
    }
  }

  lemma LaterBeatsTimer(s: State, pace: Pace, dt: nat, timer: Event)
    requires BeatsTimer(s, pace, Done(s), timer) && dt <= pace.on.frame
    ensures BeatsTimer(Later(s, dt), pace, Phase(0, 0, dt), timer)
  {
    LaterTimer(s, dt, timer);
    SameSpent(s, Later(s, dt), pace);
    HomeIsLater(s, Later(s, dt), pace, timer);
    CourierLater(s, pace, HomeFor(s, pace, timer), dt);
    MoreCredit(Later(s, dt), pace, HomeFor(s, pace, timer), HomeFor(Later(s, dt), pace, timer), Phase(0, 0, dt));
  }

  lemma LaterUnrepeated(s: State, pace: Pace, dt: nat)
    requires Unrepeated(s, pace, Done(s)) && dt <= pace.on.frame
    ensures Unrepeated(Later(s, dt), pace, Phase(0, 0, dt))
  {
    forall timer | BeatsTimer(s, pace, Done(s), timer)
      ensures BeatsTimer(Later(s, dt), pace, Phase(0, 0, dt), timer) {
      LaterBeatsTimer(s, pace, dt, timer);
    }
    StillUnrepeated(s, Later(s, dt), pace, Done(s), Phase(0, 0, dt));
  }

  lemma OverUnrepeated(s: State, pace: Pace, dt: nat)
    requires Unrepeated(s, pace, Phase(|s.routers|, |s.flights|, dt))
    ensures Unrepeated(s, pace, Done(s))
  {
    if !s.completed && s.awaiting.Some? {
      var timer :| BeatsTimer(s, pace, Phase(|s.routers|, |s.flights|, dt), timer);
      CourierIsDone(s, pace, HomeFor(s, pace, timer), dt);
      assert BeatsTimer(s, pace, Done(s), timer);
    }
  }

  lemma FrameUnrepeated(s: State, pace: Pace, dt: nat, choice: int -> Outcome)
    requires Sound(s, pace.rs) && Swift(s.cfg, pace) && Unrepeated(s, pace, Done(s))
    requires dt <= pace.on.frame && forall id :: Fits(pace.on, id, choice(id))
    ensures Unrepeated(Frame(s, dt, choice), pace, Done(Frame(s, dt, choice)))
  {
    LaterSound(s, pace.rs, dt);
    LaterUnrepeated(s, pace, dt);
    FiringUnrepeated(s.cfg, pace, dt);
    RunDueKeeps(TimersBeaten(s.cfg, pace, dt), Later(s, dt));
    LinksUnrepeated(RunDueEvents(Later(s, dt)), pace, dt, choice);
  }

  lemma LinksUnrepeated(s: State, pace: Pace, dt: nat, choice: int -> Outcome)
    requires Sound(s, pace.rs) && Swift(s.cfg, pace) && Unrepeated(s, pace, Phase(0, 0, dt))
    requires forall id :: Fits(pace.on, id, choice(id))
    ensures var t := AdvanceInFlight(DispatchRouters(s, 0, choice), 0, dt); Unrepeated(t, pace, Done(t))
  {
    TurnsUnrepeated(s.cfg, pace, dt);
    EndsUnrepeated(s.cfg, pace, dt);
    TurnsKeep(RoutersBeat(s.cfg, pace, dt), Fitting(pace.on), s, 0, choice);
    EndsKeep(FlightsBeat(s.cfg, pace, dt), DispatchRouters(s, 0, choice), 0, dt);
    OverUnrepeated(AdvanceInFlight(DispatchRouters(s, 0, choice), 0, dt), pace, dt);
  }
}
