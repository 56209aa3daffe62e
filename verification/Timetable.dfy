/**
 * A timetable for TCP: what the clock shows is covered by one period for each sequence sent, by one round trip
 * and one timeout for each packet lost, and by the turns of routers so far, however long a round trip takes.
 */
module Timetable {
  import opened Wrappers
  import opened Packets
  import opened Simulation
  import opened Totals
  import opened Network
  import opened NetworkSteps
  import opened Accounts
  import opened Ledger
  import opened Drain
  import opened Protocol
  import opened ProtocolSteps
  import opened Invariants
  import opened Progress
  import opened Idle
  import opened FaithfulLinks
  import opened Traces
  import opened Couriers

  // ---------------------------------------------------------------- time that routers have spent

  /** Every turn is paid for when it comes. */
  function Charge(pace: Pace): Toll {
    Toll(pace.Turn(), 0, 0)
  }

  /** The turns of routers that one transmission can cost in all. */
  ghost function Load(c: Config, pace: Pace): nat {
    Budget(c, pace.rs, pace.on.duplicates, Charge(pace))
  }

  /** The turns that packets in the network can still cost. */
  ghost function Ahead(s: State, pace: Pace): nat {
    Total(s, Worth(s.cfg, pace.rs, pace.on.duplicates, Charge(pace)))
  }

  /** What all transmissions so far can cost and need not cost any more. */
  ghost function Spent(s: State, pace: Pace): int {
    Times(Transmissions(s), Load(s.cfg, pace)) - Ahead(s, pace)
  }

  lemma SameSpent(s: State, t: State, pace: Pace)
    requires SameBooks(s, t)
    ensures Spent(t, pace) == Spent(s, pace)
  {
  }

  lemma TransmitSpent(s: State, pace: Pace, q: int, again: bool)
    requires GoodNetwork(s, pace.rs) && q < s.cfg.goal && (again <==> q in s.attempted) && s.stats.retransmissions >= 0
    ensures Spent(Transmit(s, q, again), pace) == Spent(s, pace)
  {
    TransmitWorth(pace.rs, s, q, again, pace.on.duplicates, Charge(pace));
    TransmitCounts(s, q, again);
  }

  lemma SpentGrows(s: State, t: State, pace: Pace, earned: nat)
    requires t.cfg == s.cfg && t.attempted == s.attempted && t.stats.retransmissions == s.stats.retransmissions
    requires Ahead(t, pace) + earned <= Ahead(s, pace)
    ensures Spent(t, pace) >= Spent(s, pace) + earned
  {
  }

  lemma DispatchSpent(s: State, pace: Pace, i: nat, o: Outcome)
    requires GoodNetwork(s, pace.rs) && i < |s.routers| && (o.duplicated ==> pace.on.duplicates)
    ensures Spent(Dispatch(s, i, o), pace) >= Spent(s, pace) + Earned(s, pace, i)
  {
    if RouterDue(s, i, s.now) {
      DispatchWorth(pace.rs, s, i, o, pace.on.duplicates, Charge(pace));
      DispatchCounters(pace.rs, s, i, o);
      SpentGrows(s, Dispatch(s, i, o), pace, pace.Turn());
    }
  }

  lemma AgeSpent(s: State, pace: Pace, k: nat, dt: int)
    requires k < |s.flights|
    ensures Spent(Age(s, k, dt), pace) == Spent(s, pace)
  {
    AgeTotal(s, k, dt, Worth(s.cfg, pace.rs, pace.on.duplicates, Charge(pace)));
  }

  lemma LandSpent(s: State, pace: Pace, k: nat)
    requires GoodNetwork(s, pace.rs) && k < |s.flights|
    ensures Spent(Land(s, k), pace) >= Spent(s, pace)
  {
    EndedKeeps(pace.rs, s, k);
    LandedWorth(pace.rs, s, s.flights[k], pace.on.duplicates, Charge(pace));
    LandTotal(pace.rs, s, k, Worth(s.cfg, pace.rs, pace.on.duplicates, Charge(pace)));
    LandCounters(s, k);
    MarkKeepsRetransmissions(s, s.flights[k]);
    SpentGrows(s, Land(s, k), pace, 0);
  }

  // ---------------------------------------------------------------- inner steps of a sound run

  /** A run that nothing stands in the way of. */
  ghost predicate Sound(s: State, rs: Routes) {
    Good(s, rs) && OpenTcp(s.cfg, rs) && s.running && Prompt(s)
  }

  lemma LaterSound(s: State, rs: Routes, dt: nat)
    requires Sound(s, rs)
    ensures Sound(Later(s, dt), rs)
  {
    ClockGood(s, rs, dt);
  }

  lemma FireSound(s: State, rs: Routes)
    requires Sound(s, rs) && s.events != [] && s.events[0].due <= s.now
    ensures Sound(Fire(s), rs)
  {
    FireGood(s, rs);
    FireUndisturbed(s);
  }

  lemma DispatchSound(s: State, rs: Routes, i: nat, o: Outcome)
    requires Sound(s, rs) && i < |s.routers|
    ensures Sound(Dispatch(s, i, o), rs)
  {
    DispatchGood(s, rs, i, o);
    DispatchMoves(s, i, o);
  }

  lemma AgeSound(s: State, rs: Routes, k: nat, dt: int)
    requires Sound(s, rs) && k < |s.flights|
    ensures Sound(Age(s, k, dt), rs)
  {
    AgeGood(s, rs, k, dt);
  }

  lemma LandSound(s: State, rs: Routes, k: nat)
    requires Sound(s, rs) && k < |s.flights|
    ensures Sound(Land(s, k), rs)
  {
    LandGood(s, rs, k);
    LandAdds(s, rs, k);
  }

  // ---------------------------------------------------------------- the schedule

  /** The links of a round trip, a router that is found busy at the end, the pause and a frame. */
  function Period(pace: Pace): nat {
    pace.RoundTrip() + PROCESSING_DELAY + NEXT_SEND_DELAY + pace.on.frame
  }

  /** A lost packet costs the way it was to take, and the timer that replaces it. */
  function LossCost(pace: Pace): nat {
    pace.RoundTrip() + RETRANSMISSION_TIMEOUT + pace.on.frame
  }

  /** When the next sequence is to be sent at the latest. */
  ghost function NextSend(s: State, pace: Pace): int {
    Times(|s.attempted|, Period(pace)) + Times(Losses(s), LossCost(pace)) + Spent(s, pace)
  }

  /** When the awaited acknowledgement is to be home, but for a busy router. */
  ghost function Home(s: State, pace: Pace): int {
    NextSend(s, pace) - NEXT_SEND_DELAY - PROCESSING_DELAY
  }

  /** The next sequence is about to be sent by the given time, and the clock has not left that behind. */
  ghost predicate SendsBy(s: State, e: Event, time: int, late: nat) {
    SendPending(s, e) && e.due <= time && s.now <= e.due + late
  }

  /** The timer will send the awaited sequence again, with enough time left for the whole round trip. */
  ghost predicate RepeatsBy(s: State, pace: Pace, e: Event, home: int, late: nat) {
    OnlyLive(s, e) && e.due + pace.on.frame + pace.RoundTrip() <= home && s.now <= e.due + late
  }

  /** Somebody is on the way for the awaited sequence, or will be. */
  ghost predicate Expected(s: State, pace: Pace, home: int, ph: Phase, late: nat) {
    Courier(s, pace, home, ph) || exists e :: RepeatsBy(s, pace, e, home, late)
  }

  ghost predicate OnSchedule(s: State, pace: Pace, ph: Phase, late: nat) {
    !s.completed ==>
      if s.awaiting.Some? then Expected(s, pace, Home(s, pace), ph, late)
      else exists e :: SendsBy(s, e, NextSend(s, pace), late)
  }

  lemma {:induction false} TimesGrow(a: nat, b: nat, v: nat)
    requires a <= b
    ensures Times(a, v) <= Times(b, v)
    ensures a < b ==> Times(a, v) + v <= Times(b, v)
    decreases b
  {
    if a < b {
      TimesGrow(a, b - 1, v);
    }
  }

  /** What is allowed never shrinks, and grows by the cost of every loss. */
  lemma SameAllowance(s: State, t: State, pace: Pace, earned: nat)
    requires t.cfg == s.cfg && t.attempted == s.attempted && Spent(t, pace) >= Spent(s, pace) + earned
    requires Losses(t) >= Losses(s)
    ensures NextSend(t, pace) >= NextSend(s, pace) + earned
    ensures Losses(t) > Losses(s) ==> NextSend(t, pace) >= NextSend(s, pace) + earned + LossCost(pace)
  {
    TimesGrow(Losses(s), Losses(t), LossCost(pace));
  }

  /** Where a transmission leaves its packet. */
  lemma TransmitAdds(s: State, rs: Routes, q: int, again: bool)
    requires GoodNetwork(s, rs) && q < s.cfg.goal
    ensures var t := Transmit(s, q, again);
      && Undisturbed(s, t) && IndexOf(s.cfg.ids, s.cfg.source) < |t.routers|
      && DataPacket(s, q, again) in t.routers[IndexOf(s.cfg.ids, s.cfg.source)].queue
  {
    NextHop(s.cfg, rs, Data, 0);
    TransmitUndisturbed(s, q, again);
    var s1 := s.(nextPacketId := s.nextPacketId + 1, attempted := s.attempted + {q});
    var s2 := s1.(stats := Inject(s1, DataPacket(s, q, again)).stats);
    EnqueueAdds(s2, s.cfg.source, DataPacket(s, q, again));
  }

  /** A new sequence sets out with the whole round trip before it. */
  lemma SetsOut(s: State, pace: Pace, q: int, again: bool, credit: int, dt: nat)
    requires GoodNetwork(s, pace.rs) && Prompt(s) && s.cfg.mode == TCP && q < s.cfg.goal
    requires s.now <= credit - pace.RoundTrip()
    ensures Courier(Transmit(s, q, again), pace, credit, Phase(0, 0, dt))
  {
    var t, p, j := Transmit(s, q, again), DataPacket(s, q, again), IndexOf(s.cfg.ids, s.cfg.source);
    TransmitAdds(s, pace.rs, q, again);
    TransmitTimers(s, q, again);
    assert pace.rs.data[0..] == pace.rs.data;
    assert CourierWaits(t, pace, credit, Phase(0, 0, dt), j, p);
  }

  // ---------------------------------------------------------------- timers

  /** The clock and the sender's state are the same, and what is allowed is no less. */
  ghost predicate NoWorse(s: State, t: State, pace: Pace) {
    && t.now == s.now && t.awaiting == s.awaiting && t.completed == s.completed
    && NextSend(t, pace) >= NextSend(s, pace)
  }

  lemma PauseGoesOn(s: State, t: State, pace: Pace, e: Event, late: nat)
    requires NoWorse(s, t, pace) && SendsBy(s, e, NextSend(s, pace), late) && e in t.events
    ensures SendsBy(t, e, NextSend(t, pace), late)
  {
  }

  lemma RestTimer(s: State, timer: Event)
    requires ProtocolOk(s) && s.running && s.cfg.mode == TCP && !s.completed
    requires s.events != [] && Fired(s).None? && OnlyLive(s, timer)
    ensures OnlyLive(Rest(s), timer)
  {
    RestTimers(s);
  }

  /** Going off without effect changes nothing that is allowed. */
  lemma RestAllows(s: State, pace: Pace)
    requires s.events != []
    ensures NoWorse(s, Rest(s), pace) && Home(Rest(s), pace) >= Home(s, pace)
  {
    SameSpent(s, Rest(s), pace);
    SameLosses(s, Rest(s));
    SameAllowance(s, Rest(s), pace, 0);
  }

  lemma RestExpected(s: State, pace: Pace, dt: nat)
    requires Sound(s, pace.rs) && s.events != [] && Fired(s).None? && !s.completed
    requires Expected(s, pace, Home(s, pace), Phase(0, 0, dt), dt)
    ensures Expected(Rest(s), pace, Home(Rest(s), pace), Phase(0, 0, dt), dt)
  {
    RestAllows(s, pace);
    if Courier(s, pace, Home(s, pace), Phase(0, 0, dt)) {
      CourierUndisturbed(s, Rest(s), pace, Home(s, pace), Phase(0, 0, dt));
      MoreCredit(Rest(s), pace, Home(s, pace), Home(Rest(s), pace), Phase(0, 0, dt));
    } else {
      var e :| RepeatsBy(s, pace, e, Home(s, pace), dt);
      RestTimer(s, e);
      assert RepeatsBy(Rest(s), pace, e, Home(Rest(s), pace), dt);
    }
  }

  lemma RestOnSchedule(s: State, pace: Pace, dt: nat)
    requires Sound(s, pace.rs) && s.events != [] && Fired(s).None?
    requires OnSchedule(s, pace, Phase(0, 0, dt), dt)
    ensures OnSchedule(Rest(s), pace, Phase(0, 0, dt), dt)
  {
    if !s.completed {
      if s.awaiting.Some? {
        RestExpected(s, pace, dt);
      } else {
        RestAllows(s, pace);
        RestTimers(s);
        var e :| SendsBy(s, e, NextSend(s, pace), dt);
        PauseGoesOn(s, Rest(s), pace, e, dt);
      }
    }
  }

  lemma RepeatIsDue(s: State)
    requires ProtocolOk(s) && s.running && s.cfg.mode == TCP && s.events != [] && Fired(s).Some? && s.awaiting.Some?
    ensures var q := s.awaiting.value;
      q < s.cfg.goal && q in s.attempted && Fire(s) == Transmit(Rest(s), q, true)
  {
    FiredIsPending(s);
    FireCases(s);
  }

  lemma RepeatAtSender(s: State, q: int)
    requires s.cfg.mode == TCP && q < s.cfg.goal && q in s.attempted && s.awaiting == Some(q)
    ensures var t := Transmit(s, q, true);
      t.cfg == s.cfg && t.now == s.now && t.awaiting == s.awaiting && t.completed == s.completed
      && t.attempted == s.attempted
  {
    TransmitCounters(s, q, true);
    TransmitTimers(s, q, true);
    assert s.attempted + {q} == s.attempted;
  }

  lemma RepeatIsNoWorse(s: State, pace: Pace, q: int)
    requires GoodNetwork(s, pace.rs) && s.cfg.mode == TCP && q < s.cfg.goal && q in s.attempted
    requires s.stats.retransmissions >= 0 && s.awaiting == Some(q)
    ensures NoWorse(s, Transmit(s, q, true), pace)
  {
    TransmitSpent(s, pace, q, true);
    TransmitLosses(pace.rs, s, q, true);
    RepeatAtSender(s, q);
    SameAllowance(s, Transmit(s, q, true), pace, 0);
  }

  lemma FireIsNoWorse(s: State, pace: Pace)
    requires Sound(s, pace.rs) && s.events != [] && Fired(s).Some? && s.awaiting.Some?
    ensures NoWorse(s, Fire(s), pace)
  {
    RepeatIsDue(s);
    SamePackets(pace.rs, s, Rest(s));
    RestAllows(s, pace);
    RepeatIsNoWorse(Rest(s), pace, s.awaiting.value);
  }

  /** The one live timer is the one that goes off, and what it sends has the whole round trip before it. */
  lemma RepeatSetsOut(s: State, pace: Pace, e: Event, dt: nat)
    requires Sound(s, pace.rs) && s.events != [] && Fired(s).Some? && s.awaiting.Some? && dt <= pace.on.frame
    requires RepeatsBy(s, pace, e, Home(s, pace), dt)
    ensures Courier(Fire(s), pace, Home(s, pace), Phase(0, 0, dt))
  {
    RepeatIsDue(s);
    SamePackets(pace.rs, s, Rest(s));
    SetsOut(Rest(s), pace, s.awaiting.value, true, Home(s, pace), dt);
  }

  lemma RepeatOnSchedule(s: State, pace: Pace, dt: nat)
    requires Sound(s, pace.rs) && s.events != [] && Fired(s).Some? && s.awaiting.Some? && dt <= pace.on.frame
    requires OnSchedule(s, pace, Phase(0, 0, dt), dt)
    ensures OnSchedule(Fire(s), pace, Phase(0, 0, dt), dt)
  {
    FireIsNoWorse(s, pace);
    if !s.completed {
      if Courier(s, pace, Home(s, pace), Phase(0, 0, dt)) {
        FireUndisturbed(s);
        CourierUndisturbed(s, Fire(s), pace, Home(s, pace), Phase(0, 0, dt));
      } else {
        var e :| RepeatsBy(s, pace, e, Home(s, pace), dt);
        RepeatSetsOut(s, pace, e, dt);
      }
      MoreCredit(Fire(s), pace, Home(s, pace), Home(Fire(s), pace), Phase(0, 0, dt));
    }
  }

  lemma FirstIsDue(s: State)
    requires ProtocolOk(s) && s.running && s.cfg.mode == TCP && s.events != [] && Fired(s).Some? && s.awaiting == None
    ensures var q := Fired(s).value.0;
      q < s.cfg.goal && q !in s.attempted && Fire(s) == Transmit(Rest(s), q, false)
    ensures forall e :: SendPending(s, e) ==> e == s.events[0]
  {
    FiredIsPending(s);
    FireCases(s);
  }

  lemma FirstCounts(s: State, pace: Pace, q: int)
    requires GoodNetwork(s, pace.rs) && s.cfg.mode == TCP && q < s.cfg.goal && q !in s.attempted
    requires s.stats.retransmissions >= 0
    ensures var t := Transmit(s, q, false);
      t.awaiting.Some? && |t.attempted| == |s.attempted| + 1 && Spent(t, pace) == Spent(s, pace)
      && Losses(t) == Losses(s)
  {
    TransmitSpent(s, pace, q, false);
    TransmitLosses(pace.rs, s, q, false);
    TransmitCounters(s, q, false);
    TransmitTimers(s, q, false);
  }

  lemma FirstOnSchedule(s: State, pace: Pace, dt: nat)
    requires Sound(s, pace.rs) && s.events != [] && Fired(s).Some? && s.awaiting == None && dt <= pace.on.frame
    requires OnSchedule(s, pace, Phase(0, 0, dt), dt)
    ensures OnSchedule(Fire(s), pace, Phase(0, 0, dt), dt)
  {
    FiredIsPending(s);
    FirstIsDue(s);
    var e :| SendsBy(s, e, NextSend(s, pace), dt);
    RestAllows(s, pace);
    SamePackets(pace.rs, s, Rest(s));
    FirstGoesOut(Rest(s), pace, Fired(s).value.0, dt);
  }

  lemma FirstGoesOut(s: State, pace: Pace, q: int, dt: nat)
    requires GoodNetwork(s, pace.rs) && Prompt(s) && s.cfg.mode == TCP && q < s.cfg.goal && q !in s.attempted
    requires s.stats.retransmissions >= 0 && s.now <= NextSend(s, pace) + pace.on.frame
    ensures OnSchedule(Transmit(s, q, false), pace, Phase(0, 0, dt), dt)
  {
    FirstCounts(s, pace, q);
    SetsOut(s, pace, q, false, Home(Transmit(s, q, false), pace), dt);
  }

  lemma FireOnSchedule(s: State, pace: Pace, dt: nat)
    requires Sound(s, pace.rs) && s.events != [] && dt <= pace.on.frame
    requires OnSchedule(s, pace, Phase(0, 0, dt), dt)
    ensures OnSchedule(Fire(s), pace, Phase(0, 0, dt), dt)
  {
    if Fired(s).None? {
      FireCases(s);
      RestOnSchedule(s, pace, dt);
    } else if s.awaiting.Some? {
      RepeatOnSchedule(s, pace, dt);
    } else {
      FirstOnSchedule(s, pace, dt);
    }
  }

  ghost function TimersIn(pace: Pace, dt: nat): State -> bool {
    (s: State) => Sound(s, pace.rs) && OnSchedule(s, pace, Phase(0, 0, dt), dt)
  }

  lemma TimersOnSchedule(pace: Pace, dt: nat)
    requires dt <= pace.on.frame
    ensures KeptByFiring(TimersIn(pace, dt))
  {
    var p := TimersIn(pace, dt);
    forall s: State | p(s) && s.running && s.events != [] && s.events[0].due <= s.now
      ensures p(Fire(s)) && Fire(s).running {
      FireSound(s, pace.rs);
      FireOnSchedule(s, pace, dt);
    }
  }

  lemma {:induction false} NothingIsDue(s: State)
    ensures var t := RunDueEvents(s); t.events == [] || t.events[0].due > t.now
    decreases DueCount(s.events, s.now)
  {
    if s.events != [] && s.events[0].due <= s.now {
      FireUsesUpDue(s);
      NothingIsDue(Fire(s));
    }
  }

  lemma RunDueOnSchedule(s: State, pace: Pace, dt: nat)
    requires Sound(s, pace.rs) && OnSchedule(s, pace, Phase(0, 0, dt), dt) && dt <= pace.on.frame
    ensures var t := RunDueEvents(s); Sound(t, pace.rs) && OnSchedule(t, pace, Phase(0, 0, dt), 0) && Punctual(t)
  {
    TimersOnSchedule(pace, dt);
    RunDueKeeps(TimersIn(pace, dt), s);
    NothingIsDue(s);
    AllAreLater(RunDueEvents(s), pace, dt);
  }

  /** The clock has left no timer behind. */
  ghost predicate Punctual(s: State) {
    forall e :: e in s.events ==> s.now <= e.due
  }

  lemma AllAreLater(s: State, pace: Pace, dt: nat)
    requires Sound(s, pace.rs) && OnSchedule(s, pace, Phase(0, 0, dt), dt)
    requires s.events == [] || s.events[0].due > s.now
    ensures OnSchedule(s, pace, Phase(0, 0, dt), 0) && Punctual(s)
  {
    forall e | e in s.events ensures s.now <= e.due {
      var i :| 0 <= i < |s.events| && s.events[i] == e;
    }
    if !s.completed {
      if s.awaiting == None {
        var e :| SendsBy(s, e, NextSend(s, pace), dt);
        assert SendsBy(s, e, NextSend(s, pace), 0);
      } else if e :| RepeatsBy(s, pace, e, Home(s, pace), dt) {
        assert RepeatsBy(s, pace, e, Home(s, pace), 0);
      }
    }
  }

  // ---------------------------------------------------------------- routers and links

  /** The outcome that router id gives its packet is one that the conditions allow. */
  predicate Fits(on: Conditions, id: int, o: Outcome) {
    o.delay <= on.delay(id) && (o.duplicated ==> on.duplicates) && (o.dropped ==> on.losses)
  }

  function Fitting(on: Conditions): (int, Outcome) -> bool {
    (id, o) => Fits(on, id, o)
  }

  lemma TurnPausing(s: State, t: State, pace: Pace, ph: Phase, after: Phase)
    requires OnSchedule(s, pace, ph, 0) && !s.completed && s.awaiting == None
    requires NoWorse(s, t, pace) && t.events == s.events
    ensures OnSchedule(t, pace, after, 0)
  {
    var e :| SendsBy(s, e, NextSend(s, pace), 0);
    PauseGoesOn(s, t, pace, e, 0);
  }

  lemma TurnAllows(s: State, pace: Pace, i: nat, o: Outcome)
    requires GoodNetwork(s, pace.rs) && i < |s.routers| && Fits(pace.on, s.routers[i].id, o)
    ensures var t := Dispatch(s, i, o);
      && Home(t, pace) >= Home(s, pace) + Earned(s, pace, i) && NoWorse(s, t, pace) && t.events == s.events
      && (Losses(t) > Losses(s) ==> Home(t, pace) >= Home(s, pace) + Earned(s, pace, i) + LossCost(pace))
  {
    DispatchSpent(s, pace, i, o);
    DispatchLosses(pace.rs, s, i, o);
    SameAllowance(s, Dispatch(s, i, o), pace, Earned(s, pace, i));
  }

  lemma TimerStays(s: State, t: State, timer: Event)
    requires OnlyLive(s, timer) && t.events == s.events && t.awaiting == s.awaiting && t.token == s.token
    requires t.nextSequence == s.nextSequence && t.now == s.now && Elapsed(t) == Elapsed(s)
    ensures OnlyLive(t, timer)
  {
  }

  /** The courier is lost: its timer is no further off than a timeout, and a loss pays for that. */
  lemma TimerTakesOver(s: State, t: State, pace: Pace, i: nat, o: Outcome, dt: nat)
    requires ProtocolOk(s) && s.running && s.cfg.mode == TCP && !s.completed && Punctual(s)
    requires IsLost(s, pace, Home(s, pace), i, o, dt) && SameProtocol(s, t)
    requires Home(t, pace) >= Home(s, pace) + Earned(s, pace, i) + LossCost(pace)
    ensures exists e :: RepeatsBy(t, pace, e, Home(t, pace), 0)
  {
    var e :| OnlyLive(s, e);
    TimerStays(s, t, e);
    assert RepeatsBy(t, pace, e, Home(t, pace), 0);
  }

  /** A courier whose link loses it is a loss that was not counted before. */
  lemma LossIsCounted(s: State, pace: Pace, i: nat, o: Outcome, dt: nat)
    requires GoodNetwork(s, pace.rs) && OpenTcp(s.cfg, pace.rs) && i < |s.routers|
    requires IsLost(s, pace, Home(s, pace), i, o, dt)
    ensures Losses(Dispatch(s, i, o)) > Losses(s)
  {
    NotFiltered(s, pace.rs, i);
    DispatchTotal(pace.rs, s, i, o, Losts());
  }

  lemma TurnExpected(s: State, t: State, pace: Pace, i: nat, o: Outcome, dt: nat)
    requires TurnOf(s, t, i, o) && SameProtocol(s, t) && Home(t, pace) >= Home(s, pace) + Earned(s, pace, i)
    requires Fits(pace.on, s.routers[i].id, o) && !IsLost(s, pace, Home(s, pace), i, o, dt)
    requires Expected(s, pace, Home(s, pace), Phase(i, 0, dt), 0)
    ensures Expected(t, pace, Home(t, pace), Phase(i + 1, 0, dt), 0)
  {
    if Courier(s, pace, Home(s, pace), Phase(i, 0, dt)) {
      CourierTurn(s, t, pace, Home(s, pace), Home(t, pace), i, o, dt);
    } else {
      var e :| RepeatsBy(s, pace, e, Home(s, pace), 0);
      TimerStays(s, t, e);
      assert RepeatsBy(t, pace, e, Home(t, pace), 0);
    }
  }

  lemma DispatchExpected(s: State, pace: Pace, i: nat, o: Outcome, dt: nat)
    requires Sound(s, pace.rs) && i < |s.routers| && Fits(pace.on, s.routers[i].id, o) && Punctual(s)
    requires !s.completed && Expected(s, pace, Home(s, pace), Phase(i, 0, dt), 0)
    ensures Expected(Dispatch(s, i, o), pace, Home(Dispatch(s, i, o), pace), Phase(i + 1, 0, dt), 0)
  {
    TurnAllows(s, pace, i, o);
    if IsLost(s, pace, Home(s, pace), i, o, dt) {
      LossIsCounted(s, pace, i, o, dt);
      TimerTakesOver(s, Dispatch(s, i, o), pace, i, o, dt);
    } else {
      DispatchIsTurn(s, pace.rs, i, o);
      TurnExpected(s, Dispatch(s, i, o), pace, i, o, dt);
    }
  }

  lemma DispatchOnSchedule(s: State, pace: Pace, i: nat, o: Outcome, dt: nat)
    requires Sound(s, pace.rs) && i < |s.routers| && Fits(pace.on, s.routers[i].id, o) && Punctual(s)
    requires OnSchedule(s, pace, Phase(i, 0, dt), 0)
    ensures OnSchedule(Dispatch(s, i, o), pace, Phase(i + 1, 0, dt), 0) && Punctual(Dispatch(s, i, o))
  {
    if !s.completed {
      if s.awaiting.Some? {
        DispatchExpected(s, pace, i, o, dt);
      } else {
        TurnAllows(s, pace, i, o);
        TurnPausing(s, Dispatch(s, i, o), pace, Phase(i, 0, dt), Phase(i + 1, 0, dt));
      }
    }
  }

  lemma AgeAllows(s: State, pace: Pace, k: nat, dt: nat)
    requires k < |s.flights|
    ensures NoWorse(s, Age(s, k, dt), pace) && Home(Age(s, k, dt), pace) >= Home(s, pace)
  {
    AgeSpent(s, pace, k, dt);
    AgeLosses(s, k, dt);
    SameAllowance(s, Age(s, k, dt), pace, 0);
  }

  lemma AgeExpected(s: State, pace: Pace, k: nat, dt: nat)
    requires k < |s.flights| && s.flights[k].remaining - dt > 0
    requires Expected(s, pace, Home(s, pace), Phase(|s.routers|, k, dt), 0)
    ensures Expected(Age(s, k, dt), pace, Home(Age(s, k, dt), pace), Phase(|s.routers|, k + 1, dt), 0)
  {
    var t := Age(s, k, dt);
    AgeAllows(s, pace, k, dt);
    if Courier(s, pace, Home(s, pace), Phase(|s.routers|, k, dt)) {
      AgeCourier(s, pace, Home(s, pace), k, dt);
      MoreCredit(t, pace, Home(s, pace), Home(t, pace), Phase(|s.routers|, k + 1, dt));
    } else {
      var e :| RepeatsBy(s, pace, e, Home(s, pace), 0);
      TimerStays(s, t, e);
      assert RepeatsBy(t, pace, e, Home(t, pace), 0);
    }
  }

  lemma AgeOnSchedule(s: State, pace: Pace, k: nat, dt: nat)
    requires k < |s.flights| && s.flights[k].remaining - dt > 0
    requires OnSchedule(s, pace, Phase(|s.routers|, k, dt), 0)
    ensures OnSchedule(Age(s, k, dt), pace, Phase(|s.routers|, k + 1, dt), 0)
  {
    if !s.completed {
      if s.awaiting.Some? {
        AgeExpected(s, pace, k, dt);
      } else {
        AgeAllows(s, pace, k, dt);
        TurnPausing(s, Age(s, k, dt), pace, Phase(|s.routers|, k, dt), Phase(|s.routers|, k + 1, dt));
      }
    }
  }

  /** The awaited acknowledgement is home: the next sequence follows after a pause, or all is done. */
  lemma AckAtSender(s: State, t: State, ackFor: Option<int>)
    requires t == OnAckReceived(s, ackFor) && s.awaiting == ackFor && ackFor.Some? && !t.completed
    ensures t.awaiting == None && exists e :: SendPending(t, e) && e.due == s.now + NEXT_SEND_DELAY
  {
    assert SendPending(t, Event(s.now + NEXT_SEND_DELAY, s.nextEventId, SendData(ackFor.value + 1)));
  }

  /** What a landing can do to the sender: nothing, or the awaited acknowledgement is home. */
  lemma LandAtSender(s: State, rs: Routes, k: nat)
    requires GoodNetwork(s, rs) && k < |s.flights|
    ensures var t := Land(s, k);
      && t.now == s.now && |t.routers| == |s.routers|
      && (t.awaiting == s.awaiting ==> t.completed == s.completed && t.events == s.events)
      && (t.awaiting != s.awaiting && !t.completed ==>
            s.awaiting.Some? && t.awaiting == None && !s.completed
            && exists e :: SendPending(t, e) && e.due == s.now + NEXT_SEND_DELAY)
  {
    var f := s.flights[k];
    assert FlightOk(s.cfg, rs, s.attempted, s.delivered, f);
    LandTimers(s, k);
    if !f.dropped && f.end == f.packet.destination && f.packet.kind == Ack {
      var s1 := Ended(s, k).(log := s.log + [Delivered(Arrived(f))]);
      if s.awaiting == f.packet.ackFor && !Land(s, k).completed {
        AckAtSender(s1, Land(s, k), f.packet.ackFor);
      }
    }
  }

  lemma LandAllows(s: State, pace: Pace, k: nat)
    requires GoodNetwork(s, pace.rs) && k < |s.flights|
    ensures NextSend(Land(s, k), pace) >= NextSend(s, pace)
  {
    LandSpent(s, pace, k);
    LandLosses(pace.rs, s, k);
    LandCounters(s, k);
    SameAllowance(s, Land(s, k), pace, 0);
  }

  /** If the sender goes on waiting, its timer is the same. */
  lemma LandTimer(s: State, k: nat, timer: Event)
    requires k < |s.flights| && OnlyLive(s, timer) && s.awaiting.Some? && Land(s, k).awaiting == s.awaiting
    ensures OnlyLive(Land(s, k), timer)
  {
    LandTimers(s, k);
    LandCounters(s, k);
    MarkKeepsRetransmissions(s, s.flights[k]);
    TimerStays(s, Land(s, k), timer);
  }

  lemma LandExpected(s: State, pace: Pace, k: nat, dt: nat)
    requires Sound(s, pace.rs) && k < |s.flights| && s.awaiting.Some? && Land(s, k).awaiting == s.awaiting
    requires Expected(s, pace, Home(s, pace), Phase(|s.routers|, k, dt), 0)
    ensures Expected(Land(s, k), pace, Home(Land(s, k), pace), Phase(|s.routers|, k, dt), 0)
  {
    LandAllows(s, pace, k);
    if Courier(s, pace, Home(s, pace), Phase(|s.routers|, k, dt)) {
      LandCourier(s, pace, Home(s, pace), k, dt);
      MoreCredit(Land(s, k), pace, Home(s, pace), Home(Land(s, k), pace), Phase(|s.routers|, k, dt));
    } else {
      var e :| RepeatsBy(s, pace, e, Home(s, pace), 0);
      LandTimer(s, k, e);
      LandAtSender(s, pace.rs, k);
      assert RepeatsBy(Land(s, k), pace, e, Home(Land(s, k), pace), 0);
    }
  }

  lemma LandOnSchedule(s: State, pace: Pace, k: nat, dt: nat)
    requires Sound(s, pace.rs) && k < |s.flights| && OnSchedule(s, pace, Phase(|s.routers|, k, dt), 0)
    ensures OnSchedule(Land(s, k), pace, Phase(|s.routers|, k, dt), 0)
  {
    LandAllows(s, pace, k);
    LandAtSender(s, pace.rs, k);
    if Land(s, k).awaiting == s.awaiting {
      SenderGoesOn(s, Land(s, k), pace, k, dt);
    } else if !Land(s, k).completed {
      SenderPauses(s, Land(s, k), pace, k, dt);
    }
  }

  lemma SenderGoesOn(s: State, t: State, pace: Pace, k: nat, dt: nat)
    requires Sound(s, pace.rs) && k < |s.flights| && OnSchedule(s, pace, Phase(|s.routers|, k, dt), 0)
    requires t == Land(s, k) && NoWorse(s, t, pace) && t.events == s.events
    ensures OnSchedule(t, pace, Phase(|s.routers|, k, dt), 0)
  {
    if !s.completed {
      if s.awaiting.Some? {
        LandExpected(s, pace, k, dt);
      } else {
        TurnPausing(s, t, pace, Phase(|s.routers|, k, dt), Phase(|s.routers|, k, dt));
      }
    }
  }

  /** The clock is no further than the way home may take. */
  lemma ExpectedClock(s: State, pace: Pace, k: nat, dt: nat)
    requires GoodNetwork(s, pace.rs) && Expected(s, pace, Home(s, pace), Phase(|s.routers|, k, dt), 0)
    ensures s.now <= Home(s, pace) + PROCESSING_DELAY
  {
    if Courier(s, pace, Home(s, pace), Phase(|s.routers|, k, dt)) {
      CourierClock(s, pace, Home(s, pace), k, dt);
    }
  }

  lemma SenderPauses(s: State, t: State, pace: Pace, k: nat, dt: nat)
    requires Sound(s, pace.rs) && OnSchedule(s, pace, Phase(|s.routers|, k, dt), 0) && !s.completed && s.awaiting.Some?
    requires t.now == s.now && NextSend(t, pace) >= NextSend(s, pace) && t.awaiting == None
    requires exists e :: SendPending(t, e) && e.due == s.now + NEXT_SEND_DELAY
    ensures OnSchedule(t, pace, Phase(|s.routers|, k, dt), 0)
  {
    ExpectedClock(s, pace, k, dt);
    var e :| SendPending(t, e) && e.due == s.now + NEXT_SEND_DELAY;
    assert SendsBy(t, e, NextSend(t, pace), 0);
  }

  // ---------------------------------------------------------------- passes

  /** p holds of a state in which i routers have had their turn. */
  ghost function RoutersIn(pace: Pace, dt: nat): (State, int) -> bool {
    (s: State, i: int) => Sound(s, pace.rs) && OnSchedule(s, pace, Phase(i, 0, dt), 0) && Punctual(s)
  }

  ghost function FlightsIn(pace: Pace, dt: nat): (State, int) -> bool {
    (s: State, k: int) => Sound(s, pace.rs) && OnSchedule(s, pace, Phase(|s.routers|, k, dt), 0)
  }

  lemma RouterStep(pace: Pace, dt: nat, s: State, i: nat, o: Outcome)
    requires RoutersIn(pace, dt)(s, i) && i < |s.routers| && Fits(pace.on, s.routers[i].id, o)
    ensures RoutersIn(pace, dt)(Dispatch(s, i, o), i + 1)
  {
    DispatchSound(s, pace.rs, i, o);
    DispatchOnSchedule(s, pace, i, o, dt);
  }

  lemma AgeStep(pace: Pace, dt: nat, s: State, k: nat)
    requires FlightsIn(pace, dt)(s, k) && k < |s.flights| && s.flights[k].remaining - dt > 0
    ensures FlightsIn(pace, dt)(Age(s, k, dt), k + 1)
  {
    AgeSound(s, pace.rs, k, dt);
    AgeOnSchedule(s, pace, k, dt);
  }

  lemma LandStep(pace: Pace, dt: nat, s: State, k: nat)
    requires FlightsIn(pace, dt)(s, k) && k < |s.flights|
    ensures FlightsIn(pace, dt)(Land(s, k), k)
  {
    LandSound(s, pace.rs, k);
    LandOnSchedule(s, pace, k, dt);
  }

  lemma TurnsOnSchedule(pace: Pace, dt: nat)
    ensures KeptByTurns(RoutersIn(pace, dt), Fitting(pace.on))
  {
    var p := RoutersIn(pace, dt);
    forall s: State, i: nat, o: Outcome | p(s, i) && i < |s.routers| && Fitting(pace.on)(s.routers[i].id, o)
      ensures p(Dispatch(s, i, o), i + 1) {
      RouterStep(pace, dt, s, i, o);
    }
  }

  lemma EndsOnSchedule(pace: Pace, dt: nat)
    ensures KeptByEnds(FlightsIn(pace, dt), dt)
  {
    var p := FlightsIn(pace, dt);
    forall s: State, k: nat | p(s, k) && k < |s.flights| && s.flights[k].remaining - dt > 0
      ensures p(Age(s, k, dt), k + 1) {
      AgeStep(pace, dt, s, k);
    }
    forall s: State, k: nat | p(s, k) && k < |s.flights| && s.flights[k].remaining - dt <= 0
      ensures p(Land(s, k), k) {
      LandStep(pace, dt, s, k);
    }
  }

  lemma FrameIsOver(s: State, pace: Pace, dt: nat)
    requires OnSchedule(s, pace, Phase(|s.routers|, |s.flights|, dt), 0)
    ensures OnSchedule(s, pace, Done(s), 0)
  {
    if !s.completed && s.awaiting.Some? && Courier(s, pace, Home(s, pace), Phase(|s.routers|, |s.flights|, dt)) {
      CourierIsDone(s, pace, Home(s, pace), dt);
    }
  }

  lemma CourierIsDone(s: State, pace: Pace, credit: int, dt: nat)
    requires Courier(s, pace, credit, Phase(|s.routers|, |s.flights|, dt))
    ensures Courier(s, pace, credit, Done(s))
  {
    if j: nat, p :| CourierWaits(s, pace, credit, Phase(|s.routers|, |s.flights|, dt), j, p) {
      assert CourierWaits(s, pace, credit, Done(s), j, p);
    } else {
      var k: nat :| CourierRides(s, pace, credit, Phase(|s.routers|, |s.flights|, dt), k);
      assert CourierRides(s, pace, credit, Done(s), k);
    }
  }

  // ---------------------------------------------------------------- whole frames

  lemma LaterAllows(s: State, pace: Pace, dt: nat)
    ensures NextSend(Later(s, dt), pace) >= NextSend(s, pace) && Home(Later(s, dt), pace) >= Home(s, pace)
  {
    SameSpent(s, Later(s, dt), pace);
    SameLosses(s, Later(s, dt));
    SameAllowance(s, Later(s, dt), pace, 0);
  }

  lemma LaterTimer(s: State, dt: nat, timer: Event)
    requires OnlyLive(s, timer)
    ensures OnlyLive(Later(s, dt), timer)
  {
  }

  lemma LaterExpected(s: State, pace: Pace, dt: nat)
    requires Expected(s, pace, Home(s, pace), Done(s), 0) && dt <= pace.on.frame
    ensures Expected(Later(s, dt), pace, Home(Later(s, dt), pace), Phase(0, 0, dt), dt)
  {
    var t := Later(s, dt);
    LaterAllows(s, pace, dt);
    if Courier(s, pace, Home(s, pace), Done(s)) {
      CourierLater(s, pace, Home(s, pace), dt);
      MoreCredit(t, pace, Home(s, pace), Home(t, pace), Phase(0, 0, dt));
    } else {
      var e :| RepeatsBy(s, pace, e, Home(s, pace), 0);
      LaterTimer(s, dt, e);
      assert RepeatsBy(t, pace, e, Home(t, pace), dt);
    }
  }

  lemma LaterOnSchedule(s: State, pace: Pace, dt: nat)
    requires OnSchedule(s, pace, Done(s), 0) && dt <= pace.on.frame
    ensures OnSchedule(Later(s, dt), pace, Phase(0, 0, dt), dt)
  {
    if !s.completed {
      if s.awaiting.Some? {
        LaterExpected(s, pace, dt);
      } else {
        LaterAllows(s, pace, dt);
        var e :| SendsBy(s, e, NextSend(s, pace), 0);
        assert SendsBy(Later(s, dt), e, NextSend(Later(s, dt), pace), dt);
      }
    }
  }

  lemma LinksOnSchedule(s: State, pace: Pace, dt: nat, choice: int -> Outcome)
    requires Sound(s, pace.rs) && OnSchedule(s, pace, Phase(0, 0, dt), 0) && Punctual(s)
    requires forall id :: Fits(pace.on, id, choice(id))
    ensures var t := AdvanceInFlight(DispatchRouters(s, 0, choice), 0, dt);
      Sound(t, pace.rs) && OnSchedule(t, pace, Done(t), 0)
  {
    TurnsOnSchedule(pace, dt);
    EndsOnSchedule(pace, dt);
    TurnsKeep(RoutersIn(pace, dt), Fitting(pace.on), s, 0, choice);
    EndsKeep(FlightsIn(pace, dt), DispatchRouters(s, 0, choice), 0, dt);
    FrameIsOver(AdvanceInFlight(DispatchRouters(s, 0, choice), 0, dt), pace, dt);
  }

  lemma FrameOnSchedule(s: State, pace: Pace, dt: nat, choice: int -> Outcome)
    requires Sound(s, pace.rs) && OnSchedule(s, pace, Done(s), 0)
    requires dt <= pace.on.frame && forall id :: Fits(pace.on, id, choice(id))
    ensures var t := Frame(s, dt, choice); Sound(t, pace.rs) && OnSchedule(t, pace, Done(t), 0)
  {
    LaterSound(s, pace.rs, dt);
    LaterOnSchedule(s, pace, dt);
    RunDueOnSchedule(Later(s, dt), pace, dt);
    LinksOnSchedule(RunDueEvents(Later(s, dt)), pace, dt, choice);
  }

  /** What the schedule says about the clock. */
  lemma ScheduleClock(s: State, pace: Pace)
    requires Sound(s, pace.rs) && OnSchedule(s, pace, Done(s), 0) && !s.completed
    ensures s.now <= NextSend(s, pace)
  {
    if s.awaiting.Some? {
      ExpectedClock(s, pace, |s.flights|, 0);
    }
  }
}
