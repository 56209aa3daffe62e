/**
 * What a user may rely on: TCP gets the job done by a time that is known and grows with the number of packets
 * lost, even if round trips are longer than the timeout, and without a single repeat if they are shorter and
 * nothing is lost.
 */
module Delivery {
  import opened Wrappers
  import opened Packets
  import opened Simulation
  import opened Drain
  import opened Protocol
  import opened Invariants
  import opened Sessions
  import opened Progress
  import opened FaithfulLinks
  import opened Traces
  import opened Couriers
  import opened Timetable
  import opened RoundTrips

  /** Frames and links are as the conditions say. */
  ghost predicate Smooth(steps: seq<Step>, on: Conditions) {
    forall i :: 0 <= i < |steps| && steps[i].Tick? ==> SmoothTick(steps[i], on)
  }

  ghost predicate SmoothTick(step: Step, on: Conditions)
    requires step.Tick?
  {
    step.dt <= on.frame && forall id :: Fits(on, id, step.choice(id))
  }

  ghost function PaceOf(c: Config, on: Conditions): Pace
    requires Configured(c)
  {
    Pace(RoutesOf(c), on)
  }

  // ---------------------------------------------------------------- every session keeps to the timetable

  /** A run in progress is on schedule, and sends nothing twice if round trips are swift. */
  ghost predicate InProgress(s: State, pace: Pace) {
    && Sound(s, pace.rs) && OnSchedule(s, pace, Done(s), 0)
    && (Swift(s.cfg, pace) ==> Unrepeated(s, pace, Done(s)))
  }

  /** All was delivered, or both the limit and the schedule allowed for as long as it took. */
  ghost predicate Over(s: State, pace: Pace) {
    |s.delivered| == s.cfg.goal || MAX_RUNTIME <= s.now <= NextSend(s, pace)
  }

  ghost predicate OpenRun(s: State, pace: Pace) {
    && (s.running ==> InProgress(s, pace))
    && (!s.running && s.completed ==> Over(s, pace))
    && (Swift(s.cfg, pace) ==> s.stats.retransmissions == 0)
  }

  ghost predicate WellRun(s: State, on: Conditions) {
    && Configured(s.cfg) && Good(s, RoutesOf(s.cfg))
    && (OpenTcp(s.cfg, RoutesOf(s.cfg)) ==> OpenRun(s, PaceOf(s.cfg, on)))
  }

  lemma FrameInProgress(s: State, pace: Pace, dt: nat, choice: int -> Outcome)
    requires InProgress(s, pace) && dt <= pace.on.frame && forall id :: Fits(pace.on, id, choice(id))
    ensures InProgress(Frame(s, dt, choice), pace) && Frame(s, dt, choice).cfg == s.cfg
  {
    FrameOnSchedule(s, pace, dt, choice);
    GoodIsKept(pace.rs, s.cfg);
    FrameKeeps(GoodIn(pace.rs, s.cfg), Anything(), s, dt, choice);
    if Swift(s.cfg, pace) {
      FrameUnrepeated(s, pace, dt, choice);
    }
  }

  /** A run in progress goes on or is over. */
  lemma FinishOpen(s: State, pace: Pace)
    requires InProgress(s, pace)
    ensures OpenRun(FinishIfDone(s), pace)
  {
    var t := FinishIfDone(s);
    if t.running {
      assert t == s;
    } else {
      SameSpent(s, t, pace);
      SameLosses(s, t);
      if !s.completed {
        ScheduleClock(s, pace);
      }
    }
  }

  lemma TickWellRun(s: State, dt: nat, choice: int -> Outcome, on: Conditions)
    requires WellRun(s, on) && dt <= on.frame && forall id :: Fits(on, id, choice(id))
    ensures WellRun(Update(s, dt, choice), on)
  {
    UpdateGood(s, RoutesOf(s.cfg), dt, choice);
    if s.running && OpenTcp(s.cfg, RoutesOf(s.cfg)) {
      FrameInProgress(s, PaceOf(s.cfg, on), dt, choice);
      FinishOpen(Frame(s, dt, choice), PaceOf(s.cfg, on));
    }
  }

  /** Before anything is sent the first sequence is due at once, and nothing has been spent. */
  lemma StartOnSchedule(s: State, pace: Pace)
    requires Fresh(s) && Sound(s, pace.rs) && s.awaiting == None && !s.completed && s.now == 0
    requires s.events == [Event(0, 1, SendData(0))]
    ensures InProgress(s, pace)
  {
    FreshTotal(s, Worth(s.cfg, pace.rs, pace.on.duplicates, Charge(pace)));
    FreshTotal(s, Present());
    FreshTotal(s, Losts());
    assert SendsBy(s, s.events[0], NextSend(s, pace), 0);
  }

  lemma StartWellRun(c: Config, on: Conditions)
    requires Configured(c)
    ensures WellRun(StartRun(c), on)
  {
    var s, pace := StartRun(c), PaceOf(c, on);
    FreshStart(c);
    StartIsFresh(c);
    if OpenTcp(c, pace.rs) {
      StartOnSchedule(s, pace);
    }
  }

  lemma ResetWellRun(c: Config, on: Conditions)
    requires Configured(c)
    ensures WellRun(Reset(c), on)
  {
    FreshReset(c);
  }

  lemma {:induction false} SessionWellRun(c: Config, steps: seq<Step>, on: Conditions)
    requires Legal(c, steps) && Smooth(steps, on)
    ensures WellRun(Session(c, steps), on)
  {
    if steps == [] {
      ResetWellRun(c, on);
    } else {
      var front, step := steps[..|steps| - 1], steps[|steps| - 1];
      SessionWellRun(c, front, on);
      match step
      case Start => StartWellRun(Session(c, front).cfg, on);
      case Tick(dt, choice) =>
        assert SmoothTick(step, on);
        TickWellRun(Session(c, front), dt, choice, on);
      case Configure(next) => ResetWellRun(next, on);
    }
  }

  // ---------------------------------------------------------------- in numbers

  lemma SpentIsBounded(s: State, pace: Pace)
    requires InOrder(s) && s.stats.retransmissions >= 0
    ensures NextSend(s, pace)
            <= |s.attempted| * Period(pace) + Losses(s) * LossCost(pace) + Transmissions(s) * Load(s.cfg, pace)
    ensures |s.attempted| <= s.cfg.goal && RETRANSMISSION_TIMEOUT * s.stats.retransmissions <= s.now
  {
    FewTransmissions(s);
    TimesIsProduct(|s.attempted|, Period(pace));
    TimesIsProduct(Losses(s), LossCost(pace));
    TimesIsProduct(Transmissions(s), Load(s.cfg, pace));
  }

  /**
   * When all is delivered, if repeats cost less time than they take: the periods of all sequences, the turns of
   * first transmissions and what losses cost, stretched by the share of time that the turns of repeats leave.
   */
  function DeliveryTime(goal: nat, period: nat, load: nat, lost: nat): nat
    requires load < RETRANSMISSION_TIMEOUT
  {
    RETRANSMISSION_TIMEOUT * (goal * (period + load) + lost) / (RETRANSMISSION_TIMEOUT - load) + 1
  }

  lemma Monotone(a: int, b: int, v: nat)
    requires a <= b
    ensures a * v <= b * v
  {
  }

  lemma Quotient(x: nat, k: nat, now: int)
    requires k > 0 && k * now <= x
    ensures now <= x / k
  {
    if now > x / k {
      Monotone(x / k + 1, now, k);
    }
  }

  /** The clock is behind the delivery time as long as it is covered. */
  lemma CoveredIsEarly(now: int, firsts: nat, repeats: int, goal: nat, period: nat, load: nat, lost: nat)
    requires firsts <= goal && RETRANSMISSION_TIMEOUT * repeats <= now && load < RETRANSMISSION_TIMEOUT
    requires now <= firsts * period + lost + (firsts + repeats) * load
    ensures now < DeliveryTime(goal, period, load, lost)
  {
    Monotone(firsts, goal, period);
    Monotone(firsts, goal, load);
    Monotone(RETRANSMISSION_TIMEOUT * repeats, now, load);
    assert (firsts + repeats) * load == firsts * load + repeats * load;
    assert goal * (period + load) == goal * period + goal * load;
    assert RETRANSMISSION_TIMEOUT * repeats * load == RETRANSMISSION_TIMEOUT * (repeats * load);
    var k := RETRANSMISSION_TIMEOUT - load;
    assert k * now == RETRANSMISSION_TIMEOUT * now - now * load;
    Quotient(RETRANSMISSION_TIMEOUT * (goal * (period + load) + lost), k, now);
  }

  lemma CoveredWithoutRepeats(now: int, firsts: nat, goal: nat, period: nat, load: nat)
    requires firsts <= goal && now <= firsts * period + firsts * load
    ensures now <= goal * (period + load)
  {
    Monotone(firsts, goal, period + load);
    assert firsts * (period + load) == firsts * period + firsts * load;
  }

  function LostTime(losses: nat, cost: nat): nat {
    losses * cost
  }

  /**
   * A time that no unfinished run reaches in which so many packets are lost: one period and one load for each
   * sequence, if there are no repeats.
   */
  ghost function AllDelivered(c: Config, on: Conditions, losses: nat): (time: Option<nat>)
    requires Configured(c)
  {
    var pace := PaceOf(c, on);
    if Swift(c, pace) then Some(c.goal * (Period(pace) + Load(c, pace)) + 1)
    else if Load(c, pace) < RETRANSMISSION_TIMEOUT then
      Some(DeliveryTime(c.goal, Period(pace), Load(c, pace), LostTime(losses, LossCost(pace))))
    else None
  }

  lemma UnrepeatedIsEarly(s: State, pace: Pace)
    requires InOrder(s) && s.stats.retransmissions == 0 && Losses(s) == 0 && s.now <= NextSend(s, pace)
    ensures s.now <= s.cfg.goal * (Period(pace) + Load(s.cfg, pace))
  {
    SpentIsBounded(s, pace);
    CoveredWithoutRepeats(s.now, |s.attempted|, s.cfg.goal, Period(pace), Load(s.cfg, pace));
  }

  lemma RepeatedIsEarly(s: State, pace: Pace)
    requires InOrder(s) && s.stats.retransmissions >= 0 && s.now <= NextSend(s, pace)
    requires 0 <= s.cfg.goal && Load(s.cfg, pace) < RETRANSMISSION_TIMEOUT
    ensures s.now < DeliveryTime(s.cfg.goal, Period(pace), Load(s.cfg, pace), LostTime(Losses(s), LossCost(pace)))
  {
    SpentIsBounded(s, pace);
    CoveredIsEarly(s.now, |s.attempted|, s.stats.retransmissions, s.cfg.goal, Period(pace), Load(s.cfg, pace),
                   LostTime(Losses(s), LossCost(pace)));
  }

  lemma OnScheduleIsEarly(s: State, on: Conditions)
    requires Configured(s.cfg) && InOrder(s) && s.stats.retransmissions >= 0 && s.now <= NextSend(s, PaceOf(s.cfg, on))
    requires Swift(s.cfg, PaceOf(s.cfg, on)) ==> s.stats.retransmissions == 0
    requires !on.losses ==> Losses(s) == 0
    ensures var time := AllDelivered(s.cfg, on, Losses(s)); time.Some? ==> s.now < time.value
  {
    var pace := PaceOf(s.cfg, on);
    if Swift(s.cfg, pace) {
      UnrepeatedIsEarly(s, pace);
    } else if Load(s.cfg, pace) < RETRANSMISSION_TIMEOUT {
      RepeatedIsEarly(s, pace);
    }
  }

  /** On links that are to lose nothing, nothing is lost. */
  lemma NothingIsLost(c: Config, steps: seq<Step>, on: Conditions)
    requires Legal(c, steps) && Smooth(steps, on) && !on.losses
    ensures Losses(Session(c, steps)) == 0
  {
    forall i | 0 <= i < |steps| && steps[i].Tick? ensures forall id :: Intact()(steps[i].choice(id)) {
      assert SmoothTick(steps[i], on);
      assert forall id :: Fits(on, id, steps[i].choice(id));
    }
    SessionTraced(c, steps, true);
  }

  /** Worth in turns without duplication: one per hop. */
  lemma {:induction false} PlainWorth(t: Toll, base: nat, k: nat)
    requires t.landing == 0
    ensures Q(false, t, base, k) == F(false, t, base, k) == base + k * t.dispatch
  {
    if k > 0 {
      PlainWorth(t, base, k - 1);
      assert k * t.dispatch == (k - 1) * t.dispatch + t.dispatch;
    }
  }

  /** Without duplication a transmission costs one turn for each link there and back. */
  lemma PlainLoad(c: Config, pace: Pace)
    requires c.mode == TCP && !pace.on.duplicates
    ensures Load(c, pace) == (Links(pace.rs.data) + Links(pace.rs.ack)) * pace.Turn()
  {
    PlainWorth(Charge(pace), 0, Links(pace.rs.ack));
    PlainWorth(Charge(pace), Links(pace.rs.ack) * pace.Turn(), Links(pace.rs.data));
  }

  lemma {:induction false} EvenLegs(pace: Pace, route: seq<int>, d: nat)
    requires forall v :: pace.on.delay(v) <= d
    ensures pace.Legs(route) <= Links(route) * (d + pace.on.frame)
  {
    if |route| >= 2 {
      EvenLegs(pace, route[1..], d);
      assert Links(route) * (d + pace.on.frame) == Links(route[1..]) * (d + pace.on.frame) + (d + pace.on.frame);
    }
  }

  /** With one bound for all links, a caller can see from the number of links whether round trips are swift. */
  lemma EvenLinksAreSwift(c: Config, pace: Pace, d: nat)
    requires c.mode == TCP && !pace.on.duplicates && !pace.on.losses && forall v :: pace.on.delay(v) <= d
    ensures var n := Links(pace.rs.data) + Links(pace.rs.ack);
      n * (d + PROCESSING_DELAY + 2 * pace.on.frame) < RETRANSMISSION_TIMEOUT ==> Swift(c, pace)
  {
    PlainLoad(c, pace);
    EvenLegs(pace, pace.rs.data, d);
    EvenLegs(pace, pace.rs.ack, d);
    EvenInNumbers(Links(pace.rs.data), Links(pace.rs.ack), d + pace.on.frame, pace.Turn());
    assert d + PROCESSING_DELAY + 2 * pace.on.frame == d + pace.on.frame + pace.Turn();
  }

  lemma EvenInNumbers(h: nat, back: nat, leg: nat, turn: nat)
    ensures (h + back) * (leg + turn) == h * leg + back * leg + (h + back) * turn
  {
  }

  // ---------------------------------------------------------------- main results

  /**
   * As long as an unfiltered TCP run is not completed, the clock is covered by one period for each sequence sent,
   * the cost of each packet lost, and the turns of routers that all transmissions can cost.
   */
  lemma TcpTimeIsAccounted(c: Config, steps: seq<Step>, on: Conditions)
    requires Legal(c, steps) && Smooth(steps, on)
    ensures Configured(Session(c, steps).cfg)
    ensures var s := Session(c, steps);
      var pace := PaceOf(s.cfg, on);
      Open(s, pace.rs) ==>
        s.now <= |s.attempted| * Period(pace) + Losses(s) * LossCost(pace) + Transmissions(s) * Load(s.cfg, pace)
  {
    var s := Session(c, steps);
    SessionWellRun(c, steps, on);
    if Open(s, RoutesOf(s.cfg)) {
      ScheduleClock(s, PaceOf(s.cfg, on));
      SpentIsBounded(s, PaceOf(s.cfg, on));
    }
  }

  /** If round trips are swift, no sequence of an unfiltered TCP run is ever sent twice. */
  lemma TcpNeverRepeats(c: Config, steps: seq<Step>, on: Conditions)
    requires Legal(c, steps) && Smooth(steps, on)
    ensures Configured(Session(c, steps).cfg)
    ensures var s := Session(c, steps);
      OpenTcp(s.cfg, RoutesOf(s.cfg)) && Swift(s.cfg, PaceOf(s.cfg, on)) ==> s.stats.retransmissions == 0
  {
    SessionWellRun(c, steps, on);
  }

  /**
   * TCP delivers, whatever links lose: if round trips are swift, or else if the turns that a transmission costs
   * take less than the timeout, however slow the links are, then a run that is still on at a known time has
   * delivered every sequence; and if that time is within the limit, so has every run that has ended. The time
   * grows by one round trip, one timeout and one frame for each packet lost.
   */
  lemma TcpDelivers(c: Config, steps: seq<Step>, on: Conditions)
    requires Legal(c, steps) && Smooth(steps, on)
    ensures Configured(Session(c, steps).cfg)
    ensures var s := Session(c, steps);
      var time := AllDelivered(s.cfg, on, Losses(s));
      OpenTcp(s.cfg, RoutesOf(s.cfg)) && time.Some? ==>
        && (s.running && s.now >= time.value ==> |s.delivered| == s.cfg.goal)
        && (!s.running && s.completed && time.value <= MAX_RUNTIME ==> |s.delivered| == s.cfg.goal)
  {
    var s := Session(c, steps);
    SessionWellRun(c, steps, on);
    if !on.losses {
      NothingIsLost(c, steps, on);
    }
    if OpenTcp(s.cfg, RoutesOf(s.cfg)) {
      LateIsDelivered(s, on);
    }
  }

  lemma LateIsDelivered(s: State, on: Conditions)
    requires WellRun(s, on) && OpenTcp(s.cfg, RoutesOf(s.cfg)) && (!on.losses ==> Losses(s) == 0)
    ensures var time := AllDelivered(s.cfg, on, Losses(s));
      time.Some? ==>
        && (s.running && s.now >= time.value ==> |s.delivered| == s.cfg.goal)
        && (!s.running && s.completed && time.value <= MAX_RUNTIME ==> |s.delivered| == s.cfg.goal)
  {
    if s.running && !s.completed {
      ScheduleClock(s, PaceOf(s.cfg, on));
      OnScheduleIsEarly(s, on);
    } else if !s.running && s.completed && |s.delivered| != s.cfg.goal {
      OnScheduleIsEarly(s, on);
    }
  }
}
