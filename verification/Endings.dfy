/** When a run is on, when it ends, and what its record says then. */
module Endings {
  import opened Wrappers
  import opened Packets
  import opened Simulation
  import opened Invariants
  import opened Ledger
  import opened Protocol
  import opened ProtocolSteps
  import opened Sessions
  import opened Progress
  import opened Idle

  /** A packet, a flight or a timer is left, or TCP still waits for its last acknowledgement. */
  ghost predicate Unfinished(s: State) {
    || (exists i :: 0 <= i < |s.routers| && s.routers[i].queue != [])
    || s.flights != [] || s.events != []
    || (s.cfg.mode == TCP && !s.completed)
  }

  lemma FinishedExactly(s: State)
    requires s.running && Running(s)
    ensures var t := FinishIfDone(s);
      && (t.running <==> t.now < 25000 && Unfinished(t))
      && t == if t.running then s
              else s.(running := false, completed := true, stats := s.stats.(endTime := Some(s.now)))
  {
    var t := FinishIfDone(s);
    assert t.routers == s.routers;
    if !Unfinished(t) {
      assert forall i :: 0 <= i < |s.routers| ==> t.routers[i].queue == [];
    }
  }

  /** The run has been started at time 0 and has not ended. */
  ghost predicate Begun(s: State) {
    s.stats.startTime == Some(0) && s.stats.endTime == None
  }

  ghost function BegunIn(): State -> bool {
    (s: State) => s.running ==> Begun(s)
  }

  lemma FireBegun(s: State)
    requires s.events != [] && Begun(s)
    ensures Begun(Fire(s))
  {
  }

  lemma DispatchBegun(s: State, i: nat, o: Outcome)
    requires i < |s.routers| && Begun(s)
    ensures Begun(Dispatch(s, i, o))
  {
  }

  lemma LandBegun(s: State, k: nat)
    requires k < |s.flights| && Begun(s)
    ensures Begun(Land(s, k))
  {
    LandCounters(s, k);
  }

  lemma BegunIsKept()
    ensures KeptByTime(BegunIn()) && KeptByFiring(BegunIn())
    ensures KeptByDispatch(BegunIn(), Anything()) && KeptByFlights(BegunIn())
  {
    var p := BegunIn();
    assert KeptByFiring(p) by {
      forall t: State | p(t) && t.running && t.events != [] && t.events[0].due <= t.now
        ensures p(Fire(t)) && Fire(t).running {
        FireRuns(t);
        FireBegun(t);
      }
    }
    assert KeptByDispatch(p, Anything()) by {
      forall t: State, i: nat, o: Outcome | p(t) && i < |t.routers|
        ensures p(Dispatch(t, i, o)) && Dispatch(t, i, o).running == t.running {
        if t.running {
          DispatchBegun(t, i, o);
        }
      }
    }
    assert KeptByFlights(p) by {
      forall t: State, k: nat | p(t) && t.running && k < |t.flights| ensures p(Land(t, k)) && Land(t, k).running {
        LandBegun(t, k);
        LandTimers(t, k);
      }
    }
  }

  /** A run is on, before its limit and with something left; or over, with its end on record; or not begun. */
  ghost predicate Recorded(s: State) {
    if s.running then Begun(s) && s.now < 25000 && Unfinished(s)
    else if s.completed then s.stats.startTime == Some(0) && s.stats.endTime == Some(s.now)
    else s == Reset(s.cfg)
  }

  /** A frame of a run ends it exactly when nothing is left or its time is over, and then records that time. */
  lemma FrameEnds(s: State, dt: nat, choice: int -> Outcome)
    requires Configured(s.cfg) && Good(s, RoutesOf(s.cfg)) && s.running && Begun(s)
    ensures var t := Update(s, dt, choice);
      && Recorded(t) && t.now == s.now + dt && (t.running <==> t.now < 25000 && Unfinished(t))
      && (t.running || t.completed)
  {
    var rs := RoutesOf(s.cfg);
    GoodIsKept(rs, s.cfg);
    FrameKeeps(GoodIn(rs, s.cfg), Anything(), s, dt, choice);
    BegunIsKept();
    FrameKeeps(BegunIn(), Anything(), s, dt, choice);
    UpdateClock(s, dt, choice);
    FinishedExactly(Frame(s, dt, choice));
  }

  lemma StartRecorded(c: Config)
    requires Configured(c)
    ensures Recorded(StartRun(c)) && StartRun(c).running
  {
    var s := Reset(c).(running := true, stats := NO_STATS.(startTime := Some(0)));
    if c.mode == UDP {
      ScheduleAllExact(s, 0);
    }
  }

  lemma {:induction false} SessionRecorded(c: Config, steps: seq<Step>)
    requires Legal(c, steps)
    ensures Recorded(Session(c, steps))
  {
    if steps != [] {
      var front, step := steps[..|steps| - 1], steps[|steps| - 1];
      SessionRecorded(c, front);
      SessionGood(c, front);
      StepRecorded(Session(c, front), step);
    }
  }

  lemma StepRecorded(s: State, step: Step)
    requires Configured(s.cfg) && Good(s, RoutesOf(s.cfg)) && Recorded(s)
    ensures Recorded(Apply(s, step))
  {
    match step
    case Start => StartRecorded(s.cfg);
    case Tick(dt, choice) =>
      if s.running {
        FrameEnds(s, dt, choice);
      }
    case Configure(c) =>
  }

  /** Nothing has happened yet: no packet, no timer, nothing counted, and every router is free. */
  ghost predicate Untouched(s: State) {
    && s.now == 0 && s.nextPacketId == 1 && s.nextSequence == 0 && s.awaiting == None && s.token == 0
    && !s.failed && !s.completed
    && s.events == [] && s.flights == [] && s.log == [] && s.attempted == {} && s.delivered == {}
    && (forall i :: 0 <= i < |s.routers| ==> s.routers[i].queue == [] && s.routers[i].available == 0)
    && s.stats == Stats(0, 0, 0, 0, 0, 0, {}, None, None)
  }

  /** What the timers hold when a run starts: all of UDP's schedule, or the first sequence of TCP, due at once. */
  ghost predicate FirstTimers(s: State) {
    if s.cfg.mode == TCP then s.events == [Event(0, 1, SendData(0))]
    else
      && |s.events| == s.cfg.goal
      && forall i :: 0 <= i < s.cfg.goal ==> s.events[i] == Event(i * 260, i + 1, SendData(i))
  }

  ghost predicate JustStarted(s: State) {
    && s.running && s.stats.startTime == Some(0) && FirstTimers(s)
    && Untouched(s.(events := [], stats := s.stats.(startTime := None)))
  }

  lemma StartIsExact(c: Config)
    requires 1 <= c.goal
    ensures StartRun(c).cfg == c && JustStarted(StartRun(c))
  {
    var s := Reset(c).(running := true, stats := NO_STATS.(startTime := Some(0)));
    if c.mode == UDP {
      ScheduleAllExact(s, 0);
    }
  }

  /** Starting a run gives an engine to which nothing has happened, but that it is on and its timers are set. */
  lemma StartsExactly(c: Config, steps: seq<Step>)
    requires Legal(c, steps)
    ensures var s, t := Session(c, steps), Session(c, steps + [Start]); t.cfg == s.cfg && JustStarted(t)
  {
    SessionSnoc(c, steps, Start);
    SessionGood(c, steps);
    StartIsExact(Session(c, steps).cfg);
  }

  /**
   * In every state of every session a run that is on has not reached 25 seconds and has something left to do; one
   * that is over has its start and its end on record; and otherwise the engine is as after a reset.
   */
  lemma RunsAreRecorded(c: Config, steps: seq<Step>)
    requires Legal(c, steps)
    ensures var s := Session(c, steps);
      && (s.running ==> s.now < 25000 && Unfinished(s)
                        && s.stats.startTime == Some(0) && s.stats.endTime == None)
      && (!s.running && s.completed ==> s.stats.startTime == Some(0) && s.stats.endTime == Some(s.now))
      && (!s.running && !s.completed ==> Untouched(s))
  {
    SessionRecorded(c, steps);
  }

  /**
   * A frame ends a run exactly when the time limit is reached or nothing is left to do; an engine that is not
   * running stays as it is.
   */
  lemma RunsEndExactly(c: Config, steps: seq<Step>, dt: nat, choice: int -> Outcome)
    requires Legal(c, steps)
    ensures var s, t := Session(c, steps), Session(c, steps + [Tick(dt, choice)]);
      && (s.running ==> t.now == s.now + dt && (t.running <==> t.now < 25000 && Unfinished(t))
                        && (!t.running ==> t.completed && t.stats.endTime == Some(t.now)))
      && (!s.running ==> t == s)
  {
    var s := Session(c, steps);
    SessionSnoc(c, steps, Tick(dt, choice));
    SessionRecorded(c, steps);
    SessionGood(c, steps);
    if s.running {
      FrameEnds(s, dt, choice);
    }
  }

  /** How long these frames take. */
  function Elapses(ticks: seq<Step>): nat {
    if ticks == [] then 0
    else Elapses(ticks[..|ticks| - 1]) + if ticks[|ticks| - 1].Tick? then ticks[|ticks| - 1].dt else 0
  }

  /** A frame after which a run is on has found it on. */
  lemma ClockOfFrame(s: State, t: State, dt: nat, choice: int -> Outcome)
    requires t == Update(s, dt, choice)
    ensures t.running ==> s.running && t.now == s.now + dt
  {
    UpdateClock(s, dt, choice);
  }

  /** While a run is on its clock has gone on by all the frames. */
  lemma {:induction false} ClockAfter(c: Config, steps: seq<Step>, ticks: seq<Step>, n: nat)
    requires AllTicks(ticks) && n <= |ticks|
    ensures At(c, steps, ticks, n).running ==>
              At(c, steps, ticks, n).now == At(c, steps, ticks, 0).now + Elapses(ticks[..n])
    decreases n
  {
    if n > 0 {
      AtNext(c, steps, ticks, n - 1);
      ClockAfter(c, steps, ticks, n - 1);
      ClockOfFrame(At(c, steps, ticks, n - 1), At(c, steps, ticks, n), ticks[n - 1].dt, ticks[n - 1].choice);
      assert ticks[..n][..n - 1] == ticks[..n - 1];
    }
  }

  lemma LegalFront(c: Config, steps: seq<Step>, ticks: seq<Step>, n: nat)
    requires Legal(c, steps + ticks) && n <= |ticks|
    ensures Legal(c, steps + ticks[..n])
  {
    var all, part := steps + ticks, steps + ticks[..n];
    assert forall i :: 0 <= i < |part| ==> part[i] == all[i];
  }

  /** A frame does not take back that a run was started. */
  lemma StaysBegun(s: State, t: State, dt: nat, choice: int -> Outcome)
    requires Configured(s.cfg) && Good(s, RoutesOf(s.cfg)) && Recorded(s) && (s.running || s.completed)
    requires t == Update(s, dt, choice)
    ensures t.running || t.completed
  {
    if s.running {
      FrameEnds(s, dt, choice);
    }
  }

  lemma SessionStaysBegun(c: Config, steps: seq<Step>, t: State, dt: nat, choice: int -> Outcome)
    requires Legal(c, steps) && (Session(c, steps).running || Session(c, steps).completed)
    requires t == Update(Session(c, steps), dt, choice)
    ensures t.running || t.completed
  {
    SessionRecorded(c, steps);
    SessionGood(c, steps);
    StaysBegun(Session(c, steps), t, dt, choice);
  }

  lemma {:induction false} NotReset(c: Config, steps: seq<Step>, ticks: seq<Step>, n: nat)
    requires Legal(c, steps + ticks) && AllTicks(ticks) && n <= |ticks| && At(c, steps, ticks, 0).running
    ensures At(c, steps, ticks, n).running || At(c, steps, ticks, n).completed
    decreases n
  {
    if n > 0 {
      NotReset(c, steps, ticks, n - 1);
      LegalFront(c, steps, ticks, n - 1);
      AtNext(c, steps, ticks, n - 1);
      SessionStaysBegun(c, steps + ticks[..n - 1], At(c, steps, ticks, n), ticks[n - 1].dt, ticks[n - 1].choice);
    }
  }

  /** Every run ends: after 25 seconds of frames it is over, whatever the links and the firewall do. */
  lemma EveryRunEnds(c: Config, steps: seq<Step>, ticks: seq<Step>)
    requires Legal(c, steps + ticks) && AllTicks(ticks) && At(c, steps, ticks, 0).running && Elapses(ticks) >= 25000
    ensures var t := At(c, steps, ticks, |ticks|); !t.running && t.completed && t.stats.endTime == Some(t.now)
  {
    assert ticks[..|ticks|] == ticks;
    ClockAfter(c, steps, ticks, |ticks|);
    NotReset(c, steps, ticks, |ticks|);
    LegalFront(c, steps, ticks, 0);
    SessionGood(c, steps + ticks[..0]);
    SessionRecorded(c, steps + ticks);
  }
}
