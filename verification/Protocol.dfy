/**
 * The transport protocols themselves: which sequences have been sent and delivered, what the timers
 * hold, and how far the clock must have come.
 */
module Protocol {
  import opened Wrappers
  import opened Simulation
  import opened Ranges

  lemma {:induction false} NothingBelow(d: set<int>, m: nat)
    requires d <= Range(m) && forall q :: 0 <= q < m ==> q !in d
    ensures d == {}
  {
    if m > 0 {
      NothingBelow(d, m - 1);
    }
  }

  // ---------------------------------------------------------------- timers

  ghost predicate Sorted(events: seq<Event>) {
    forall i, j :: 0 <= i < j < |events| ==> Before(events[i], events[j])
  }

  /** The heap is a strictly ordered list, so popping is determined and ids never tie. */
  ghost predicate TimersOk(s: State) {
    Sorted(s.events) && forall e :: e in s.events ==> e.id < s.nextEventId
  }

  lemma {:induction false} InsertSorted(events: seq<Event>, e: Event)
    requires Sorted(events) && forall f :: f in events ==> f.id < e.id
    ensures Sorted(Insert(events, e))
  {
    if events != [] && !Before(e, events[0]) {
      InsertSorted(events[1..], e);
      var rest := Insert(events[1..], e);
      forall j | 0 <= j < |rest| ensures Before(events[0], rest[j]) {
        assert rest[j] == e || rest[j] in events[1..];
      }
    }
  }

  lemma ScheduleKeepsTimers(s: State, delay: int, callback: Callback)
    requires TimersOk(s)
    ensures TimersOk(Schedule(s, delay, callback))
  {
    InsertSorted(s.events, Event(s.now + delay, s.nextEventId, callback));
  }

  // ---------------------------------------------------------------- what always holds

  /** First transmissions so far. */
  function Firsts(s: State): nat {
    |s.attempted|
  }

  /** Time that first transmissions and repeats must have taken between them. */
  function Elapsed(s: State): int {
    if s.cfg.mode == TCP then
      RETRANSMISSION_TIMEOUT * s.stats.retransmissions + NEXT_SEND_DELAY * (Firsts(s) - 1)
    else SEND_INTERVAL * (Firsts(s) - 1)
  }

  /** Sequences are opened in order; TCP delivers them in order too, at most one behind. */
  ghost predicate InOrder(s: State) {
    && s.attempted == Range(Firsts(s)) && Firsts(s) <= s.cfg.goal && 0 <= s.now
    && (if Firsts(s) > 0 then Elapsed(s) <= s.now else s.stats.retransmissions == 0)
    && (if s.cfg.mode == TCP then
          s.delivered == Range(|s.delivered|) && |s.delivered| <= Firsts(s) <= |s.delivered| + 1
        else s.delivered <= s.attempted && s.stats.retransmissions == 0)
  }

  // ---------------------------------------------------------------- a run in progress

  /** The event the sender is waiting for. */
  function Pending(s: State): Callback {
    if s.awaiting.Some? then Timeout(s.nextSequence, s.token) else SendData(s.nextSequence)
  }

  /** How long after the step before it that event is due. */
  function Patience(s: State): int {
    if s.awaiting.Some? then RETRANSMISSION_TIMEOUT else NEXT_SEND_DELAY
  }

  /** Firing this event would transmit. */
  predicate Live(s: State, e: Event) {
    match e.callback
    case SendData(_) => true
    case Timeout(q, t) => s.awaiting == Some(q) && t == s.token
  }

  /** e is the one live event: no sooner than its delay after what was sent before, and soon from now. */
  ghost predicate OnlyLive(s: State, e: Event) {
    && e in s.events && e.callback == Pending(s)
    && Elapsed(s) + Patience(s) <= e.due <= s.now + Patience(s)
    && forall f :: f in s.events && Live(s, f) ==> f == e
  }

  ghost predicate TcpRunning(s: State) {
    && (forall e :: e in s.events && e.callback.Timeout? ==> e.callback.token <= s.token)
    && if s.completed then
         s.awaiting == None && |s.delivered| == Firsts(s) == s.cfg.goal
         && forall e :: e in s.events ==> e.callback.Timeout?
       else
         (exists e :: OnlyLive(s, e))
         && if s.awaiting.Some? then 0 <= s.awaiting.value == s.nextSequence == Firsts(s) - 1
            else s.nextSequence == Firsts(s) == |s.delivered| < s.cfg.goal
  }

  /** UDP's timers are what is left of the schedule made at the start. */
  ghost predicate UdpRunning(s: State) {
    && !s.completed && s.awaiting == None && s.udpSentAll
    && |s.events| == s.cfg.goal - Firsts(s)
    && forall i :: 0 <= i < |s.events| ==>
                     s.events[i] == Event((Firsts(s) + i) * SEND_INTERVAL, Firsts(s) + i + 1, SendData(Firsts(s) + i))
  }

  ghost predicate Running(s: State) {
    s.running ==> TimersOk(s) && if s.cfg.mode == TCP then TcpRunning(s) else UdpRunning(s)
  }

  ghost predicate ProtocolOk(s: State) {
    InOrder(s) && Running(s)
  }

  // ---------------------------------------------------------------- steps that leave the protocol alone

  ghost predicate SameProtocol(s: State, s': State) {
    && s'.cfg == s.cfg && s'.now == s.now && s'.running == s.running && s'.completed == s.completed
    && s'.nextEventId == s.nextEventId && s'.nextSequence == s.nextSequence && s'.awaiting == s.awaiting
    && s'.token == s.token && s'.udpSentAll == s.udpSentAll && s'.delivered == s.delivered
    && s'.events == s.events && s'.attempted == s.attempted
    && s'.stats.retransmissions == s.stats.retransmissions
  }

  lemma SameStaysOk(s: State, s': State)
    requires ProtocolOk(s) && SameProtocol(s, s')
    ensures ProtocolOk(s')
  {
    if s.running && s.cfg.mode == TCP && !s.completed {
      var e :| OnlyLive(s, e);
      assert OnlyLive(s', e);
    }
  }

  lemma LaterStaysOk(s: State, dt: nat)
    requires ProtocolOk(s)
    ensures ProtocolOk(Later(s, dt))
  {
    var s' := Later(s, dt);
    if s.running && s.cfg.mode == TCP && !s.completed {
      var e :| OnlyLive(s, e);
      assert OnlyLive(s', e);
    }
  }
}
