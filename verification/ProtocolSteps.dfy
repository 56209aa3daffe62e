/** Firing timers and receiving packets keep the protocols on track. */
module ProtocolSteps {
  import opened Wrappers
  import opened Packets
  import opened Simulation
  import opened Ranges
  import opened Network
  import opened Ledger
  import opened Protocol

  function Rest(s: State): State
    requires s.events != []
  {
    s.(events := s.events[1..])
  }

  /** The transmission that firing the first timer causes: its sequence, and whether it is a repeat. */
  function Fired(s: State): (r: Option<(int, bool)>)
    requires s.events != []
  {
    if !Live(s, s.events[0]) || (s.completed && s.events[0].callback.Timeout?) then None
    else Some((s.events[0].callback.sequence, s.events[0].callback.Timeout?))
  }

  /** What fires is what the protocol waits for. */
  lemma FiredIsPending(s: State)
    requires ProtocolOk(s) && s.running && s.events != [] && Fired(s).Some?
    ensures !s.completed
    ensures s.cfg.mode == TCP ==> OnlyLive(s, s.events[0]) && Fired(s).value == (s.nextSequence, s.awaiting.Some?)
    ensures s.cfg.mode == UDP ==> Fired(s).value == (Firsts(s), false)
  {
    var e := s.events[0];
    assert e in s.events;
    if s.cfg.mode == UDP {
      assert s.events[0] == Event((Firsts(s) + 0) * SEND_INTERVAL, Firsts(s) + 0 + 1, SendData(Firsts(s) + 0));
    }
  }

  /** A timer that fires either transmits what the protocol waits for, or is stale and does nothing. */
  lemma FireCases(s: State)
    requires ProtocolOk(s) && s.running && s.events != []
    ensures Fired(s).None? ==> Fire(s) == Rest(s)
    ensures Fired(s).Some? ==>
              var (q, again) := Fired(s).value;
              Fire(s) == Transmit(Rest(s), q, again) && q < s.cfg.goal && (again <==> q in s.attempted)
  {
    assert s.events[0] in s.events;
    if Fired(s).Some? {
      FiredIsPending(s);
      InRange(Firsts(s), Fired(s).value.0);
    }
  }

  lemma TransmitTimers(s: State, q: int, again: bool)
    requires q < s.cfg.goal
    ensures var s' := Transmit(s, q, again);
      && s'.now == s.now && s'.running == s.running && s'.completed == s.completed
      && s'.nextSequence == s.nextSequence && s'.udpSentAll == s.udpSentAll
      && (s.cfg.mode == UDP ==> s'.events == s.events && s'.awaiting == s.awaiting
                                && s'.nextEventId == s.nextEventId)
      && (s.cfg.mode == TCP ==>
            && s'.awaiting == Some(q) && s'.token == s.token + 1 && s'.nextEventId == s.nextEventId + 1
            && s'.events == Insert(s.events, Event(s.now + RETRANSMISSION_TIMEOUT, s.nextEventId,
                                                   Timeout(q, s.token + 1))))
  {
  }

  lemma RestTimers(s: State)
    requires TimersOk(s) && s.events != []
    ensures TimersOk(Rest(s))
    ensures forall f :: f in Rest(s).events ==> f in s.events && f != s.events[0]
    ensures forall f :: f in s.events && f != s.events[0] ==> f in Rest(s).events
  {
    var rest := s.events[1..];
    forall f | f in rest ensures f in s.events && f != s.events[0] {
      var i :| 0 <= i < |rest| && rest[i] == f;
      assert s.events[i + 1] == f && Before(s.events[0], s.events[i + 1]);
    }
  }

  /** A sequence sent anew or again is accounted for in order. */
  lemma TransmitInOrder(s: State, q: int, again: bool)
    requires InOrder(s) && s.cfg.mode == TCP && q < s.cfg.goal
    requires if again then q in s.attempted else q == Firsts(s) == |s.delivered|
    requires Elapsed(s) + (if again then RETRANSMISSION_TIMEOUT else NEXT_SEND_DELAY) <= s.now
    ensures InOrder(Transmit(s, q, again))
    ensures Elapsed(Transmit(s, q, again)) <= s.now
    ensures Firsts(Transmit(s, q, again)) == Firsts(s) + if again then 0 else 1
  {
    TransmitCounters(s, q, again);
    TransmitTimers(s, q, again);
    InRange(Firsts(s), q);
    if again {
      assert s.attempted + {q} == s.attempted;
    }
  }

  /** After a transmission the new timer is the only live event, whatever stale ones remain. */
  lemma NewTimer(r: State, s': State, e: Event)
    requires TimersOk(r) && e.id == r.nextEventId && e.callback == Timeout(s'.nextSequence, s'.token)
    requires forall f :: f in r.events ==> f.callback.Timeout? && f.callback.token < s'.token
    requires s'.events == Insert(r.events, e) && s'.nextEventId == r.nextEventId + 1
    requires !s'.completed && s'.awaiting == Some(s'.nextSequence) && s'.nextSequence == Firsts(s') - 1 >= 0
    requires Elapsed(s') + RETRANSMISSION_TIMEOUT <= e.due <= s'.now + RETRANSMISSION_TIMEOUT
    ensures TimersOk(s') && TcpRunning(s')
  {
    InsertSorted(r.events, e);
    assert OnlyLive(s', e);
  }

  lemma TcpFires(s: State)
    requires ProtocolOk(s) && s.running && s.cfg.mode == TCP
    requires s.events != [] && s.events[0].due <= s.now && Fired(s).Some?
    ensures ProtocolOk(Fire(s))
  {
    FiredIsPending(s);
    FireCases(s);
    RestTimers(s);
    var (q, again) := Fired(s).value;
    TransmitInOrder(Rest(s), q, again);
    TransmitTimers(Rest(s), q, again);
    TransmitCounters(Rest(s), q, again);
    NewTimer(Rest(s), Fire(s), Event(s.now + RETRANSMISSION_TIMEOUT, s.nextEventId, Timeout(q, s.token + 1)));
  }

  lemma TcpIgnores(s: State)
    requires ProtocolOk(s) && s.running && s.cfg.mode == TCP && s.events != [] && Fired(s).None?
    ensures ProtocolOk(Fire(s))
  {
    FireCases(s);
    RestTimers(s);
    if !s.completed {
      var e :| OnlyLive(s, e);
      assert OnlyLive(Rest(s), e);
    }
  }

  lemma UdpInOrder(s: State)
    requires InOrder(s) && s.cfg.mode == UDP && Firsts(s) < s.cfg.goal && Firsts(s) * SEND_INTERVAL <= s.now
    ensures InOrder(Transmit(s, Firsts(s), false)) && Firsts(Transmit(s, Firsts(s), false)) == Firsts(s) + 1
  {
    TransmitCounters(s, Firsts(s), false);
    TransmitTimers(s, Firsts(s), false);
    InRange(Firsts(s), Firsts(s));
  }

  /** The rest of the schedule starts with the next sequence. */
  lemma UdpTail(s: State, s': State)
    requires s.running && ProtocolOk(s) && s.cfg.mode == UDP && s.events != []
    requires s'.cfg == s.cfg && s'.events == s.events[1..] && Firsts(s') == Firsts(s) + 1
    requires s'.completed == s.completed && s'.awaiting == s.awaiting && s'.udpSentAll == s.udpSentAll
    requires s'.stats.retransmissions == s.stats.retransmissions && s'.nextEventId == s.nextEventId
    ensures TimersOk(s') && UdpRunning(s')
  {
    RestTimers(s);
    forall i | 0 <= i < |s'.events|
      ensures s'.events[i] == Event((Firsts(s') + i) * SEND_INTERVAL, Firsts(s') + i + 1, SendData(Firsts(s') + i)) {
      assert s'.events[i] == s.events[i + 1];
    }
  }

  lemma UdpFires(s: State)
    requires ProtocolOk(s) && s.running && s.cfg.mode == UDP && s.events != [] && s.events[0].due <= s.now
    ensures ProtocolOk(Fire(s))
  {
    var q := Firsts(s);
    assert s.events[0] == Event((q + 0) * SEND_INTERVAL, q + 0 + 1, SendData(q + 0));
    FireCases(s);
    UdpInOrder(Rest(s));
    TransmitCounters(Rest(s), q, false);
    TransmitTimers(Rest(s), q, false);
    UdpTail(s, Fire(s));
  }

  lemma FireStaysOk(s: State)
    requires ProtocolOk(s) && s.running && s.events != [] && s.events[0].due <= s.now
    ensures ProtocolOk(Fire(s)) && Fire(s).running
  {
    FireCases(s);
    if Fired(s).Some? {
      TransmitTimers(Rest(s), Fired(s).value.0, Fired(s).value.1);
    }
    if s.cfg.mode == UDP {
      UdpFires(s);
    } else if Fired(s).None? {
      TcpIgnores(s);
    } else {
      TcpFires(s);
    }
  }

  /** TCP delivers in order: a sequence that arrives is an old one or exactly the next. */
  lemma DataStaysOk(s: State, s': State, q: int)
    requires ProtocolOk(s) && s.running && q in s.attempted
    requires SameProtocol(s.(delivered := s.delivered + {q}), s')
    ensures ProtocolOk(s')
  {
    InRange(Firsts(s), q);
    if s.cfg.mode == TCP {
      InRange(|s.delivered|, q);
      RangeSize(|s.delivered|);
      RangeSize(|s.delivered| + 1);
      assert q in s.delivered ==> s.delivered + {q} == s.delivered;
      assert q !in s.delivered ==> q == |s.delivered| && s.delivered + {q} == Range(|s.delivered| + 1);
      if !s.completed {
        var e :| OnlyLive(s, e);
        assert OnlyLive(s', e);
      }
    }
  }

  /** The awaited acknowledgement schedules the next sequence or completes; any other changes nothing. */
  lemma AckStaysOk(s: State, q: int)
    requires ProtocolOk(s) && s.running && s.cfg.mode == TCP && q in s.delivered
    ensures ProtocolOk(OnAckReceived(s, Some(q)))
  {
    if s.awaiting == Some(q) {
      InRange(|s.delivered|, q);
      AwaitedAck(s, OnAckReceived(s, Some(q)), q);
    }
  }

  lemma AwaitedAck(s: State, s': State, q: int)
    requires ProtocolOk(s) && s.running && s.cfg.mode == TCP && s.awaiting == Some(q) && q < |s.delivered|
    requires s' == OnAckReceived(s, Some(q))
    ensures ProtocolOk(s')
  {
    assert !s.completed;
    var e :| OnlyLive(s, e);
    if q + 1 < s.cfg.goal {
      AckSchedules(s, s', q);
    }
  }

  /** The next sequence is due in a while, and the timeout of the one before it has gone stale. */
  lemma AckSchedules(s: State, s': State, q: int)
    requires ProtocolOk(s) && s.running && s.cfg.mode == TCP && s.awaiting == Some(q) && q < |s.delivered|
    requires q + 1 < s.cfg.goal && !s.completed && s' == OnAckReceived(s, Some(q))
    ensures TimersOk(s') && TcpRunning(s')
  {
    var e := Event(s.now + NEXT_SEND_DELAY, s.nextEventId, SendData(q + 1));
    ScheduleKeepsTimers(s, NEXT_SEND_DELAY, SendData(q + 1));
    assert s'.events == Insert(s.events, e);
    assert OnlyLive(s', e);
  }

  lemma LandTimers(s: State, k: nat)
    requires k < |s.flights|
    ensures var f, s' := s.flights[k], Land(s, k);
      && s'.now == s.now && s'.running == s.running
      && (f.dropped || f.end != f.packet.destination || f.packet.kind == Data ==>
            && s'.completed == s.completed && s'.nextEventId == s.nextEventId && s'.token == s.token
            && s'.nextSequence == s.nextSequence && s'.awaiting == s.awaiting
            && s'.udpSentAll == s.udpSentAll && s'.events == s.events)
      && (!f.dropped && f.end == f.packet.destination && f.packet.kind == Ack ==>
            s' == OnAckReceived(Ended(s, k).(log := s.log + [Delivered(Arrived(f))]), f.packet.ackFor))
  {
    var f := s.flights[k];
    if Delivers(f) {
      DataTimers(Ended(s, k).(log := s.log + [Delivered(Arrived(f))]), f.packet.sequence);
    }
  }

  lemma DataTimers(s: State, q: int)
    ensures var s' := OnDataReceived(s, q);
      && s'.now == s.now && s'.running == s.running
      && s'.completed == s.completed && s'.nextEventId == s.nextEventId && s'.token == s.token
      && s'.nextSequence == s.nextSequence && s'.awaiting == s.awaiting
      && s'.udpSentAll == s.udpSentAll && s'.events == s.events
  {
  }

  lemma LandStaysOk(rs: Routes, s: State, k: nat)
    requires GoodNetwork(s, rs) && ProtocolOk(s) && s.running && k < |s.flights|
    ensures ProtocolOk(Land(s, k)) && Land(s, k).running
  {
    var f, s' := s.flights[k], Land(s, k);
    assert FlightOk(s.cfg, rs, s.attempted, s.delivered, f);
    LandTimers(s, k);
    LandCounters(s, k);
    if Delivers(f) {
      DataStaysOk(s, s', f.packet.sequence);
    } else if !f.dropped && f.end == f.packet.destination {
      var s1 := Ended(s, k).(log := s.log + [Delivered(Arrived(f))]);
      SameStaysOk(s, s1);
      AckStaysOk(s1, f.packet.sequence);
    } else {
      SameStaysOk(s, s');
    }
  }

  lemma DispatchStaysOk(s: State, i: nat, o: Outcome)
    requires ProtocolOk(s) && i < |s.routers|
    ensures ProtocolOk(Dispatch(s, i, o)) && Dispatch(s, i, o).running == s.running
  {
    SameStaysOk(s, Dispatch(s, i, o));
  }

  lemma AgeStaysOk(s: State, k: nat, dt: int)
    requires ProtocolOk(s) && k < |s.flights|
    ensures ProtocolOk(Age(s, k, dt))
  {
    SameStaysOk(s, Age(s, k, dt));
  }
}
