/**
 * What the marks on packets mean: repeats are marked as such, duplicates name the packet they were made of and agree
 * with it, and the statistics count them by these marks.
 */
module Marks {
  import opened Wrappers
  import opened Packets
  import opened Simulation
  import opened Sums
  import opened Totals
  import opened Network
  import opened Accounts
  import opened Ledger
  import opened ProtocolSteps
  import opened Invariants
  import opened Sessions
  import opened FaithfulLinks

  // ---------------------------------------------------------------- counting by marks

  /** Packets by what they are marked as, wherever they are or have ended. */
  ghost function Marked(kind: Kind, retransmission: bool, duplicate: bool): Weight {
    (it: Item) =>
      var p := PacketOf(it);
      if p.kind == kind && p.duplicate == duplicate && (duplicate || p.retransmission == retransmission) then 1 else 0
  }

  /** The counters count the marks: first sendings, repeats, acknowledgements, and duplicates of either kind. */
  ghost predicate CountedByMarks(s: State) {
    && Total(s, Marked(Data, false, false)) == |s.attempted|
    && Total(s, Marked(Data, true, false)) == s.stats.retransmissions
    && Total(s, Marked(Ack, false, false)) == s.stats.acknowledgements
    && Total(s, Marked(Ack, true, false)) == 0
    && Total(s, Marked(Data, false, true)) + Total(s, Marked(Ack, false, true)) == s.stats.duplicates
  }

  lemma SameMarks(s: State, t: State)
    requires CountedByMarks(s) && SameBooks(s, t)
    ensures CountedByMarks(t)
  {
  }

  lemma TransmitMarked(rs: Routes, s: State, q: int, again: bool, kind: Kind, r: bool, d: bool)
    requires GoodNetwork(s, rs) && q < s.cfg.goal
    ensures Total(Transmit(s, q, again), Marked(kind, r, d))
            == Total(s, Marked(kind, r, d)) + if kind == Data && !d && r == again then 1 else 0
  {
    TransmitTotal(rs, s, q, again, Marked(kind, r, d));
  }

  /** What comes to be marked in the four ways, and duplicates of both kinds together. */
  ghost predicate MarksGrow(s: State, t: State, firsts: nat, repeats: nat, acks: nat, copies: nat) {
    && Total(t, Marked(Data, false, false)) == Total(s, Marked(Data, false, false)) + firsts
    && Total(t, Marked(Data, true, false)) == Total(s, Marked(Data, true, false)) + repeats
    && Total(t, Marked(Ack, false, false)) == Total(s, Marked(Ack, false, false)) + acks
    && Total(t, Marked(Ack, true, false)) == Total(s, Marked(Ack, true, false))
    && Total(t, Marked(Data, false, true)) + Total(t, Marked(Ack, false, true))
       == Total(s, Marked(Data, false, true)) + Total(s, Marked(Ack, false, true)) + copies
  }

  lemma StillCounted(s: State, t: State, firsts: nat, repeats: nat, acks: nat, copies: nat)
    requires CountedByMarks(s) && MarksGrow(s, t, firsts, repeats, acks, copies)
    requires |t.attempted| == |s.attempted| + firsts && t.stats.retransmissions == s.stats.retransmissions + repeats
    requires t.stats.acknowledgements == s.stats.acknowledgements + acks
    requires t.stats.duplicates == s.stats.duplicates + copies
    ensures CountedByMarks(t)
  {
  }

  lemma TransmitGrows(rs: Routes, s: State, q: int, again: bool)
    requires GoodNetwork(s, rs) && q < s.cfg.goal
    ensures MarksGrow(s, Transmit(s, q, again), if again then 0 else 1, if again then 1 else 0, 0, 0)
  {
    TransmitMarked(rs, s, q, again, Data, false, false);
    TransmitMarked(rs, s, q, again, Data, true, false);
    TransmitMarked(rs, s, q, again, Data, false, true);
    TransmitMarked(rs, s, q, again, Ack, false, false);
    TransmitMarked(rs, s, q, again, Ack, true, false);
    TransmitMarked(rs, s, q, again, Ack, false, true);
  }

  lemma SendingCounted(s: State, t: State, q: int, again: bool)
    requires CountedByMarks(s) && MarksGrow(s, t, if again then 0 else 1, if again then 1 else 0, 0, 0)
    requires (again <==> q in s.attempted) && t.attempted == s.attempted + {q}
    requires t.stats == s.stats.(sent := t.stats.sent, retransmissions := t.stats.retransmissions)
    requires t.stats.retransmissions == s.stats.retransmissions + if again then 1 else 0
    ensures CountedByMarks(t)
  {
    assert again ==> t.attempted == s.attempted;
    StillCounted(s, t, if again then 0 else 1, if again then 1 else 0, 0, 0);
  }

  lemma TransmitMarks(rs: Routes, s: State, q: int, again: bool)
    requires GoodNetwork(s, rs) && CountedByMarks(s) && q < s.cfg.goal && (again <==> q in s.attempted)
    ensures CountedByMarks(Transmit(s, q, again))
  {
    TransmitCounters(s, q, again);
    TransmitGrows(rs, s, q, again);
    SendingCounted(s, Transmit(s, q, again), q, again);
  }

  lemma FireMarks(rs: Routes, s: State)
    requires Good(s, rs) && CountedByMarks(s) && s.running && s.events != []
    ensures CountedByMarks(Fire(s))
  {
    FireCases(s);
    SameMarks(s, Rest(s));
    if Fired(s).Some? {
      SamePackets(rs, s, Rest(s));
      TransmitMarks(rs, Rest(s), Fired(s).value.0, Fired(s).value.1);
    }
  }

  lemma LaunchedMarked(s: State, p: Packet, start: int, end: int, o: Outcome, kind: Kind, r: bool, d: bool)
    ensures Launched(s, p, start, end, o, Marked(kind, r, d))
            == Marked(kind, r, d)(Queued(start, p)) + if o.duplicated && d && p.kind == kind then 1 else 0
  {
  }

  lemma FilteredMarked(node: int, p: Packet, kind: Kind, r: bool, d: bool)
    ensures Marked(kind, r, d)(Queued(node, p)) == Marked(kind, r, d)(Logged(Filtered(p)))
  {
  }

  /** Copies of the kind asked for that a turn of router i makes. */
  function CopiesMade(s: State, i: nat, o: Outcome, kind: Kind, d: bool): nat
    requires i < |s.routers| && s.routers[i].queue != []
  {
    if Made(s, i, o) == 1 && d && s.routers[i].queue[0].kind == kind then 1 else 0
  }

  lemma TurnMarked(rs: Routes, s: State, i: nat, o: Outcome, kind: Kind, r: bool, d: bool)
    requires GoodNetwork(s, rs) && i < |s.routers| && s.routers[i].queue != [] && s.routers[i].available <= s.now
    ensures Total(Dispatch(s, i, o), Marked(kind, r, d)) == Total(s, Marked(kind, r, d)) + CopiesMade(s, i, o, kind, d)
  {
    var router := s.routers[i];
    var p, w := router.queue[0], Marked(kind, r, d);
    DispatchTotal(rs, s, i, o, w);
    LaunchedMarked(s, p, router.id, router.table[p.destination], o, kind, r, d);
    FilteredMarked(router.id, p, kind, r, d);
    InNumbers(Total(Dispatch(s, i, o), w), Total(s, w), w(Queued(router.id, p)),
              Launched(s, p, router.id, router.table[p.destination], o, w), Filters(s, i),
              CopiesMade(s, i, o, kind, d));
  }

  lemma CopiesAddUp(s: State, t: State, copies: nat, kind: Kind)
    requires forall k, r, d {:trigger Marked(k, r, d)} ::
      Total(t, Marked(k, r, d)) == Total(s, Marked(k, r, d)) + if d && k == kind then copies else 0
    ensures MarksGrow(s, t, 0, 0, 0, copies)
  {
  }

  lemma TurnMarksGrow(rs: Routes, s: State, i: nat, o: Outcome)
    requires GoodNetwork(s, rs) && i < |s.routers| && s.routers[i].queue != [] && s.routers[i].available <= s.now
    ensures MarksGrow(s, Dispatch(s, i, o), 0, 0, 0, Made(s, i, o))
  {
    var t, copies, kind := Dispatch(s, i, o), Made(s, i, o), s.routers[i].queue[0].kind;
    forall k, r, d
      ensures Total(t, Marked(k, r, d)) == Total(s, Marked(k, r, d)) + if d && k == kind then copies else 0 {
      TurnMarked(rs, s, i, o, k, r, d);
    }
    CopiesAddUp(s, t, copies, kind);
  }

  lemma DispatchMarks(rs: Routes, s: State, i: nat, o: Outcome)
    requires GoodNetwork(s, rs) && CountedByMarks(s) && i < |s.routers|
    ensures CountedByMarks(Dispatch(s, i, o))
  {
    if s.routers[i].queue != [] && s.routers[i].available <= s.now {
      DispatchCounters(rs, s, i, o);
      TurnMarksGrow(rs, s, i, o);
      StillCounted(s, Dispatch(s, i, o), 0, 0, 0, Made(s, i, o));
    }
  }

  lemma AgeMarks(s: State, k: nat, dt: int)
    requires CountedByMarks(s) && k < |s.flights|
    ensures CountedByMarks(Age(s, k, dt))
  {
    AgeTotal(s, k, dt, Marked(Data, false, false));
    AgeTotal(s, k, dt, Marked(Data, true, false));
    AgeTotal(s, k, dt, Marked(Data, false, true));
    AgeTotal(s, k, dt, Marked(Ack, false, false));
    AgeTotal(s, k, dt, Marked(Ack, true, false));
    AgeTotal(s, k, dt, Marked(Ack, false, true));
  }

  /** A landing makes at most an acknowledgement, and that is an original. */
  lemma LandedMarked(s: State, f: Flight, kind: Kind, r: bool, d: bool)
    ensures Landed(s, f, Marked(kind, r, d))
            == Marked(kind, r, d)(Flying(f)) + if kind == Ack && !r && !d then AcksFor(s, f) else 0
  {
  }

  lemma LandMarked(rs: Routes, s: State, k: nat, kind: Kind, r: bool, d: bool)
    requires GoodNetwork(s, rs) && k < |s.flights|
    ensures Total(Land(s, k), Marked(kind, r, d))
            == Total(s, Marked(kind, r, d)) + if kind == Ack && !r && !d then AcksFor(s, s.flights[k]) else 0
  {
    LandTotal(rs, s, k, Marked(kind, r, d));
    LandedMarked(s, s.flights[k], kind, r, d);
  }

  lemma LandMarks(rs: Routes, s: State, k: nat)
    requires GoodNetwork(s, rs) && CountedByMarks(s) && k < |s.flights|
    ensures CountedByMarks(Land(s, k))
  {
    LandCounters(s, k);
    MarkKeepsCounters(s, s.flights[k]);
    LandMarked(rs, s, k, Data, false, false);
    LandMarked(rs, s, k, Data, true, false);
    LandMarked(rs, s, k, Data, false, true);
    LandMarked(rs, s, k, Ack, false, false);
    LandMarked(rs, s, k, Ack, true, false);
    LandMarked(rs, s, k, Ack, false, true);
  }

  lemma MarkKeepsCounters(s: State, f: Flight)
    ensures MarkedStats(s, f).retransmissions == s.stats.retransmissions
    ensures MarkedStats(s, f).duplicates == s.stats.duplicates
  {
  }

  // ---------------------------------------------------------------- duplicates and what they were made of

  /** All of a packet but where it is and has been. */
  function Content(p: Packet): Packet {
    p.(current := 0, history := [])
  }

  ghost function HasContent(k: Packet): Weight {
    (it: Item) => if Content(PacketOf(it)) == k then 1 else 0
  }

  ghost predicate Exists(s: State, k: Packet) {
    Total(s, HasContent(k)) > 0
  }

  /** k is a duplicate of o: a later packet that agrees with it in all but id and mark. */
  predicate TwinOf(k: Packet, o: Packet) {
    k == o.(id := k.id, duplicate := true, duplicatedFrom := Some(o.id)) && o.id < k.id
  }

  ghost predicate WellMarked(s: State, k: Packet) {
    if k.duplicate then exists o :: Exists(s, o) && TwinOf(k, o) else k.duplicatedFrom == None
  }

  ghost predicate Twins(s: State) {
    forall k {:trigger HasContent(k)} :: Exists(s, k) ==> WellMarked(s, k)
  }

  /** From s to t nothing is lost and nothing is added, but for a packet with the given content, if more is set. */
  ghost predicate Grows(s: State, t: State, more: bool, added: Packet) {
    forall k {:trigger HasContent(k)} ::
      Total(t, HasContent(k)) == Total(s, HasContent(k)) + if more && k == added then 1 else 0
  }

  lemma GrowsTo(s: State, t: State, more: bool, added: Packet, k: Packet)
    requires Grows(s, t, more, added)
    ensures Exists(s, k) ==> Exists(t, k)
    ensures Exists(t, k) ==> Exists(s, k) || (more && k == added)
  {
    assert Total(t, HasContent(k)) == Total(s, HasContent(k)) + if more && k == added then 1 else 0;
  }

  lemma StaysMarked(s: State, t: State, more: bool, added: Packet, k: Packet)
    requires WellMarked(s, k) && Grows(s, t, more, added)
    ensures WellMarked(t, k)
  {
    if k.duplicate {
      var o :| Exists(s, o) && TwinOf(k, o);
      GrowsTo(s, t, more, added, o);
    }
  }

  lemma TwinsStay(s: State, t: State, more: bool, added: Packet)
    requires Twins(s) && Grows(s, t, more, added) && (more ==> WellMarked(t, added))
    ensures Twins(t)
  {
    forall k | Exists(t, k) ensures WellMarked(t, k) {
      GrowsTo(s, t, more, added, k);
      if Exists(s, k) {
        StaysMarked(s, t, more, added, k);
      }
    }
  }

  // ---------------------------------------------------------------- every step keeps the marks right

  lemma SameTwins(s: State, t: State)
    requires Twins(s) && SameBooks(s, t)
    ensures Twins(t)
  {
    TwinsStay(s, t, false, Packet(0, 0, 0, 0, Data, 0, None, 0, false, false, None, []));
  }

  lemma TransmitTwins(rs: Routes, s: State, q: int, again: bool)
    requires GoodNetwork(s, rs) && Twins(s) && q < s.cfg.goal
    ensures Twins(Transmit(s, q, again))
  {
    var t, added := Transmit(s, q, again), Content(DataPacket(s, q, again));
    assert Grows(s, t, true, added) by {
      forall k ensures Total(t, HasContent(k)) == Total(s, HasContent(k)) + if k == added then 1 else 0 {
        TransmitTotal(rs, s, q, again, HasContent(k));
      }
    }
    TwinsStay(s, t, true, added);
  }

  lemma FireTwins(rs: Routes, s: State)
    requires Good(s, rs) && Twins(s) && s.running && s.events != []
    ensures Twins(Fire(s))
  {
    FireCases(s);
    SameTwins(s, Rest(s));
    if Fired(s).Some? {
      SamePackets(rs, s, Rest(s));
      TransmitTwins(rs, Rest(s), Fired(s).value.0, Fired(s).value.1);
    }
  }

  lemma LaunchedContent(s: State, p: Packet, start: int, end: int, o: Outcome, k: Packet)
    ensures Launched(s, p, start, end, o, HasContent(k))
            == HasContent(k)(Queued(start, p)) + if o.duplicated && k == Content(Copy(s, p, start)) then 1 else 0
  {
  }

  lemma FilteredContent(node: int, p: Packet, k: Packet)
    ensures HasContent(k)(Queued(node, p)) == HasContent(k)(Logged(Filtered(p)))
  {
  }

  lemma TurnContent(rs: Routes, s: State, i: nat, o: Outcome, k: Packet)
    requires GoodNetwork(s, rs) && i < |s.routers| && s.routers[i].queue != [] && s.routers[i].available <= s.now
    ensures var copied := Made(s, i, o) == 1 && k == Content(Copy(s, s.routers[i].queue[0], s.routers[i].id));
      Total(Dispatch(s, i, o), HasContent(k)) == Total(s, HasContent(k)) + if copied then 1 else 0
  {
    var router := s.routers[i];
    var p, w := router.queue[0], HasContent(k);
    DispatchTotal(rs, s, i, o, w);
    LaunchedContent(s, p, router.id, router.table[p.destination], o, k);
    FilteredContent(router.id, p, k);
    InNumbers(Total(Dispatch(s, i, o), w), Total(s, w), w(Queued(router.id, p)),
              Launched(s, p, router.id, router.table[p.destination], o, w), Filters(s, i),
              if Made(s, i, o) == 1 && k == Content(Copy(s, p, router.id)) then 1 else 0);
  }

  /** What a link makes of the head of a queue is its duplicate. */
  lemma CopyIsTwin(rs: Routes, s: State, i: nat)
    requires GoodNetwork(s, rs) && Census(s) && i < |s.routers| && s.routers[i].queue != []
    ensures var p := s.routers[i].queue[0];
      Exists(s, Content(p)) && TwinOf(Content(Copy(s, p, s.routers[i].id)), Content(p))
  {
    var r := s.routers[i];
    var p := r.queue[0];
    assert p in r.queue;
    QueuedIsCounted(s, HasContent(Content(p)), i, p);
    QueuedIsCounted(s, IdIs(p.id), i, p);
    assert Total(s, IdIs(p.id)) > 0;
    assert RouterOk(s.cfg, rs, s.attempted, s.delivered, r);
    assert QueuedOk(s.cfg, rs, s.attempted, s.delivered, r.id, p);
  }

  lemma TurnGrows(rs: Routes, s: State, i: nat, o: Outcome)
    requires GoodNetwork(s, rs) && i < |s.routers| && s.routers[i].queue != [] && s.routers[i].available <= s.now
    ensures Grows(s, Dispatch(s, i, o), Made(s, i, o) == 1, Content(Copy(s, s.routers[i].queue[0], s.routers[i].id)))
  {
    var t, copy := Dispatch(s, i, o), Content(Copy(s, s.routers[i].queue[0], s.routers[i].id));
    forall k ensures Total(t, HasContent(k)) == Total(s, HasContent(k)) +
                       if Made(s, i, o) == 1 && k == copy then 1 else 0 {
      TurnContent(rs, s, i, o, k);
    }
  }

  lemma TwinIsMarked(s: State, t: State, more: bool, copy: Packet, p: Packet)
    requires Exists(s, p) && TwinOf(copy, p) && Grows(s, t, more, copy)
    ensures WellMarked(t, copy)
  {
    GrowsTo(s, t, more, copy, p);
  }

  lemma TurnTwins(rs: Routes, s: State, t: State, i: nat, o: Outcome)
    requires GoodNetwork(s, rs) && Census(s) && Twins(s) && i < |s.routers| && t == Dispatch(s, i, o)
    requires s.routers[i].queue != [] && s.routers[i].available <= s.now
    ensures Twins(t)
  {
    var p := s.routers[i].queue[0];
    var copy := Content(Copy(s, p, s.routers[i].id));
    TurnGrows(rs, s, i, o);
    CopyIsTwin(rs, s, i);
    TwinIsMarked(s, t, Made(s, i, o) == 1, copy, Content(p));
    TwinsStay(s, t, Made(s, i, o) == 1, copy);
  }

  lemma DispatchTwins(rs: Routes, s: State, i: nat, o: Outcome)
    requires GoodNetwork(s, rs) && Census(s) && Twins(s) && i < |s.routers|
    ensures Twins(Dispatch(s, i, o))
  {
    if s.routers[i].queue != [] && s.routers[i].available <= s.now {
      TurnTwins(rs, s, Dispatch(s, i, o), i, o);
    }
  }

  lemma AgeTwins(s: State, k: nat, dt: int)
    requires Twins(s) && k < |s.flights|
    ensures Twins(Age(s, k, dt))
  {
    assert Grows(s, Age(s, k, dt), false, s.flights[k].packet) by {
      forall c ensures Total(Age(s, k, dt), HasContent(c)) == Total(s, HasContent(c)) {
        AgeTotal(s, k, dt, HasContent(c));
      }
    }
    TwinsStay(s, Age(s, k, dt), false, s.flights[k].packet);
  }

  lemma LandedContent(s: State, f: Flight, k: Packet)
    ensures Landed(s, f, HasContent(k))
            == HasContent(k)(Flying(f))
               + if AcksFor(s, f) == 1 && k == Content(AckPacket(s, f.packet.sequence)) then 1 else 0
  {
  }

  lemma LandContent(rs: Routes, s: State, k: nat, c: Packet)
    requires GoodNetwork(s, rs) && k < |s.flights|
    ensures var f := s.flights[k];
      Total(Land(s, k), HasContent(c)) == Total(s, HasContent(c)) +
        if AcksFor(s, f) == 1 && c == Content(AckPacket(s, f.packet.sequence)) then 1 else 0
  {
    LandTotal(rs, s, k, HasContent(c));
    LandedContent(s, s.flights[k], c);
  }

  lemma LandGrows(rs: Routes, s: State, k: nat)
    requires GoodNetwork(s, rs) && k < |s.flights|
    ensures Grows(s, Land(s, k), AcksFor(s, s.flights[k]) == 1, Content(AckPacket(s, s.flights[k].packet.sequence)))
  {
    forall c ensures Total(Land(s, k), HasContent(c)) == Total(s, HasContent(c)) +
      if AcksFor(s, s.flights[k]) == 1 && c == Content(AckPacket(s, s.flights[k].packet.sequence)) then 1 else 0 {
      LandContent(rs, s, k, c);
    }
  }

  lemma LandTwins(rs: Routes, s: State, k: nat)
    requires GoodNetwork(s, rs) && Twins(s) && k < |s.flights|
    ensures Twins(Land(s, k))
  {
    LandGrows(rs, s, k);
    TwinsStay(s, Land(s, k), AcksFor(s, s.flights[k]) == 1, Content(AckPacket(s, s.flights[k].packet.sequence)));
  }

  // ---------------------------------------------------------------- every session

  ghost function MarkedIn(rs: Routes, c: Config): State -> bool {
    (s: State) => Good(s, rs) && s.cfg == c && CountedByMarks(s) && Twins(s)
  }

  lemma MarkedByEvents(rs: Routes, c: Config)
    ensures KeptByTime(MarkedIn(rs, c)) && KeptByFiring(MarkedIn(rs, c))
  {
    var p := MarkedIn(rs, c);
    assert KeptByTime(p) by {
      forall t: State, dt: nat | p(t) ensures p(Later(t, dt)) {
        ClockGood(t, rs, dt);
        SameMarks(t, Later(t, dt));
        SameTwins(t, Later(t, dt));
      }
      forall t: State | p(t) ensures p(FinishRun(t)) {
        FinishGood(t, rs);
        SameMarks(t, FinishRun(t));
        SameTwins(t, FinishRun(t));
      }
    }
    assert KeptByFiring(p) by {
      forall t: State | p(t) && t.running && t.events != [] && t.events[0].due <= t.now
        ensures p(Fire(t)) && Fire(t).running {
        FireGood(t, rs);
        FireMarks(rs, t);
        FireTwins(rs, t);
      }
    }
  }

  lemma DispatchMarked(rs: Routes, c: Config, t: State, i: nat, o: Outcome)
    requires MarkedIn(rs, c)(t) && i < |t.routers|
    ensures MarkedIn(rs, c)(Dispatch(t, i, o)) && Dispatch(t, i, o).running == t.running
  {
    DispatchGood(t, rs, i, o);
    DispatchMarks(rs, t, i, o);
    DispatchTwins(rs, t, i, o);
  }

  lemma AgeMarked(rs: Routes, c: Config, t: State, k: nat, dt: nat)
    requires MarkedIn(rs, c)(t) && k < |t.flights|
    ensures MarkedIn(rs, c)(Age(t, k, dt)) && Age(t, k, dt).running == t.running
  {
    AgeGood(t, rs, k, dt);
    AgeMarks(t, k, dt);
    AgeTwins(t, k, dt);
  }

  lemma EndMarked(rs: Routes, c: Config, t: State, k: nat)
    requires MarkedIn(rs, c)(t) && t.running && k < |t.flights|
    ensures MarkedIn(rs, c)(Land(t, k)) && Land(t, k).running
  {
    LandGood(t, rs, k);
    LandMarks(rs, t, k);
    LandTwins(rs, t, k);
  }

  lemma MarkedByLinks(rs: Routes, c: Config)
    ensures KeptByDispatch(MarkedIn(rs, c), Anything()) && KeptByFlights(MarkedIn(rs, c))
  {
    var p := MarkedIn(rs, c);
    assert KeptByDispatch(p, Anything()) by {
      forall t: State, i: nat, o: Outcome | p(t) && i < |t.routers|
        ensures p(Dispatch(t, i, o)) && Dispatch(t, i, o).running == t.running {
        DispatchMarked(rs, c, t, i, o);
      }
    }
    assert KeptByFlights(p) by {
      forall t: State, k: nat, dt: nat | p(t) && k < |t.flights|
        ensures p(Age(t, k, dt)) && Age(t, k, dt).running == t.running {
        AgeMarked(rs, c, t, k, dt);
      }
      forall t: State, k: nat | p(t) && t.running && k < |t.flights| ensures p(Land(t, k)) && Land(t, k).running {
        EndMarked(rs, c, t, k);
      }
    }
  }

  lemma UpdateMarked(s: State, rs: Routes, dt: nat, choice: int -> Outcome)
    requires MarkedIn(rs, s.cfg)(s)
    ensures MarkedIn(rs, s.cfg)(Update(s, dt, choice)) && Update(s, dt, choice).cfg == s.cfg
  {
    MarkedByEvents(rs, s.cfg);
    MarkedByLinks(rs, s.cfg);
    UpdateKeeps(MarkedIn(rs, s.cfg), Anything(), s, dt, choice);
  }

  ghost predicate RightlyMarked(s: State) {
    Configured(s.cfg) && MarkedIn(RoutesOf(s.cfg), s.cfg)(s)
  }

  lemma FreshCounted(s: State)
    requires Fresh(s)
    ensures CountedByMarks(s)
  {
    FreshTotal(s, Marked(Data, false, false));
    FreshTotal(s, Marked(Data, true, false));
    FreshTotal(s, Marked(Data, false, true));
    FreshTotal(s, Marked(Ack, false, false));
    FreshTotal(s, Marked(Ack, true, false));
    FreshTotal(s, Marked(Ack, false, true));
  }

  lemma FreshTwins(s: State)
    requires Fresh(s)
    ensures Twins(s)
  {
    forall k ensures !Exists(s, k) {
      FreshTotal(s, HasContent(k));
    }
  }

  lemma FreshMarked(s: State)
    requires Configured(s.cfg) && Good(s, RoutesOf(s.cfg)) && Fresh(s)
    ensures RightlyMarked(s)
  {
    FreshCounted(s);
    FreshTwins(s);
  }

  lemma ResetMarked(c: Config)
    requires Configured(c)
    ensures RightlyMarked(Reset(c))
  {
    FreshReset(c);
    FreshMarked(Reset(c));
  }

  lemma StartMarked(s: State)
    requires RightlyMarked(s)
    ensures RightlyMarked(StartRun(s.cfg))
  {
    FreshStart(s.cfg);
    StartIsFresh(s.cfg);
    FreshMarked(StartRun(s.cfg));
  }

  lemma TickMarked(s: State, dt: nat, choice: int -> Outcome)
    requires RightlyMarked(s)
    ensures RightlyMarked(Update(s, dt, choice))
  {
    UpdateMarked(s, RoutesOf(s.cfg), dt, choice);
  }

  lemma {:induction false} SessionMarked(c: Config, steps: seq<Step>)
    requires Legal(c, steps)
    ensures RightlyMarked(Session(c, steps))
  {
    if steps == [] {
      ResetMarked(c);
    } else {
      var front, step := steps[..|steps| - 1], steps[|steps| - 1];
      SessionMarked(c, front);
      StepMarked(Session(c, front), step);
    }
  }

  lemma StepMarked(s: State, step: Step)
    requires RightlyMarked(s) && (step.Configure? ==> Configured(step.cfg))
    ensures RightlyMarked(Apply(s, step))
  {
    match step
    case Start => StartMarked(s);
    case Tick(dt, choice) => TickMarked(s, dt, choice);
    case Configure(c) => ResetMarked(c);
  }

  // ---------------------------------------------------------------- in terms of the packets themselves

  /** The packet is in a queue, on a link, or on record. */
  ghost predicate Somewhere(s: State, p: Packet) {
    || (exists i :: 0 <= i < |s.routers| && p in s.routers[i].queue)
    || (exists k :: 0 <= k < |s.flights| && s.flights[k].packet == p)
    || (exists k :: 0 <= k < |s.log| && s.log[k].packet == p)
  }

  lemma SomewhereCounts(s: State, p: Packet)
    requires Somewhere(s, p)
    ensures Exists(s, Content(p))
  {
    var w := HasContent(Content(p));
    if i: nat :| i < |s.routers| && p in s.routers[i].queue {
      QueuedIsCounted(s, w, i, p);
    } else if k: nat :| k < |s.flights| && s.flights[k].packet == p {
      FlyingIsCounted(s, w, k);
    } else {
      var k: nat :| k < |s.log| && s.log[k].packet == p;
      SumRemove(s.log, k, LogWeight(w));
    }
  }

  lemma CountedIsSomewhere(s: State, c: Packet) returns (p: Packet)
    requires Exists(s, c)
    ensures Somewhere(s, p) && Content(p) == c
  {
    var w := HasContent(c);
    if Sum(s.routers, RouterWeight(w)) > 0 {
      var i := SumPositive(s.routers, RouterWeight(w));
      var k := SumPositive(s.routers[i].queue, QueueWeight(s.routers[i].id, w));
      p := s.routers[i].queue[k];
    } else if Sum(s.flights, FlightWeight(w)) > 0 {
      var k := SumPositive(s.flights, FlightWeight(w));
      p := s.flights[k].packet;
    } else {
      var k := SumPositive(s.log, LogWeight(w));
      p := s.log[k].packet;
    }
  }

  /** What o is a duplicate of: an earlier packet with the same ends, kind, sequence, port and mark of a repeat. */
  predicate DuplicateOf(p: Packet, o: Packet) {
    && p.duplicate && p.duplicatedFrom == Some(o.id) && o.id < p.id
    && p.source == o.source && p.destination == o.destination && p.kind == o.kind && p.sequence == o.sequence
    && p.ackFor == o.ackFor && p.port == o.port && p.retransmission == o.retransmission
  }

  /** Every duplicate, wherever it is or has ended, was made of a packet that is somewhere too; others name none. */
  lemma DuplicatesHaveOriginals(c: Config, steps: seq<Step>, p: Packet)
    requires Legal(c, steps) && Somewhere(Session(c, steps), p)
    ensures if p.duplicate then exists o :: Somewhere(Session(c, steps), o) && DuplicateOf(p, o)
            else p.duplicatedFrom == None
  {
    var s := Session(c, steps);
    SessionMarked(c, steps);
    SomewhereCounts(s, p);
    assert WellMarked(s, Content(p)) by { assert HasContent(Content(p)) == HasContent(Content(p)); }
    if p.duplicate {
      var k :| Exists(s, k) && TwinOf(Content(p), k);
      var o := CountedIsSomewhere(s, k);
      assert DuplicateOf(p, o);
    }
  }

  /** The statistics are what the marks on the packets add up to. */
  lemma StatisticsCountMarks(c: Config, steps: seq<Step>)
    requires Legal(c, steps)
    ensures var s := Session(c, steps);
      && Total(s, Marked(Data, false, false)) == |s.attempted|
      && Total(s, Marked(Data, true, false)) == s.stats.retransmissions
      && Total(s, Marked(Ack, false, false)) == s.stats.acknowledgements
      && Total(s, Marked(Ack, true, false)) == 0
      && Total(s, Marked(Data, false, true)) + Total(s, Marked(Ack, false, true)) == s.stats.duplicates
  {
    SessionMarked(c, steps);
  }
}
