/**
 * How much one data transmission can cost the network. A packet with k hops to go can still become
 * two on every link, and delivered data calls for an acknowledgement with hops of its own.
 */
module Drain {
  import opened Packets
  import opened Simulation
  import opened Totals
  import opened Network
  import opened NetworkSteps
  import opened Accounts
  import opened Ledger

  /** What a packet pays for leaving a queue, for the end of a flight, and for its place on record. */
  datatype Toll = Toll(dispatch: nat, landing: nat, end: nat)

  /** Tolls that count packets, and moves of the network. */
  const PACKETS := Toll(0, 0, 1)
  const MOVES := Toll(1, 1, 1)

  /**
   * Worth of a packet waiting (Q) or on a link (F) with k hops to go after that place, where links may
   * duplicate or not: all the tolls it and its duplicates will pay, if that ends at base. A launch splits what
   * is left after the toll over the packet and its duplicate.
   */
  ghost function Q(dup: bool, t: Toll, base: nat, k: nat): (v: nat)
    ensures v >= base
    decreases k, 0
  {
    if k == 0 then base else Copies(dup, F(dup, t, base, k - 1)) + t.dispatch
  }

  ghost function F(dup: bool, t: Toll, base: nat, k: nat): (v: nat)
    ensures v >= base
    decreases k, 1
  {
    if k == 0 then base else Q(dup, t, base, k) + t.landing
  }

  function Copies(dup: bool, v: nat): nat {
    if dup then 2 * v else v
  }

  /** Links of a route. */
  function Links(route: seq<int>): nat {
    if route == [] then 0 else |route| - 1
  }

  ghost function Base(c: Config, rs: Routes, dup: bool, t: Toll, kind: Kind): nat {
    t.landing + t.end + if kind == Data && c.mode == TCP then Q(dup, t, t.landing + t.end, Links(rs.ack)) else 0
  }

  ghost function Left(rs: Routes, p: Packet): int {
    |rs.Of(p.kind)| - |p.history|
  }

  ghost function Worth(c: Config, rs: Routes, dup: bool, t: Toll): Weight {
    (it: Item) =>
      match it
      case Queued(_, p) => if Left(rs, p) < 0 then 0 else Q(dup, t, Base(c, rs, dup, t, p.kind), Left(rs, p))
      case Flying(f) =>
        if Left(rs, f.packet) < 1 then 0 else F(dup, t, Base(c, rs, dup, t, f.packet.kind), Left(rs, f.packet) - 1)
      case Logged(_) => t.end
  }

  /** What a single transmission of data may cost in all. */
  ghost function Budget(c: Config, rs: Routes, dup: bool, t: Toll): nat {
    Q(dup, t, Base(c, rs, dup, t, Data), Links(rs.data))
  }

  /** Data transmissions so far, first ones and repeats. */
  function Transmissions(s: State): int {
    |s.attempted| + s.stats.retransmissions
  }

  /** n times b, by repeated addition. */
  ghost function Times(n: int, b: nat): nat {
    if n <= 0 then 0 else Times(n - 1, b) + b
  }

  lemma {:induction false} TimesIsProduct(n: nat, b: nat)
    ensures Times(n, b) == n * b
  {
    if n > 0 {
      TimesIsProduct(n - 1, b);
    }
  }

  /** All the worth in the network, and the moves made so far if they are tolled, was paid for by transmissions. */
  ghost predicate PaidFor(s: State, rs: Routes, dup: bool, t: Toll) {
    Total(s, Worth(s.cfg, rs, dup, t)) + (if t == MOVES then s.moves else 0)
    <= Times(Transmissions(s), Budget(s.cfg, rs, dup, t))
  }

  /** A transmission brings in exactly one budget. */
  lemma TransmitWorth(rs: Routes, s: State, sequence: int, retransmission: bool, dup: bool, t: Toll)
    requires GoodNetwork(s, rs) && sequence < s.cfg.goal
    ensures Total(Transmit(s, sequence, retransmission), Worth(s.cfg, rs, dup, t))
            == Total(s, Worth(s.cfg, rs, dup, t)) + Budget(s.cfg, rs, dup, t)
  {
    var w := Worth(s.cfg, rs, dup, t);
    TransmitTotal(rs, s, sequence, retransmission, w);
    assert w(Queued(s.cfg.source, DataPacket(s, sequence, retransmission))) == Budget(s.cfg, rs, dup, t);
  }

  lemma TransmitCounts(s: State, sequence: int, retransmission: bool)
    requires sequence < s.cfg.goal && (retransmission <==> sequence in s.attempted)
    ensures var s' := Transmit(s, sequence, retransmission);
      s'.cfg == s.cfg && s'.moves == s.moves && Transmissions(s') == Transmissions(s) + 1
  {
    TransmitCounters(s, sequence, retransmission);
    assert sequence in s.attempted ==> s.attempted + {sequence} == s.attempted;
  }

  lemma TransmitPays(rs: Routes, s: State, sequence: int, retransmission: bool, dup: bool, t: Toll)
    requires GoodNetwork(s, rs) && PaidFor(s, rs, dup, t) && s.stats.retransmissions >= 0
    requires retransmission <==> sequence in s.attempted
    ensures PaidFor(Transmit(s, sequence, retransmission), rs, dup, t)
  {
    if sequence < s.cfg.goal {
      TransmitWorth(rs, s, sequence, retransmission, dup, t);
      TransmitCounts(s, sequence, retransmission);
      PayOne(s, Transmit(s, sequence, retransmission), rs, dup, t);
    }
  }

  lemma PayOne(s: State, s': State, rs: Routes, dup: bool, t: Toll)
    requires PaidFor(s, rs, dup, t) && s'.cfg == s.cfg && s'.moves == s.moves
    requires 0 <= Transmissions(s) && Transmissions(s') == Transmissions(s) + 1
    requires Total(s', Worth(s.cfg, rs, dup, t)) == Total(s, Worth(s.cfg, rs, dup, t)) + Budget(s.cfg, rs, dup, t)
    ensures PaidFor(s', rs, dup, t)
  {
  }

  lemma StillPaid(s: State, s': State, rs: Routes, dup: bool, t: Toll, moved: nat)
    requires PaidFor(s, rs, dup, t) && s'.cfg == s.cfg && s'.moves == s.moves + moved
    requires Transmissions(s') == Transmissions(s)
    requires Total(s', Worth(s.cfg, rs, dup, t)) + (if t == MOVES then moved else 0)
             <= Total(s, Worth(s.cfg, rs, dup, t))
    ensures PaidFor(s', rs, dup, t)
  {
  }

  lemma LaunchedWorth(rs: Routes, s: State, p: Packet, start: int, end: int, o: Outcome, dup: bool, t: Toll)
    requires Left(rs, p) >= 1 && (o.duplicated ==> dup)
    ensures Launched(s, p, start, end, o, Worth(s.cfg, rs, dup, t))
            <= Copies(dup, F(dup, t, Base(s.cfg, rs, dup, t, p.kind), Left(rs, p) - 1))
  {
    var c := Copy(s, p, start);
    assert Left(rs, c) == Left(rs, p) && c.kind == p.kind;
  }

  lemma QueuedWorth(rs: Routes, c: Config, node: int, p: Packet, dup: bool, t: Toll)
    requires Left(rs, p) >= 1
    ensures Worth(c, rs, dup, t)(Queued(node, p))
            == Copies(dup, F(dup, t, Base(c, rs, dup, t, p.kind), Left(rs, p) - 1)) + t.dispatch
    ensures Worth(c, rs, dup, t)(Queued(node, p)) >= t.end + t.dispatch
  {
  }

  lemma DispatchWorth(rs: Routes, s: State, i: nat, o: Outcome, dup: bool, t: Toll)
    requires GoodNetwork(s, rs) && i < |s.routers| && s.routers[i].queue != [] && s.routers[i].available <= s.now
    requires o.duplicated ==> dup
    ensures Total(Dispatch(s, i, o), Worth(s.cfg, rs, dup, t)) + t.dispatch <= Total(s, Worth(s.cfg, rs, dup, t))
  {
    var w, r := Worth(s.cfg, rs, dup, t), s.routers[i];
    var p := r.queue[0];
    DispatchCases(rs, s, i, o);
    DispatchTotal(rs, s, i, o, w);
    QueuedWorth(rs, s.cfg, r.id, p, dup, t);
    if !Filters(s, i) {
      LaunchedWorth(rs, s, p, r.id, r.table[p.destination], o, dup, t);
    }
  }

  lemma DispatchPays(rs: Routes, s: State, i: nat, o: Outcome, dup: bool, t: Toll)
    requires GoodNetwork(s, rs) && PaidFor(s, rs, dup, t) && i < |s.routers| && (o.duplicated ==> dup)
    ensures PaidFor(Dispatch(s, i, o), rs, dup, t)
  {
    if s.routers[i].queue != [] && s.routers[i].available <= s.now {
      DispatchWorth(rs, s, i, o, dup, t);
      DispatchCounters(rs, s, i, o);
      StillPaid(s, Dispatch(s, i, o), rs, dup, t, 1);
    }
  }

  lemma AgePays(rs: Routes, s: State, k: nat, dt: int, dup: bool, t: Toll)
    requires PaidFor(s, rs, dup, t) && k < |s.flights|
    ensures PaidFor(Age(s, k, dt), rs, dup, t)
  {
    AgeTotal(s, k, dt, Worth(s.cfg, rs, dup, t));
    StillPaid(s, Age(s, k, dt), rs, dup, t, 0);
  }

  lemma LandedWorth(rs: Routes, s: State, f: Flight, dup: bool, t: Toll)
    requires Planned(s.cfg, rs) && FlightOk(s.cfg, rs, s.attempted, s.delivered, f)
    ensures Landed(s, f, Worth(s.cfg, rs, dup, t)) + t.landing <= Worth(s.cfg, rs, dup, t)(Flying(f))
  {
    ArrivedNext(rs, s.cfg, s.attempted, s.delivered, f);
    var w, k := Worth(s.cfg, rs, dup, t), Left(rs, f.packet) - 1;
    assert w(Flying(f)) == F(dup, t, Base(s.cfg, rs, dup, t, f.packet.kind), k);
    var p := Arrived(f);
    assert Left(rs, p) == k;
    if p.kind == Data && s.cfg.mode == TCP {
      assert w(Queued(s.cfg.destination, AckPacket(s, p.sequence))) == Q(dup, t, t.landing + t.end, Links(rs.ack));
    }
  }

  lemma LandPays(rs: Routes, s: State, k: nat, dup: bool, t: Toll)
    requires GoodNetwork(s, rs) && PaidFor(s, rs, dup, t) && k < |s.flights|
    ensures PaidFor(Land(s, k), rs, dup, t)
  {
    EndedKeeps(rs, s, k);
    LandedWorth(rs, s, s.flights[k], dup, t);
    LandTotal(rs, s, k, Worth(s.cfg, rs, dup, t));
    LandCounters(s, k);
    MarkKeepsRetransmissions(s, s.flights[k]);
    StillPaid(s, Land(s, k), rs, dup, t, 1);
  }

  lemma MarkKeepsRetransmissions(s: State, f: Flight)
    ensures MarkedStats(s, f).retransmissions == s.stats.retransmissions
  {
  }

  ghost function Pow2(k: nat): nat {
    if k == 0 then 1 else 2 * Pow2(k - 1)
  }

  /** Counting packets, the worth is the base times two to the hops left. */
  lemma {:induction false} WorthClosed(base: nat, k: nat)
    ensures Q(true, PACKETS, base, k) == F(true, PACKETS, base, k) == base * Pow2(k)
  {
    if k > 0 {
      WorthClosed(base, k - 1);
      assert base * (2 * Pow2(k - 1)) == 2 * (base * Pow2(k - 1));
    }
  }
}
