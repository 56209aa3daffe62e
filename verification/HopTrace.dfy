/** packet-forward/forward.py: tracing a packet through forwarding tables with a default route and a hop limit. */
module HopTrace {
  import opened Wrappers

  type Address = string
  type Table = map<Address, Address>

  const DEFAULT: Address := "*"
  const DROPPED: Address := "x (dropped)"

  /** Router.forward; None stands for its KeyError. */
  function Forward(t: Table, destination: Address): (hop: Option<Address>)
    ensures hop.None? <==> destination !in t && DEFAULT !in t
    ensures destination in t ==> hop == Some(t[destination])
    ensures destination !in t && "*" in t ==> hop == Some(t["*"])
  {
    if destination in t then Some(t[destination])
    else if DEFAULT in t then Some(t[DEFAULT])
    else None
  }

  /** One hop towards the destination; None when the node is unknown or has no route. */
  function Step(network: map<Address, Table>, destination: Address, at: Address): Option<Address> {
    if at in network then Forward(network[at], destination) else None
  }

  /** Where the packet is after k hops if nothing stops it but a missing route. */
  function Orbit(network: map<Address, Table>, source: Address, destination: Address, k: nat): Option<Address> {
    if k == 0 then Some(source)
    else
      match Orbit(network, source, destination, k - 1)
      case None => None
      case Some(at) => Step(network, destination, at)
  }

  /** The first k hops lead on without having reached the destination before. */
  ghost predicate OnTheWay(network: map<Address, Table>, source: Address, destination: Address, k: nat) {
    && Orbit(network, source, destination, k).Some?
    && forall j :: 0 <= j < k ==> Orbit(network, source, destination, j).Some?
                                  && Orbit(network, source, destination, j) != Some(destination)
  }

  /** The destination is reached for the first time after k hops. */
  ghost predicate Reaches(network: map<Address, Table>, source: Address, destination: Address, k: nat) {
    OnTheWay(network, source, destination, k) && Orbit(network, source, destination, k) == Some(destination)
  }

  /** hops are the nodes visited by the first |hops| - 1 hops. */
  ghost predicate Follows(network: map<Address, Table>, source: Address, destination: Address, hops: seq<Address>) {
    forall j :: 0 <= j < |hops| ==> Orbit(network, source, destination, j) == Some(hops[j])
  }

  /** The trace reports the way to the destination, found within the limit. */
  ghost predicate Arrives(network: map<Address, Table>, source: Address, destination: Address, maxHops: int,
                          hops: seq<Address>) {
    && 1 <= |hops| <= maxHops - 1 && Follows(network, source, destination, hops)
    && Reaches(network, source, destination, |hops| - 1)
  }

  /** The trace gives up after maxHops - 1 hops, none of the nodes before the last being the destination. */
  ghost predicate GivesUp(network: map<Address, Table>, source: Address, destination: Address, maxHops: int,
                          hops: seq<Address>) {
    && |hops| == maxHops + 1 >= 2 && hops[maxHops] == DROPPED
    && Follows(network, source, destination, hops[..maxHops])
    && OnTheWay(network, source, destination, maxHops - 1)
  }

  /** The packet gets stuck within the limit, at a node that is not the destination and has no route. */
  ghost predicate Sticks(network: map<Address, Table>, source: Address, destination: Address, maxHops: int, k: nat) {
    && k <= maxHops - 2 && OnTheWay(network, source, destination, k)
    && Orbit(network, source, destination, k) != Some(destination)
    && Orbit(network, source, destination, k + 1) == None
  }

  /** Each node of the way names the next in its table: by the destination's own entry, or else by the entry for "*". */
  ghost predicate TableWay(network: map<Address, Table>, destination: Address, way: seq<Address>) {
    forall i, j :: 0 <= i && j == i + 1 && j < |way| ==> NamesNext(network, destination, way[i], way[j])
  }

  predicate NamesNext(network: map<Address, Table>, destination: Address, at: Address, next: Address) {
    at in network && if destination in network[at] then next == network[at][destination]
                     else "*" in network[at] && next == network[at]["*"]
  }

  /** The node is unknown, or its table has neither entry. */
  predicate NamesNone(network: map<Address, Table>, destination: Address, at: Address) {
    at in network ==> destination !in network[at] && "*" !in network[at]
  }

  lemma FollowsTables(network: map<Address, Table>, source: Address, destination: Address, hops: seq<Address>)
    requires Follows(network, source, destination, hops)
    ensures TableWay(network, destination, hops) && (hops != [] ==> hops[0] == source)
  {
    forall i, j | 0 <= i && j == i + 1 && j < |hops| ensures NamesNext(network, destination, hops[i], hops[j]) {
      assert Orbit(network, source, destination, j) == Step(network, destination, hops[i]);
    }
  }

  /** A way along the tables that ends where there is no way on, short of the destination. */
  ghost predicate DeadEnd(network: map<Address, Table>, source: Address, destination: Address, maxHops: int,
                          way: seq<Address>) {
    && 1 <= |way| <= maxHops - 1 && way[0] == source && TableWay(network, destination, way)
    && destination !in way && NamesNone(network, destination, way[|way| - 1])
  }

  lemma {:induction false} NotThere(network: map<Address, Table>, source: Address, destination: Address,
                                    hops: seq<Address>, k: nat)
    requires Follows(network, source, destination, hops) && OnTheWay(network, source, destination, k) && |hops| <= k
    ensures destination !in hops
  {
    forall j | 0 <= j < |hops| ensures hops[j] != destination {
      assert Orbit(network, source, destination, j) == Some(hops[j]);
    }
  }

  /** Here the trace stops with the destination as its last node, and nowhere before. */
  ghost predicate TracedTo(source: Address, destination: Address, hops: seq<Address>) {
    hops != [] && hops[0] == source && hops[|hops| - 1] == destination && destination !in hops[..|hops| - 1]
  }

  method GetPacketRoute(source: Address, destination: Address, network: map<Address, Table>, maxHops: int := 8)
    returns (r: Option<seq<Address>>)
    ensures maxHops <= 0 ==> r == Some([source])
    ensures maxHops > 0 && r.Some? ==> Arrives(network, source, destination, maxHops, r.value)
                                       || GivesUp(network, source, destination, maxHops, r.value)
    ensures r.None? ==> exists k :: Sticks(network, source, destination, maxHops, k)
    ensures maxHops > 0 && r.Some? && |r.value| < maxHops ==>
              TableWay(network, destination, r.value) && TracedTo(source, destination, r.value)
    ensures maxHops > 0 && r.Some? && |r.value| >= maxHops ==>
              && |r.value| == maxHops + 1 && r.value[maxHops] == "x (dropped)" && r.value[0] == source
              && TableWay(network, destination, r.value[..maxHops]) && destination !in r.value[..maxHops - 1]
    ensures r.None? ==> exists way :: DeadEnd(network, source, destination, maxHops, way)
  {
    var hops := [source];
    var i := 0;
    while i < maxHops
      invariant 0 <= i && |hops| == i + 1 && (if maxHops > 0 then i < maxHops else hops == [source])
      invariant Follows(network, source, destination, hops)
      invariant OnTheWay(network, source, destination, i)
    {
      var current := hops[|hops| - 1];
      if i == maxHops - 1 {
        assert (hops + [DROPPED])[..maxHops] == hops;
        FollowsTables(network, source, destination, hops);
        assert hops[..i] == (hops + [DROPPED])[..i];
        NotThere(network, source, destination, hops[..i], i);
        return Some(hops + [DROPPED]);
      } else if current == destination {
        FollowsTables(network, source, destination, hops);
        NotThere(network, source, destination, hops[..i], i);
        return Some(hops);
      }
      var next := if current in network then Forward(network[current], destination) else None;
      assert Orbit(network, source, destination, i + 1) == next;
      if next == None {
        assert Sticks(network, source, destination, maxHops, i);
        FollowsTables(network, source, destination, hops);
        NotThere(network, source, destination, hops[..i], i);
        assert hops == hops[..i] + [current];
        assert DeadEnd(network, source, destination, maxHops, hops);
        return None;
      }
      hops := hops + [next.value];
      i := i + 1;
    }
    return Some(hops);
  }

  // ---------------------------------------------------------------- what a dropped packet means

  /** Two equal nodes on the way give equal ways from there on. */
  lemma {:induction false} OrbitRepeats(network: map<Address, Table>, source: Address, destination: Address,
                                        i: nat, j: nat, t: nat)
    requires Orbit(network, source, destination, i) == Orbit(network, source, destination, j)
    ensures Orbit(network, source, destination, i + t) == Orbit(network, source, destination, j + t)
  {
    if t > 0 {
      OrbitRepeats(network, source, destination, i, j, t - 1);
    }
  }

  /** Before its destination a packet that arrives never visits a node twice: it would go round for ever. */
  lemma ArrivingWayIsSimple(network: map<Address, Table>, source: Address, destination: Address, k: nat, i: nat, j: nat)
    requires Reaches(network, source, destination, k) && i < j < k
    ensures Orbit(network, source, destination, i) != Orbit(network, source, destination, j)
  {
    if Orbit(network, source, destination, i) == Orbit(network, source, destination, j) {
      OrbitRepeats(network, source, destination, i, j, k - j);
    }
  }

  ghost predicate Visited(network: map<Address, Table>, source: Address, destination: Address, n: nat, a: Address) {
    exists j: nat :: j < n && Orbit(network, source, destination, j) == Some(a)
  }

  /** The distinct nodes of the first n hops. */
  lemma {:induction false} VisitedNodes(network: map<Address, Table>, source: Address, destination: Address,
                                        k: nat, n: nat)
    returns (visited: set<Address>)
    requires Reaches(network, source, destination, k) && n <= k
    ensures |visited| == n && visited <= network.Keys - {destination}
    ensures forall a :: a in visited ==> Visited(network, source, destination, n, a)
  {
    if n == 0 {
      visited := {};
    } else {
      var front := VisitedNodes(network, source, destination, k, n - 1);
      var a := Orbit(network, source, destination, n - 1).value;
      assert Orbit(network, source, destination, n).Some?;
      NewOnTheWay(network, source, destination, k, n - 1, a);
      visited := front + {a};
      forall b | b in visited ensures Visited(network, source, destination, n, b) {
        assert b == a || Visited(network, source, destination, n - 1, b);
      }
    }
  }

  lemma NewOnTheWay(network: map<Address, Table>, source: Address, destination: Address, k: nat, n: nat, a: Address)
    requires Reaches(network, source, destination, k) && n < k && Orbit(network, source, destination, n) == Some(a)
    ensures !Visited(network, source, destination, n, a)
  {
    forall j: nat | j < n ensures Orbit(network, source, destination, j) != Some(a) {
      ArrivingWayIsSimple(network, source, destination, k, j, n);
    }
  }

  lemma SubsetSize(a: set<Address>, b: set<Address>)
    requires a <= b
    ensures |a| <= |b|
  {
    assert b == a + (b - a);
  }

  /** A packet that arrives at all does so within as many hops as there are other routers. */
  lemma ArrivesInTime(network: map<Address, Table>, source: Address, destination: Address, k: nat)
    requires Reaches(network, source, destination, k)
    ensures k <= |network.Keys - {destination}|
  {
    var visited := VisitedNodes(network, source, destination, k, k);
    SubsetSize(visited, network.Keys - {destination});
  }

  lemma {:induction false} FirstArrival(network: map<Address, Table>, source: Address, destination: Address, k: nat)
    requires Orbit(network, source, destination, k) == Some(destination)
    ensures exists j :: 0 <= j <= k && Reaches(network, source, destination, j)
  {
    if !Reaches(network, source, destination, k) {
      var j: nat :| j < k && (Orbit(network, source, destination, j) == Some(destination)
                              || Orbit(network, source, destination, j).None?);
      if Orbit(network, source, destination, j).None? {
        StaysStuck(network, source, destination, j, k);
      }
      FirstArrival(network, source, destination, j);
    }
  }

  lemma {:induction false} StaysStuck(network: map<Address, Table>, source: Address, destination: Address,
                                      j: nat, k: nat)
    requires Orbit(network, source, destination, j).None? && j <= k
    ensures Orbit(network, source, destination, k).None?
  {
    if j < k {
      StaysStuck(network, source, destination, j, k - 1);
    }
  }

  lemma NoArrival(network: map<Address, Table>, source: Address, destination: Address,
                  maxHops: int, hops: seq<Address>, j: nat)
    requires GivesUp(network, source, destination, maxHops, hops)
    requires maxHops >= |network.Keys - {destination}| + 2
    ensures !Reaches(network, source, destination, j)
  {
    if Reaches(network, source, destination, j) {
      ArrivesInTime(network, source, destination, j);
    }
  }

  /**
   * With a limit of two more than the number of other routers, the mark of a dropped packet is a proof:
   * forwarding never reaches the destination, after any number of hops.
   */
  lemma DroppedMeansUnreachable(network: map<Address, Table>, source: Address, destination: Address,
                                maxHops: int, hops: seq<Address>, k: nat)
    requires GivesUp(network, source, destination, maxHops, hops)
    requires maxHops >= |network.Keys - {destination}| + 2
    ensures Orbit(network, source, destination, k) != Some(destination)
  {
    forall j: nat ensures !Reaches(network, source, destination, j) {
      NoArrival(network, source, destination, maxHops, hops, j);
    }
    if Orbit(network, source, destination, k) == Some(destination) {
      FirstArrival(network, source, destination, k);
    }
  }

  /** Where the destination is itself a router, one more than the number of routers is limit enough. */
  lemma RouterCountSuffices(network: map<Address, Table>, source: Address, destination: Address,
                            maxHops: int, hops: seq<Address>, k: nat)
    requires GivesUp(network, source, destination, maxHops, hops)
    requires destination in network && maxHops >= |network| + 1
    ensures Orbit(network, source, destination, k) != Some(destination)
  {
    assert network.Keys == (network.Keys - {destination}) + {destination};
    DroppedMeansUnreachable(network, source, destination, maxHops, hops, k);
  }

  lemma NeverSticks(network: map<Address, Table>, source: Address, destination: Address, maxHops: int, k: nat, i: nat)
    requires Reaches(network, source, destination, k)
    ensures !Sticks(network, source, destination, maxHops, i)
  {
  }

  /** The trace ends at the destination exactly when that is at most maxHops - 2 hops away. */
  lemma ArrivesExactly(network: map<Address, Table>, source: Address, destination: Address, maxHops: int, k: nat)
    requires Reaches(network, source, destination, k)
    ensures forall hops :: Arrives(network, source, destination, maxHops, hops) ==> |hops| == k + 1 && k <= maxHops - 2
    ensures k <= maxHops - 2 ==> forall hops :: !GivesUp(network, source, destination, maxHops, hops)
    ensures forall i: nat :: !Sticks(network, source, destination, maxHops, i)
  {
    forall hops | Arrives(network, source, destination, maxHops, hops) ensures |hops| == k + 1 && k <= maxHops - 2 {
      var m := |hops| - 1;
      assert Reaches(network, source, destination, m);
      assert !(m < k) && !(k < m);
    }
    forall i: nat ensures !Sticks(network, source, destination, maxHops, i) {
      NeverSticks(network, source, destination, maxHops, k, i);
    }
  }
}
