/** 05-topology: routers that hold one message at a time for the delay of the link it is to take. */
module StoreForward {
  import opened Wrappers
  import opened Sums

  /** held is next_msg while message_queued is true: the next hop and the destination. */
  datatype Router = Router(
    id: int, table: map<int, int>, delays: map<int, int>, queue: seq<int>, held: Option<(int, int)>, lastSent: int)

  /** added, received and lost are history kept for the statements only. */
  datatype Net = Net(routers: seq<Router>, added: nat, received: nat, lost: nat)

  /** operator[] of an unordered_map gives a missing key the value zero. */
  function Lookup(m: map<int, int>, k: int): int {
    if k in m then m[k] else 0
  }

  /** The first router with the id; the number of routers if there is none. */
  function Find(routers: seq<Router>, id: int): (i: nat)
    ensures i <= |routers|
    ensures i < |routers| ==> routers[i].id == id
    ensures forall j :: 0 <= j < i ==> routers[j].id != id
  {
    if routers == [] then 0 else if routers[0].id == id then 0
    else
      var i := 1 + Find(routers[1..], id);
      assert forall j :: 1 <= j < i ==> routers[j] == routers[1..][j - 1];
      i
  }

  function Push(routers: seq<Router>, id: int, destination: int): (r: seq<Router>)
    ensures |r| == |routers|
  {
    var i := Find(routers, id);
    if i < |routers| then routers[i := routers[i].(queue := routers[i].queue + [destination])] else routers
  }

  /** Manager::add_message; an unknown source is ignored. */
  function AddMessage(n: Net, source: int, destination: int): Net {
    if Find(n.routers, source) < |n.routers| then
      n.(routers := Push(n.routers, source, destination), added := n.added + 1)
    else n
  }

  predicate HasWork(r: Router) {
    r.queue != [] || r.held.Some?
  }

  /** The held message moves to its next hop, or vanishes if there is no such router. */
  function SendHeld(n: Net, i: nat): (n': Net)
    requires i < |n.routers|
    ensures |n'.routers| == |n.routers|
  {
    match n.routers[i].held
    case None => n
    case Some((hop, destination)) =>
      var known := Find(n.routers, hop) < |n.routers|;
      var routers := Push(n.routers, hop, destination);
      n.(routers := routers[i := routers[i].(held := None)], lost := n.lost + if known then 0 else 1)
  }

  /** The next message is received here or becomes the held one. */
  function TakeNext(n: Net, i: nat, now: int): (n': Net)
    requires i < |n.routers|
    ensures |n'.routers| == |n.routers|
  {
    var r := n.routers[i];
    if r.queue == [] then n
    else if r.queue[0] == r.id then
      n.(routers := n.routers[i := r.(queue := r.queue[1..])], received := n.received + 1)
    else
      var hop := Lookup(r.table, r.queue[0]);
      n.(routers := n.routers[i := r.(queue := r.queue[1..], held := Some((hop, r.queue[0])),
                                      lastSent := now + Lookup(r.delays, hop))])
  }

  function TickRouter(n: Net, i: nat, now: int): (n': Net)
    requires i < |n.routers|
    ensures |n'.routers| == |n.routers|
  {
    var r := n.routers[i];
    if !HasWork(r) || now < r.lastSent then n else TakeNext(SendHeld(n, i), i, now)
  }

  /** Manager::tick from router i on; each router reads the clock for itself. */
  function TickFrom(n: Net, i: nat, clock: nat -> int): (n': Net)
    requires i <= |n.routers|
    ensures |n'.routers| == |n.routers|
    decreases |n.routers| - i
  {
    if i == |n.routers| then n else TickFrom(TickRouter(n, i, clock(i)), i + 1, clock)
  }

  predicate Finished(n: Net) {
    forall i :: 0 <= i < |n.routers| ==> !HasWork(n.routers[i])
  }

  /** Passes of the manager, each with its own clock readings. */
  ghost function Passes(n: Net, clocks: seq<nat -> int>): (n': Net)
    ensures |n'.routers| == |n.routers|
  {
    if clocks == [] then n else TickFrom(Passes(n, clocks[..|clocks| - 1]), 0, clocks[|clocks| - 1])
  }

  /** The network after main has added its messages, each a source and a destination. */
  function AddAll(routers: seq<Router>, messages: seq<(int, int)>): Net {
    if messages == [] then Net(routers, 0, 0, 0)
    else
      var (source, destination) := messages[|messages| - 1];
      AddMessage(AddAll(routers, messages[..|messages| - 1]), source, destination)
  }

  // ---------------------------------------------------------------- what a tick does to each router

  /** Every queue is first in, first out: some messages leave at the front and others join at the back. */
  ghost predicate QueueMoves(r: Router, r': Router, left: nat, joined: seq<int>) {
    r'.id == r.id && r'.table == r.table && r'.delays == r.delays
    && left <= |r.queue + joined| && r'.queue == (r.queue + joined)[left..]
  }

  /** The message that router i holds for router j, if j is the first with the id it is to go to. */
  function Joining(n: Net, i: nat, j: nat): seq<int>
    requires i < |n.routers|
  {
    match n.routers[i].held
    case None => []
    case Some((hop, destination)) => if Find(n.routers, hop) == j then [destination] else []
  }

  /**
   * What a tick of router i does to router j. Past its time the router hands over what it holds and takes its next
   * message, which it keeps for the delay of the link it is to take, unless that message is at its destination.
   */
  ghost predicate Ticked(n: Net, i: nat, now: int, j: nat, r': Router)
    requires i < |n.routers| && j < |n.routers|
  {
    var r := n.routers[j];
    if !HasWork(n.routers[i]) || now < n.routers[i].lastSent then r' == r
    else if j != i then QueueMoves(r, r', 0, Joining(n, i, j)) && r'.held == r.held && r'.lastSent == r.lastSent
    else
      var all := r.queue + Joining(n, i, i);
      QueueMoves(r, r', if all == [] then 0 else 1, Joining(n, i, i))
      && if all == [] || all[0] == r.id then r'.held == None && r'.lastSent == r.lastSent
         else
           var hop := if all[0] in r.table then r.table[all[0]] else 0;
           r'.held == Some((hop, all[0])) && r'.lastSent == now + if hop in r.delays then r.delays[hop] else 0
  }

  /** An added message is the last in the queue of the first router with its source's id, or is ignored. */
  lemma AddExactly(n: Net, source: int, destination: int, j: nat)
    requires j < |n.routers|
    ensures var r' := AddMessage(n, source, destination).routers[j];
      r' == if Find(n.routers, source) == j then n.routers[j].(queue := n.routers[j].queue + [destination])
            else n.routers[j]
  {
  }

  lemma SendExactly(n: Net, i: nat, j: nat)
    requires i < |n.routers| && j < |n.routers|
    ensures var r, r' := n.routers[j], SendHeld(n, i).routers[j];
      QueueMoves(r, r', 0, Joining(n, i, j)) && r'.lastSent == r.lastSent && r'.held == if j == i then None else r.held
  {
    assert n.routers[j].queue + [] == n.routers[j].queue;
  }

  lemma TickExactly(n: Net, i: nat, now: int, j: nat)
    requires i < |n.routers| && j < |n.routers|
    ensures Ticked(n, i, now, j, TickRouter(n, i, now).routers[j])
  {
    SendExactly(n, i, j);
    SendExactly(n, i, i);
  }

  /** Router i has ticked, and n' is what that makes of every router. */
  ghost predicate Ticks(n: Net, i: nat, now: int, n': Net) {
    && i < |n.routers| == |n'.routers|
    && (forall j :: 0 <= j < |n.routers| ==> Ticked(n, i, now, j, n'.routers[j]))
    && Counts(n, i, now, n')
  }

  /** What is at its destination is received, and what no router has the id to take is lost. */
  ghost predicate Counts(n: Net, i: nat, now: int, n': Net)
    requires i < |n.routers|
  {
    var r, all := n.routers[i], n.routers[i].queue + Joining(n, i, i);
    var ticks := HasWork(r) && r.lastSent <= now;
    && n'.added == n.added
    && n'.received == n.received + (if ticks && all != [] && all[0] == r.id then 1 else 0)
    && n'.lost == n.lost
         + if ticks && r.held.Some? && forall j :: 0 <= j < |n.routers| ==> n.routers[j].id != r.held.value.0 then 1
           else 0
  }

  lemma TicksExactly(n: Net, i: nat, now: int)
    requires i < |n.routers|
    ensures Ticks(n, i, now, TickRouter(n, i, now))
  {
    forall j | 0 <= j < |n.routers| ensures Ticked(n, i, now, j, TickRouter(n, i, now).routers[j]) {
      TickExactly(n, i, now, j);
    }
    SendExactly(n, i, i);
  }

  /** A pass leads from n to t: every router from number i on ticks in order, each by its own clock. */
  ghost predicate PassesThrough(n: Net, i: nat, clock: nat -> int, t: Net)
    decreases |n.routers| - i
  {
    if i >= |n.routers| then t == n
    else exists next: Net :: Ticks(n, i, clock(i), next) && PassesThrough(next, i + 1, clock, t)
  }

  /** A pass ticks every router once, in order, and each finds what the ones before it have left. */
  lemma {:induction false} PassExactly(n: Net, i: nat, clock: nat -> int)
    requires i <= |n.routers|
    ensures PassesThrough(n, i, clock, TickFrom(n, i, clock))
    decreases |n.routers| - i
  {
    if i < |n.routers| {
      TicksExactly(n, i, clock(i));
      PassExactly(TickRouter(n, i, clock(i)), i + 1, clock);
    }
  }

  // ---------------------------------------------------------------- adding up over all messages

  /**
   * What a message counts for: by the router it is queued at, known by id and table, and its
   * destination; or by the hop and the destination it is held for.
   */
  datatype Weights = Weights(queued: (int, map<int, int>, int) -> nat, held: (int, int) -> nat)

  ghost function QueueWeight(w: Weights, id: int, table: map<int, int>): int -> nat {
    d => w.queued(id, table, d)
  }

  ghost function HeldWeight(w: Weights, r: Router): nat {
    if r.held.Some? then w.held(r.held.value.0, r.held.value.1) else 0
  }

  ghost function RouterWeight(w: Weights): Router -> nat {
    (r: Router) => Sum(r.queue, QueueWeight(w, r.id, r.table)) + HeldWeight(w, r)
  }

  ghost function Total(n: Net, w: Weights): nat {
    Sum(n.routers, RouterWeight(w))
  }

  /** A message that would arrive at router hop joins its queue, if there is such a router. */
  ghost function JoinWeight(routers: seq<Router>, w: Weights, hop: int, d: int): nat {
    var j := Find(routers, hop);
    if j < |routers| then w.queued(routers[j].id, routers[j].table, d) else 0
  }

  lemma PushTotal(routers: seq<Router>, hop: int, d: int, w: Weights)
    ensures Sum(Push(routers, hop, d), RouterWeight(w))
            == Sum(routers, RouterWeight(w)) + JoinWeight(routers, w, hop, d)
  {
    var j := Find(routers, hop);
    if j < |routers| {
      var r := routers[j];
      SumSnoc(r.queue, d, QueueWeight(w, r.id, r.table));
      SumUpdate(routers, j, r.(queue := r.queue + [d]), RouterWeight(w));
    }
  }

  lemma ReleaseTotal(routers: seq<Router>, i: nat, w: Weights)
    requires i < |routers|
    ensures Sum(routers[i := routers[i].(held := None)], RouterWeight(w)) + HeldWeight(w, routers[i])
            == Sum(routers, RouterWeight(w))
  {
    SumUpdate(routers, i, routers[i].(held := None), RouterWeight(w));
  }

  /** Sending turns a held message into a queued one, or into nothing where there is no such router. */
  lemma SendHeldTotal(n: Net, i: nat, w: Weights)
    requires i < |n.routers| && n.routers[i].held.Some?
    ensures var (hop, d) := n.routers[i].held.value;
      Total(SendHeld(n, i), w) + w.held(hop, d) == Total(n, w) + JoinWeight(n.routers, w, hop, d)
  {
    var (hop, d) := n.routers[i].held.value;
    PushTotal(n.routers, hop, d, w);
    ReleaseTotal(Push(n.routers, hop, d), i, w);
  }

  /** Taking the next message off the queue ends it, or turns it into a held one. */
  lemma TakeNextTotal(n: Net, i: nat, now: int, w: Weights)
    requires i < |n.routers| && n.routers[i].held == None && n.routers[i].queue != []
    ensures var r := n.routers[i];
      var d := r.queue[0];
      Total(TakeNext(n, i, now), w) + w.queued(r.id, r.table, d)
      == Total(n, w) + if d == r.id then 0 else w.held(Lookup(r.table, d), d)
  {
    var r := n.routers[i];
    SumRemove(r.queue, 0, QueueWeight(w, r.id, r.table));
    assert r.queue[..0] + r.queue[0 + 1..] == r.queue[1..];
    SumUpdate(n.routers, i, TakeNext(n, i, now).routers[i], RouterWeight(w));
  }

  lemma AddTotal(n: Net, source: int, d: int, w: Weights)
    ensures Total(AddMessage(n, source, d), w) == Total(n, w) + JoinWeight(n.routers, w, source, d)
  {
    PushTotal(n.routers, source, d, w);
  }

  /** No single message counts for more than all of them together. */
  lemma OneAtMostTotal(n: Net, i: nat, w: Weights)
    requires i < |n.routers|
    ensures HeldWeight(w, n.routers[i]) <= Total(n, w)
    ensures n.routers[i].queue != [] ==>
              w.queued(n.routers[i].id, n.routers[i].table, n.routers[i].queue[0]) <= Total(n, w)
  {
    var r := n.routers[i];
    SumRemove(n.routers, i, RouterWeight(w));
    if r.queue != [] {
      SumRemove(r.queue, 0, QueueWeight(w, r.id, r.table));
    }
  }

  lemma {:induction false} IdleTotal(routers: seq<Router>, w: Weights)
    requires forall i :: 0 <= i < |routers| ==> !HasWork(routers[i])
    ensures Sum(routers, RouterWeight(w)) == 0
  {
    SumZero(routers, RouterWeight(w));
  }

  // ---------------------------------------------------------------- counting messages

  ghost function Ones(): Weights {
    Weights((id, table, d) => 1, (hop, d) => 1)
  }

  /** Nothing is created or forgotten. */
  ghost predicate Conserved(n: Net) {
    n.added == n.received + Total(n, Ones()) + n.lost
  }

  lemma SendHeldConserves(n: Net, i: nat)
    requires Conserved(n) && i < |n.routers|
    ensures Conserved(SendHeld(n, i))
  {
    if n.routers[i].held.Some? {
      SendHeldTotal(n, i, Ones());
    }
  }

  lemma TakeNextConserves(n: Net, i: nat, now: int)
    requires Conserved(n) && i < |n.routers| && n.routers[i].held == None
    ensures Conserved(TakeNext(n, i, now))
  {
    if n.routers[i].queue != [] {
      TakeNextTotal(n, i, now, Ones());
    }
  }

  /** Before the next message is taken none is held. */
  lemma SendHeldReleases(n: Net, i: nat)
    requires i < |n.routers|
    ensures n.routers[i].held == None ==> SendHeld(n, i) == n
    ensures SendHeld(n, i).routers[i].held == None
  {
  }

  lemma TickConserves(n: Net, i: nat, now: int)
    requires Conserved(n) && i < |n.routers|
    ensures Conserved(TickRouter(n, i, now))
  {
    SendHeldConserves(n, i);
    SendHeldReleases(n, i);
    TakeNextConserves(SendHeld(n, i), i, now);
  }

  lemma AddConserves(n: Net, source: int, destination: int)
    requires Conserved(n)
    ensures Conserved(AddMessage(n, source, destination))
  {
    AddTotal(n, source, destination, Ones());
  }

  lemma {:induction false} NoMessages(routers: seq<Router>)
    ensures Sum(routers, RouterWeight(Ones())) == 0 <==> forall i :: 0 <= i < |routers| ==> !HasWork(routers[i])
  {
    if routers != [] {
      var r := routers[|routers| - 1];
      NoMessages(routers[..|routers| - 1]);
      assert forall i :: 0 <= i < |routers| - 1 ==> routers[..|routers| - 1][i] == routers[i];
      assert RouterWeight(Ones())(r) > 0 <==> HasWork(r);
    }
  }

  /** finished() holds exactly when every added message has been received or lost, whatever the tables. */
  lemma FinishedExactly(n: Net)
    requires Conserved(n)
    ensures Finished(n) <==> n.received + n.lost == n.added
  {
    NoMessages(n.routers);
  }

  /** A router whose turn is still to come keeps its work and its clock while others tick. */
  lemma OthersKeepWork(n: Net, i: nat, j: nat, now: int, next: Net)
    requires i < |n.routers| && j < |n.routers| && i != j && HasWork(n.routers[j])
    requires next == TickRouter(n, i, now)
    ensures HasWork(next.routers[j]) && next.routers[j].lastSent == n.routers[j].lastSent
  {
  }
}
