/**
 * What becomes of the messages of 05-topology. The tables alone decide for each message whether it is
 * received, is lost at a hop that no router answers to, or goes round for ever; and that decides what
 * finished() means and whether it ever holds.
 */
module Fates {
  import opened Wrappers
  import opened Ranges
  import opened StoreForward

  // ---------------------------------------------------------------- the fate of one message

  /** A message for d at a router with this id and table leaves the network after k more hops. */
  predicate Ends(base: seq<Router>, id: int, table: map<int, int>, d: int, k: nat)
    decreases k
  {
    if d == id then k == 0
    else
      var j := Find(base, Lookup(table, d));
      if j == |base| then k == 0 else k > 0 && Ends(base, base[j].id, base[j].table, d, k - 1)
  }

  /** It does so at its destination. */
  predicate Delivers(base: seq<Router>, id: int, table: map<int, int>, d: int, k: nat)
    decreases k
  {
    if d == id then k == 0
    else
      var j := Find(base, Lookup(table, d));
      j < |base| && k > 0 && Delivers(base, base[j].id, base[j].table, d, k - 1)
  }

  ghost predicate IsDelivered(base: seq<Router>, id: int, table: map<int, int>, d: int) {
    exists k: nat :: Delivers(base, id, table, d, k)
  }

  ghost predicate Leaves(base: seq<Router>, id: int, table: map<int, int>, d: int) {
    exists k: nat :: Ends(base, id, table, d, k)
  }

  /** Whether a message is delivered, found out by looking at most n hops ahead. */
  predicate DeliversWithin(base: seq<Router>, id: int, table: map<int, int>, d: int, n: nat)
    decreases n
  {
    d == id ||
    var j := Find(base, Lookup(table, d));
    j < |base| && n > 0 && DeliversWithin(base, base[j].id, base[j].table, d, n - 1)
  }

  /** Whether it leaves the network at all, found out in the same way. */
  predicate LeavesWithin(base: seq<Router>, id: int, table: map<int, int>, d: int, n: nat)
    decreases n
  {
    d == id ||
    var j := Find(base, Lookup(table, d));
    j == |base| || (n > 0 && LeavesWithin(base, base[j].id, base[j].table, d, n - 1))
  }

  lemma {:induction false} DeliveredLeaves(base: seq<Router>, id: int, table: map<int, int>, d: int, k: nat)
    requires Delivers(base, id, table, d, k)
    ensures Ends(base, id, table, d, k)
    decreases k
  {
    if d != id {
      var j := Find(base, Lookup(table, d));
      DeliveredLeaves(base, base[j].id, base[j].table, d, k - 1);
    }
  }

  /** The number of hops to the end is unique. */
  lemma {:induction false} EndsOnce(base: seq<Router>, id: int, table: map<int, int>, d: int, k: nat, l: nat)
    requires Ends(base, id, table, d, k) && Ends(base, id, table, d, l)
    ensures k == l
    decreases k
  {
    var j := Find(base, Lookup(table, d));
    if d != id && j < |base| {
      EndsOnce(base, base[j].id, base[j].table, d, k - 1, l - 1);
    }
  }

  /** A message is delivered or leaves exactly as it does one hop further on. */
  lemma OneHop(base: seq<Router>, id: int, table: map<int, int>, d: int)
    requires d != id
    ensures var j := Find(base, Lookup(table, d));
      if j == |base| then !IsDelivered(base, id, table, d) && Leaves(base, id, table, d)
      else
        && (IsDelivered(base, id, table, d) <==> IsDelivered(base, base[j].id, base[j].table, d))
        && (Leaves(base, id, table, d) <==> Leaves(base, base[j].id, base[j].table, d))
  {
    var j := Find(base, Lookup(table, d));
    if j == |base| {
      assert Ends(base, id, table, d, 0);
    } else {
      if k: nat :| Delivers(base, base[j].id, base[j].table, d, k) {
        assert Delivers(base, id, table, d, k + 1);
      }
      if k: nat :| Ends(base, base[j].id, base[j].table, d, k) {
        assert Ends(base, id, table, d, k + 1);
      }
      if k: nat :| Delivers(base, id, table, d, k) {
        assert Delivers(base, base[j].id, base[j].table, d, k - 1);
      }
      if k: nat :| Ends(base, id, table, d, k) {
        assert Ends(base, base[j].id, base[j].table, d, k - 1);
      }
    }
  }

  lemma AtHome(base: seq<Router>, id: int, table: map<int, int>)
    ensures IsDelivered(base, id, table, id) && Leaves(base, id, table, id)
  {
    assert Delivers(base, id, table, id, 0) && Ends(base, id, table, id, 0);
  }

  // ---------------------------------------------------------------- no need to look further than there are routers

  ghost predicate SlotEnds(base: seq<Router>, d: int, j: int, k: nat) {
    0 <= j < |base| && Ends(base, base[j].id, base[j].table, d, k)
  }

  /** The message passes slot j with fewer than k hops to go. */
  ghost predicate PassesSlot(base: seq<Router>, d: int, j: int, k: nat) {
    exists m: nat :: m < k && SlotEnds(base, d, j, m)
  }

  /** The slots a message passes on its way out are all different: their hops to go differ. */
  lemma {:induction false} SlotsPassed(base: seq<Router>, id: int, table: map<int, int>, d: int, k: nat)
    returns (passed: set<int>)
    requires Ends(base, id, table, d, k)
    ensures |passed| == k && forall j :: j in passed ==> PassesSlot(base, d, j, k)
    decreases k
  {
    if k == 0 {
      passed := {};
    } else {
      var j := Find(base, Lookup(table, d));
      var rest := SlotsPassed(base, base[j].id, base[j].table, d, k - 1);
      assert SlotEnds(base, d, j, k - 1);
      if PassesSlot(base, d, j, k - 1) {
        var m: nat :| m < k - 1 && SlotEnds(base, d, j, m);
        EndsOnce(base, base[j].id, base[j].table, d, m, k - 1);
      }
      passed := rest + {j};
      forall i | i in passed ensures PassesSlot(base, d, i, k) {
        if i != j {
          var m: nat :| m < k - 1 && SlotEnds(base, d, i, m);
          assert m < k;
        }
      }
    }
  }

  lemma EndsSoon(base: seq<Router>, id: int, table: map<int, int>, d: int, k: nat)
    requires Ends(base, id, table, d, k)
    ensures k <= |base|
  {
    var passed := SlotsPassed(base, id, table, d, k);
    forall j | j in passed ensures j in Range(|base|) {
      assert PassesSlot(base, d, j, k);
      InRange(|base|, j);
    }
    SizeInRange(passed, |base|);
  }

  lemma {:induction false} DeliveredWithin(base: seq<Router>, id: int, table: map<int, int>, d: int, k: nat, n: nat)
    requires Delivers(base, id, table, d, k) && k <= n
    ensures DeliversWithin(base, id, table, d, n)
    decreases k
  {
    if d != id {
      var j := Find(base, Lookup(table, d));
      DeliveredWithin(base, base[j].id, base[j].table, d, k - 1, n - 1);
    }
  }

  lemma {:induction false} WithinIsDelivered(base: seq<Router>, id: int, table: map<int, int>, d: int, n: nat)
    requires DeliversWithin(base, id, table, d, n)
    ensures IsDelivered(base, id, table, d)
    decreases n
  {
    if d == id {
      AtHome(base, id, table);
    } else {
      var j := Find(base, Lookup(table, d));
      WithinIsDelivered(base, base[j].id, base[j].table, d, n - 1);
      OneHop(base, id, table, d);
    }
  }

  lemma {:induction false} EndedWithin(base: seq<Router>, id: int, table: map<int, int>, d: int, k: nat, n: nat)
    requires Ends(base, id, table, d, k) && k <= n
    ensures LeavesWithin(base, id, table, d, n)
    decreases k
  {
    var j := Find(base, Lookup(table, d));
    if d != id && j < |base| {
      EndedWithin(base, base[j].id, base[j].table, d, k - 1, n - 1);
    }
  }

  lemma {:induction false} WithinLeaves(base: seq<Router>, id: int, table: map<int, int>, d: int, n: nat)
    requires LeavesWithin(base, id, table, d, n)
    ensures Leaves(base, id, table, d)
    decreases n
  {
    if d == id {
      AtHome(base, id, table);
    } else {
      var j := Find(base, Lookup(table, d));
      OneHop(base, id, table, d);
      if j < |base| {
        WithinLeaves(base, base[j].id, base[j].table, d, n - 1);
      }
    }
  }

  /** Looking as many hops ahead as there are routers decides the fate of a message. */
  lemma FateIsCheckable(base: seq<Router>, id: int, table: map<int, int>, d: int)
    ensures IsDelivered(base, id, table, d) <==> DeliversWithin(base, id, table, d, |base|)
    ensures Leaves(base, id, table, d) <==> LeavesWithin(base, id, table, d, |base|)
  {
    if k: nat :| Ends(base, id, table, d, k) {
      EndsSoon(base, id, table, d, k);
      EndedWithin(base, id, table, d, k, |base|);
    }
    if LeavesWithin(base, id, table, d, |base|) {
      WithinLeaves(base, id, table, d, |base|);
    }
    if k: nat :| Delivers(base, id, table, d, k) {
      DeliveredLeaves(base, id, table, d, k);
      EndsSoon(base, id, table, d, k);
      DeliveredWithin(base, id, table, d, k, |base|);
    }
    if DeliversWithin(base, id, table, d, |base|) {
      WithinIsDelivered(base, id, table, d, |base|);
    }
  }

  // ---------------------------------------------------------------- fates as weights

  /** Messages that will never be received. */
  ghost function Doomed(base: seq<Router>): Weights {
    Weights(
      (id, table, d) => if IsDelivered(base, id, table, d) then 0 else 1,
      (hop, d) =>
        var j := Find(base, hop);
        if j < |base| && IsDelivered(base, base[j].id, base[j].table, d) then 0 else 1)
  }

  /** Messages that will go round for ever. */
  ghost function Looping(base: seq<Router>): Weights {
    Weights(
      (id, table, d) => if Leaves(base, id, table, d) then 0 else 1,
      (hop, d) =>
        var j := Find(base, hop);
        if j < |base| && !Leaves(base, base[j].id, base[j].table, d) then 1 else 0)
  }

  /** How often a queued message will still be taken or sent before it leaves. */
  ghost function EffortLeft(base: seq<Router>, id: int, table: map<int, int>, d: int): nat {
    if Leaves(base, id, table, d) then
      var k: nat :| Ends(base, id, table, d, k);
      2 * k + if IsDelivered(base, id, table, d) then 1 else 2
    else 0
  }

  ghost function Effort(base: seq<Router>): Weights {
    Weights(
      (id, table, d) => EffortLeft(base, id, table, d),
      (hop, d) =>
        var j := Find(base, hop);
        if j == |base| then 1
        else if Leaves(base, base[j].id, base[j].table, d) then EffortLeft(base, base[j].id, base[j].table, d) + 1
        else 0)
  }

  lemma EffortIs(base: seq<Router>, id: int, table: map<int, int>, d: int, k: nat)
    requires Ends(base, id, table, d, k)
    ensures EffortLeft(base, id, table, d) == 2 * k + if IsDelivered(base, id, table, d) then 1 else 2
  {
    var l: nat :| Ends(base, id, table, d, l) && EffortLeft(base, id, table, d)
                  == 2 * l + if IsDelivered(base, id, table, d) then 1 else 2;
    EndsOnce(base, id, table, d, k, l);
  }

  /** Taking a message from a queue or sending it on costs exactly one; only looping ones cost nothing. */
  lemma EffortOfHop(base: seq<Router>, id: int, table: map<int, int>, d: int)
    requires d != id
    ensures EffortLeft(base, id, table, d) ==
              Effort(base).held(Lookup(table, d), d) + if Leaves(base, id, table, d) then 1 else 0
  {
    var j := Find(base, Lookup(table, d));
    OneHop(base, id, table, d);
    if j == |base| {
      EffortIs(base, id, table, d, 0);
    } else if k: nat :| Ends(base, base[j].id, base[j].table, d, k) {
      EffortIs(base, base[j].id, base[j].table, d, k);
      EffortIs(base, id, table, d, k + 1);
    }
  }

  lemma EffortAtHome(base: seq<Router>, id: int, table: map<int, int>)
    ensures EffortLeft(base, id, table, id) == 1
  {
    AtHome(base, id, table);
    EffortIs(base, id, table, id, 0);
  }

  // ---------------------------------------------------------------- what a tick does to the weights

  ghost predicate SameTables(a: seq<Router>, b: seq<Router>) {
    |a| == |b| && forall i :: 0 <= i < |a| ==> a[i].id == b[i].id && a[i].table == b[i].table
  }

  lemma {:induction false} SameFind(a: seq<Router>, b: seq<Router>, id: int)
    requires SameTables(a, b)
    ensures Find(a, id) == Find(b, id)
  {
    if a != [] {
      SameFind(a[1..], b[1..], id);
    }
  }

  lemma TickKeepsTables(base: seq<Router>, n: Net, i: nat, now: int)
    requires SameTables(base, n.routers) && i < |n.routers|
    ensures SameTables(base, SendHeld(n, i).routers) && SameTables(base, TickRouter(n, i, now).routers)
  {
  }

  ghost function Doom(base: seq<Router>, n: Net): nat {
    Total(n, Doomed(base)) + n.lost
  }

  lemma SendHeldFates(base: seq<Router>, n: Net, i: nat)
    requires SameTables(base, n.routers) && i < |n.routers|
    ensures Doom(base, SendHeld(n, i)) == Doom(base, n)
    ensures Total(SendHeld(n, i), Looping(base)) == Total(n, Looping(base))
    ensures Total(SendHeld(n, i), Effort(base)) <= Total(n, Effort(base))
    ensures Total(n, Looping(base)) == 0 && n.routers[i].held.Some? ==>
              Total(SendHeld(n, i), Effort(base)) < Total(n, Effort(base))
  {
    if n.routers[i].held.Some? {
      var (hop, d) := n.routers[i].held.value;
      SameFind(base, n.routers, hop);
      SendHeldTotal(n, i, Doomed(base));
      SendHeldTotal(n, i, Looping(base));
      SendHeldTotal(n, i, Effort(base));
      OneAtMostTotal(n, i, Looping(base));
    }
  }

  lemma TakeNextFates(base: seq<Router>, n: Net, i: nat, now: int)
    requires i < |n.routers| && n.routers[i].held == None
    ensures Doom(base, TakeNext(n, i, now)) == Doom(base, n)
    ensures Total(TakeNext(n, i, now), Looping(base)) == Total(n, Looping(base))
    ensures Total(TakeNext(n, i, now), Effort(base)) <= Total(n, Effort(base))
    ensures Total(n, Looping(base)) == 0 && n.routers[i].queue != [] ==>
              Total(TakeNext(n, i, now), Effort(base)) < Total(n, Effort(base))
  {
    var r := n.routers[i];
    if r.queue != [] {
      var d := r.queue[0];
      TakeNextTotal(n, i, now, Doomed(base));
      TakeNextTotal(n, i, now, Looping(base));
      TakeNextTotal(n, i, now, Effort(base));
      OneAtMostTotal(n, i, Looping(base));
      if d == r.id {
        AtHome(base, r.id, r.table);
        EffortAtHome(base, r.id, r.table);
      } else {
        OneHop(base, r.id, r.table, d);
        EffortOfHop(base, r.id, r.table, d);
      }
    }
  }

  /**
   * A tick dooms nobody and saves nobody; without looping messages a tick that has work and whose time
   * has come brings the end closer, and any other changes nothing.
   */
  lemma TickFates(base: seq<Router>, n: Net, i: nat, now: int)
    requires SameTables(base, n.routers) && i < |n.routers|
    ensures var n' := TickRouter(n, i, now);
      && SameTables(base, n'.routers) && Doom(base, n') == Doom(base, n)
      && Total(n', Looping(base)) == Total(n, Looping(base))
      && Total(n', Effort(base)) <= Total(n, Effort(base))
      && if HasWork(n.routers[i]) && now >= n.routers[i].lastSent
         then Total(n, Looping(base)) == 0 ==> Total(n', Effort(base)) < Total(n, Effort(base))
         else n' == n
  {
    TickKeepsTables(base, n, i, now);
    SendHeldFates(base, n, i);
    SendHeldReleases(n, i);
    TakeNextFates(base, SendHeld(n, i), i, now);
  }
}
