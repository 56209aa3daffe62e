/**
 * How long the program of 05-topology takes at least: a message is held at every router for the delay of the link it
 * is to take, so it cannot be received before the delays of its way are over.
 */
module Holding {
  import opened Wrappers
  import opened StoreForward
  import opened Fates
  import opened Clocks

  // ---------------------------------------------------------------- one router

  /** A message taken at some time is not touched before the delay of its link has passed since. */
  lemma HeldForItsDelay(n: Net, i: nat, now: int, later: int)
    requires i < |n.routers|
    ensures var r := TickRouter(n, i, now).routers[i];
      r.held.Some? && r != n.routers[i]
      && later < now + (if r.held.value.0 in r.delays then r.delays[r.held.value.0] else 0)
      ==> TickRouter(TickRouter(n, i, now), i, later) == TickRouter(n, i, now)
  {
    TickExactly(n, i, now, i);
  }

  /** Other routers' ticks leave what a router holds, and since when, as it is. */
  lemma OthersLeaveHeld(n: Net, i: nat, now: int, j: nat)
    requires i < |n.routers| && j < |n.routers| && j != i
    ensures var r' := TickRouter(n, i, now).routers[j];
      r'.held == n.routers[j].held && r'.lastSent == n.routers[j].lastSent
  {
    TickExactly(n, i, now, j);
  }

  // ---------------------------------------------------------------- a message on its way

  /** No link that a message for d is sent over takes less than m. */
  ghost predicate DelaysFrom(base: seq<Router>, d: int, m: nat) {
    forall i :: 0 <= i < |base| && base[i].id != d ==> Lookup(base[i].delays, Lookup(base[i].table, d)) >= m
  }

  ghost predicate SameDelays(base: seq<Router>, routers: seq<Router>) {
    SameTables(base, routers) && forall i :: 0 <= i < |base| ==> routers[i].delays == base[i].delays
  }

  /** Router j has a message for d in its queue that is k hops from there, each of m, short of the time given. */
  ghost predicate WaitsAt(base: seq<Router>, n: Net, d: int, time: int, m: nat, clock: int, j: nat, k: nat) {
    && j < |n.routers| == |base| && d in n.routers[j].queue
    && Delivers(base, base[j].id, base[j].table, d, k) && time - k * m <= clock
  }

  /** Router j holds a message for d until the next router is k hops, each of m, short of the time given. */
  ghost predicate HeldAt(base: seq<Router>, n: Net, d: int, time: int, m: nat, j: nat, k: nat) {
    && j < |n.routers| == |base| && n.routers[j].held.Some? && n.routers[j].held.value.1 == d
    && var next := Find(base, n.routers[j].held.value.0);
      next < |base| && Delivers(base, base[next].id, base[next].table, d, k)
      && time - k * m <= n.routers[j].lastSent
  }

  /** Some message for d cannot be received before the time given, now that the clock has come so far. */
  ghost predicate OnItsWay(base: seq<Router>, n: Net, d: int, time: int, m: nat, clock: int) {
    || (exists j: nat, k: nat :: WaitsAt(base, n, d, time, m, clock, j, k))
    || (exists j: nat, k: nat :: HeldAt(base, n, d, time, m, j, k))
  }

  lemma Later(base: seq<Router>, n: Net, d: int, time: int, m: nat, clock: int, now: int)
    requires OnItsWay(base, n, d, time, m, clock) && clock <= now
    ensures OnItsWay(base, n, d, time, m, now)
  {
    if j: nat, k: nat :| WaitsAt(base, n, d, time, m, clock, j, k) {
      assert WaitsAt(base, n, d, time, m, now, j, k);
    }
  }

  /** What router i holds joins the next queue, its time past. */
  lemma SendOnItsWay(base: seq<Router>, n: Net, i: nat, d: int, time: int, m: nat, now: int)
    requires SameDelays(base, n.routers) && i < |n.routers| && n.routers[i].lastSent <= now
    requires OnItsWay(base, n, d, time, m, now)
    ensures OnItsWay(base, SendHeld(n, i), d, time, m, now) && SameDelays(base, SendHeld(n, i).routers)
  {
    var n' := SendHeld(n, i);
    forall j | 0 <= j < |n.routers| ensures n'.routers[j].delays == base[j].delays {
      SendExactly(n, i, j);
    }
    TickKeepsTables(base, n, i, now);
    if j: nat, k: nat :| WaitsAt(base, n, d, time, m, now, j, k) {
      SendExactly(n, i, j);
      assert WaitsAt(base, n', d, time, m, now, j, k);
    } else {
      var j: nat, k: nat :| HeldAt(base, n, d, time, m, j, k);
      SendExactly(n, i, j);
      if j == i {
        var hop := n.routers[i].held.value.0;
        SameFind(base, n.routers, hop);
        SendExactly(n, i, Find(base, hop));
        assert WaitsAt(base, n', d, time, m, now, Find(base, hop), k);
      } else {
        assert HeldAt(base, n', d, time, m, j, k);
      }
    }
  }

  lemma OneHopLess(time: int, k: nat, m: nat, now: int, delay: int)
    requires k > 0 && time - k * m <= now && delay >= m
    ensures time - (k - 1) * m <= now + delay
  {
    assert k * m == (k - 1) * m + m;
  }

  /** The next message is taken: it is not at its destination before the time given, and will be held long enough. */
  lemma TakeOnItsWay(base: seq<Router>, n: Net, i: nat, d: int, time: int, m: nat, now: int)
    requires SameDelays(base, n.routers) && i < |n.routers| && n.routers[i].held == None && now < time
    requires DelaysFrom(base, d, m) && OnItsWay(base, n, d, time, m, now)
    ensures OnItsWay(base, TakeNext(n, i, now), d, time, m, now)
  {
    var n', r := TakeNext(n, i, now), n.routers[i];
    if j: nat, k: nat :| HeldAt(base, n, d, time, m, j, k) {
      assert HeldAt(base, n', d, time, m, j, k);
    } else {
      var j: nat, k: nat :| WaitsAt(base, n, d, time, m, now, j, k);
      if j == i && r.queue[0] == d {
        TakenOnItsWay(base, n, i, d, time, m, now, k);
      } else {
        assert r.queue != [] && j == i ==> d in r.queue[1..];
        assert WaitsAt(base, n', d, time, m, now, j, k);
      }
    }
  }

  lemma TakenOnItsWay(base: seq<Router>, n: Net, i: nat, d: int, time: int, m: nat, now: int, k: nat)
    requires SameDelays(base, n.routers) && i < |n.routers| && n.routers[i].held == None && now < time
    requires DelaysFrom(base, d, m) && WaitsAt(base, n, d, time, m, now, i, k) && n.routers[i].queue[0] == d
    ensures HeldAt(base, TakeNext(n, i, now), d, time, m, i, k - 1)
  {
    var hop := Lookup(base[i].table, d);
    assert k > 0 && base[i].id != d && Lookup(base[i].delays, hop) >= m;
    assert base[i].id == n.routers[i].id && base[i].table == n.routers[i].table;
    OneHopLess(time, k, m, now, Lookup(base[i].delays, hop));
  }

  lemma TickOnItsWay(base: seq<Router>, n: Net, i: nat, d: int, time: int, m: nat, now: int)
    requires SameDelays(base, n.routers) && i < |n.routers| && now < time
    requires DelaysFrom(base, d, m) && OnItsWay(base, n, d, time, m, now)
    ensures var n' := TickRouter(n, i, now); OnItsWay(base, n', d, time, m, now) && SameDelays(base, n'.routers)
  {
    if HasWork(n.routers[i]) && now >= n.routers[i].lastSent {
      SendOnItsWay(base, n, i, d, time, m, now);
      SendHeldReleases(n, i);
      TakeOnItsWay(base, SendHeld(n, i), i, d, time, m, now);
      TakeKeepsDelays(base, SendHeld(n, i), i, now);
    }
  }

  lemma TakeKeepsDelays(base: seq<Router>, n: Net, i: nat, now: int)
    requires SameDelays(base, n.routers) && i < |n.routers|
    ensures SameDelays(base, TakeNext(n, i, now).routers)
  {
  }

  // ---------------------------------------------------------------- passes with a clock that never goes back

  /** Readings of a pass never go back, and all lie before the end. */
  ghost predicate Climbs(clock: nat -> int, count: nat, end: int) {
    forall i: nat, j: nat :: i <= j < count ==> clock(i) <= clock(j) < end
  }

  function LastReading(clock: nat -> int, i: nat, count: nat, before: int): int {
    if i < count then clock(count - 1) else before
  }

  lemma StepOnItsWay(base: seq<Router>, n: Net, next: Net, i: nat, d: int, time: int, m: nat, now: int, reading: int)
    requires SameDelays(base, n.routers) && i < |n.routers| && now <= reading < time
    requires DelaysFrom(base, d, m) && OnItsWay(base, n, d, time, m, now) && next == TickRouter(n, i, reading)
    ensures OnItsWay(base, next, d, time, m, reading) && SameDelays(base, next.routers)
  {
    Later(base, n, d, time, m, now, reading);
    TickOnItsWay(base, n, i, d, time, m, reading);
  }

  /** Ticks before the end carry p on from one clock reading to a later one. */
  ghost predicate CarriedOn(p: (Net, int) -> bool, end: int) {
    forall n: Net, i: nat, now: int, reading: int {:trigger p(n, now), TickRouter(n, i, reading)} ::
      p(n, now) && i < |n.routers| && now <= reading < end ==> p(TickRouter(n, i, reading), reading)
  }

  lemma {:induction false} PassCarriesOn(p: (Net, int) -> bool, n: Net, i: nat, clock: nat -> int, end: int, now: int)
    requires CarriedOn(p, end) && p(n, now) && i <= |n.routers| && Climbs(clock, |n.routers|, end)
    requires i < |n.routers| ==> now <= clock(i)
    ensures p(TickFrom(n, i, clock), LastReading(clock, i, |n.routers|, now))
    decreases |n.routers| - i
  {
    if i < |n.routers| {
      PassCarriesOn(p, TickRouter(n, i, clock(i)), i + 1, clock, end, clock(i));
    }
  }

  lemma PassOnItsWay(base: seq<Router>, n: Net, clock: nat -> int, d: int, time: int, m: nat, now: int)
    requires SameDelays(base, n.routers) && Climbs(clock, |n.routers|, time)
    requires DelaysFrom(base, d, m) && OnItsWay(base, n, d, time, m, now)
    requires 0 < |n.routers| ==> now <= clock(0)
    ensures var n' := TickFrom(n, 0, clock);
      OnItsWay(base, n', d, time, m, LastReading(clock, 0, |n.routers|, now)) && SameDelays(base, n'.routers)
  {
    var p := (n: Net, now: int) => OnItsWay(base, n, d, time, m, now) && SameDelays(base, n.routers);
    forall v: Net, i: nat, before: int, reading: int {:trigger p(v, before), TickRouter(v, i, reading)} |
      p(v, before) && i < |v.routers| && before <= reading < time
      ensures p(TickRouter(v, i, reading), reading) {
      StepOnItsWay(base, v, TickRouter(v, i, reading), i, d, time, m, before, reading);
    }
    PassCarriesOn(p, n, 0, clock, time, now);
  }

  /** The readings of this pass climb, begin where those of the pass before ended, and lie before the end. */
  ghost predicate FollowsOn(clocks: seq<nat -> int>, k: nat, count: nat, start: int, end: int)
    requires k < |clocks|
  {
    count > 0 ==> Climbs(clocks[k], count, end) && clocks[k](0) >= LastOf(clocks[..k], count, start)
  }

  ghost predicate RunsForward(clocks: seq<nat -> int>, count: nat, start: int, end: int) {
    forall k: nat :: k < |clocks| ==> FollowsOn(clocks, k, count, start, end)
  }

  lemma ForwardFront(clocks: seq<nat -> int>, count: nat, start: int, end: int)
    requires clocks != [] && RunsForward(clocks, count, start, end)
    ensures RunsForward(clocks[..|clocks| - 1], count, start, end)
  {
    var front := clocks[..|clocks| - 1];
    forall k: nat | k < |front| ensures FollowsOn(front, k, count, start, end) {
      assert front[..k] == clocks[..k] && front[k] == clocks[k] && FollowsOn(clocks, k, count, start, end);
    }
  }

  /** The last reading of the last pass. */
  function LastOf(clocks: seq<nat -> int>, count: nat, start: int): int {
    if clocks == [] || count == 0 then start else clocks[|clocks| - 1](count - 1)
  }

  lemma {:induction false} PassesOnItsWay(base: seq<Router>, n: Net, clocks: seq<nat -> int>, d: int, time: int, m: nat,
                                          start: int)
    requires SameDelays(base, n.routers) && RunsForward(clocks, |n.routers|, start, time)
    requires DelaysFrom(base, d, m) && OnItsWay(base, n, d, time, m, start)
    ensures var n' := Passes(n, clocks);
      OnItsWay(base, n', d, time, m, LastOf(clocks, |n.routers|, start)) && SameDelays(base, n'.routers)
  {
    if clocks != [] && |n.routers| > 0 {
      var l := |clocks| - 1;
      var front := clocks[..l];
      ForwardFront(clocks, |n.routers|, start, time);
      PassesOnItsWay(base, n, front, d, time, m, start);
      assert FollowsOn(clocks, l, |n.routers|, start, time);
      PassOnItsWay(base, Passes(n, front), clocks[l], d, time, m, LastOf(front, |n.routers|, start));
    } else {
      PassesOfNobody(n, clocks);
    }
  }

  lemma {:induction false} PassesOfNobody(n: Net, clocks: seq<nat -> int>)
    requires clocks == [] || n.routers == []
    ensures Passes(n, clocks) == n
  {
    if clocks != [] {
      PassesOfNobody(n, clocks[..|clocks| - 1]);
    }
  }

  // ---------------------------------------------------------------- the whole program

  lemma AddKeepsDelays(base: seq<Router>, n: Net, source: int, destination: int)
    requires SameDelays(base, n.routers)
    ensures SameDelays(base, AddMessage(n, source, destination).routers)
  {
    forall j | 0 <= j < |base|
      ensures var r' := AddMessage(n, source, destination).routers[j];
        r'.id == base[j].id && r'.table == base[j].table && r'.delays == base[j].delays {
      AddExactly(n, source, destination, j);
    }
  }

  lemma {:induction false} AddedIsQueued(routers: seq<Router>, messages: seq<(int, int)>, j: nat, d: int)
    requires j < |routers|
    ensures SameDelays(routers, AddAll(routers, messages).routers)
    ensures (exists i :: 0 <= i < |messages| && Find(routers, messages[i].0) == j && messages[i].1 == d) ==>
              d in AddAll(routers, messages).routers[j].queue
  {
    if messages != [] {
      var l := |messages| - 1;
      var before := AddAll(routers, messages[..l]);
      AddedIsQueued(routers, messages[..l], j, d);
      AddKeepsDelays(routers, before, messages[l].0, messages[l].1);
      SameFind(routers, before.routers, messages[l].0);
      AddExactly(before, messages[l].0, messages[l].1, j);
      if i :| 0 <= i < l && Find(routers, messages[i].0) == j && messages[i].1 == d {
        assert messages[..l][i] == messages[i];
      }
    }
  }

  /** A message for d is queued or held somewhere. */
  ghost predicate UnderWay(n: Net, d: int) {
    || (exists j :: 0 <= j < |n.routers| && d in n.routers[j].queue)
    || (exists j :: 0 <= j < |n.routers| && n.routers[j].held.Some? && n.routers[j].held.value.1 == d)
  }

  /**
   * The program takes its time: while no clock reading is as late as the delays of the links on a message's way, each
   * at least m, have come to since the start, a message for its destination is under way - the message itself, if no
   * other goes there - and the program is not finished.
   */
  lemma ProgramTakesItsTime(routers: seq<Router>, messages: seq<(int, int)>, i: nat, clocks: seq<nat -> int>,
                            start: int, m: nat, k: nat)
    requires i < |messages| && Find(routers, messages[i].0) < |routers|
    requires var r := routers[Find(routers, messages[i].0)]; Delivers(routers, r.id, r.table, messages[i].1, k)
    requires DelaysFrom(routers, messages[i].1, m) && RunsForward(clocks, |routers|, start, start + k * m)
    ensures var n := Passes(AddAll(routers, messages), clocks); UnderWay(n, messages[i].1) && !Finished(n)
  {
    var n, d, j := AddAll(routers, messages), messages[i].1, Find(routers, messages[i].0);
    AddedIsQueued(routers, messages, j, d);
    assert WaitsAt(routers, n, d, start + k * m, m, start, j, k);
    PassesOnItsWay(routers, n, clocks, d, start + k * m, m, start);
    NotFinished(routers, Passes(n, clocks), d, start + k * m, m, LastOf(clocks, |routers|, start));
  }

  lemma NotFinished(base: seq<Router>, n: Net, d: int, time: int, m: nat, clock: int)
    requires OnItsWay(base, n, d, time, m, clock)
    ensures UnderWay(n, d) && !Finished(n)
  {
    if j: nat, k: nat :| WaitsAt(base, n, d, time, m, clock, j, k) {
      assert d in n.routers[j].queue && HasWork(n.routers[j]);
    } else {
      var j: nat, k: nat :| HeldAt(base, n, d, time, m, j, k);
      assert n.routers[j].held.value.1 == d && HasWork(n.routers[j]);
    }
  }

  lemma MainDelays(routers: seq<Router>, t1: int, t2: int, t3: int)
    requires routers == MainRouters(t1, t2, t3)
    ensures Find(routers, 1) == 0 && Delivers(routers, 1, routers[0].table, 3, 2) && DelaysFrom(routers, 3, 1000)
  {
    MainFinds(routers, t1, t2, t3);
    assert Delivers(routers, 3, routers[2].table, 3, 0);
    assert Delivers(routers, 2, routers[1].table, 3, 1);
  }

  /** main's message from 1 to 3 is under way until two seconds have passed, whatever the loop does. */
  lemma MainTakesTwoSeconds(t1: int, t2: int, t3: int, clocks: seq<nat -> int>, start: int)
    requires RunsForward(clocks, 3, start, start + 2000)
    ensures var n := Passes(AddAll(MainRouters(t1, t2, t3), [(3, 1), (1, 3)]), clocks); UnderWay(n, 3) && !Finished(n)
  {
    var routers, messages := MainRouters(t1, t2, t3), [(3, 1), (1, 3)];
    MainDelays(routers, t1, t2, t3);
    assert messages[1] == (1, 3);
    ProgramTakesItsTime(routers, messages, 1, clocks, start, 1000, 2);
  }
}
