/**
 * How long the program of 05-topology takes. Its loop spins, so most passes find every router with work still
 * waiting out the delay of a link; but the clock goes on, and no wait is longer than that delay and a pass.
 */
module Clocks {
  import opened Wrappers
  import opened StoreForward
  import opened Fates
  import opened Program

  /** The first reading of the pass before number k, or of the first. */
  function Before(clocks: seq<nat -> int>, k: nat): int
    requires k < |clocks|
  {
    if k == 0 then clocks[0](0) else clocks[k - 1](0)
  }

  /** No reading of a pass is before its first, or more than f ms after the first of the pass before. */
  ghost predicate Spaced(clocks: seq<nat -> int>, count: nat, f: nat) {
    forall k: nat, i: nat :: k < |clocks| && i < count ==>
      clocks[k](0) <= clocks[k](i) <= Before(clocks, k) + f
  }

  /** No link takes longer than d. */
  ghost predicate DelaysWithin(n: Net, d: nat) {
    forall i, hop {:trigger Lookup(n.routers[i].delays, hop)} ::
      0 <= i < |n.routers| ==> Lookup(n.routers[i].delays, hop) <= d
  }

  /** Every router may send again at the given time. */
  ghost predicate FreeBy(n: Net, time: int) {
    forall i :: 0 <= i < |n.routers| ==> n.routers[i].lastSent <= time
  }

  // ---------------------------------------------------------------- one pass

  lemma TickFree(n: Net, i: nat, now: int, d: nat, time: int)
    requires i < |n.routers| && DelaysWithin(n, d) && FreeBy(n, time) && now + d <= time
    ensures DelaysWithin(TickRouter(n, i, now), d) && FreeBy(TickRouter(n, i, now), time)
  {
    SendFree(n, i, d, time);
    TakeFree(SendHeld(n, i), i, now, d, time);
  }

  lemma SendFree(n: Net, i: nat, d: nat, time: int)
    requires i < |n.routers| && DelaysWithin(n, d) && FreeBy(n, time)
    ensures DelaysWithin(SendHeld(n, i), d) && FreeBy(SendHeld(n, i), time)
  {
    var n' := SendHeld(n, i);
    assert forall j :: 0 <= j < |n.routers| ==>
        n'.routers[j].delays == n.routers[j].delays && n'.routers[j].lastSent == n.routers[j].lastSent;
  }

  lemma TakeFree(n: Net, i: nat, now: int, d: nat, time: int)
    requires i < |n.routers| && DelaysWithin(n, d) && FreeBy(n, time) && now + d <= time
    ensures DelaysWithin(TakeNext(n, i, now), d) && FreeBy(TakeNext(n, i, now), time)
  {
    var n' := TakeNext(n, i, now);
    assert forall j :: 0 <= j < |n.routers| ==> n'.routers[j].delays == n.routers[j].delays;
    if n.routers[i].queue != [] {
      assert Lookup(n.routers[i].delays, Lookup(n.routers[i].table, n.routers[i].queue[0])) <= d;
    }
  }

  lemma {:induction false} PassFree(n: Net, i: nat, clock: nat -> int, d: nat, time: int)
    requires i <= |n.routers| && DelaysWithin(n, d) && FreeBy(n, time)
    requires forall j: nat :: j < |n.routers| ==> clock(j) + d <= time
    ensures DelaysWithin(TickFrom(n, i, clock), d) && FreeBy(TickFrom(n, i, clock), time)
    decreases |n.routers| - i
  {
    if i < |n.routers| {
      TickFree(n, i, clock(i), d, time);
      PassFree(TickRouter(n, i, clock(i)), i + 1, clock, d, time);
    }
  }

  /** A pass in which every router with work still has to wait changes nothing. */
  lemma {:induction false} BlockedPass(n: Net, i: nat, clock: nat -> int)
    requires i <= |n.routers|
    requires forall j :: i <= j < |n.routers| && HasWork(n.routers[j]) ==> clock(j) < n.routers[j].lastSent
    ensures TickFrom(n, i, clock) == n
    decreases |n.routers| - i
  {
    if i < |n.routers| {
      BlockedPass(n, i + 1, clock);
    }
  }

  // ---------------------------------------------------------------- all passes

  /** By when as much has been done as leaves the given effort, a wait and a pass for each piece of it. */
  function Deadline(start: int, effort: nat, left: nat, d: nat, f: nat): int {
    start + (effort - left) * (d + f)
  }

  lemma DeadlineMoves(start: int, effort: nat, left: nat, less: nat, d: nat, f: nat)
    requires less < left
    ensures Deadline(start, effort, left, d, f) + d + f <= Deadline(start, effort, less, d, f)
  {
    var a, b := effort - left, effort - less;
    assert a * (d + f) + (d + f) == (a + 1) * (d + f);
    assert (a + 1) * (d + f) <= b * (d + f);
  }

  /** The clock, and what routers wait for, are within what the effort done so far allows. */
  ghost predicate InTime(n: Net, clocks: seq<nat -> int>, deadline: int, d: nat) {
    && DelaysWithin(n, d) && FreeBy(n, deadline)
    && (clocks != [] ==> clocks[|clocks| - 1](0) <= deadline)
  }

  lemma SpacedFront(clocks: seq<nat -> int>, count: nat, f: nat)
    requires clocks != [] && Spaced(clocks, count, f)
    ensures Spaced(clocks[..|clocks| - 1], count, f)
  {
    var front := clocks[..|clocks| - 1];
    forall k: nat, i: nat | k < |front| && i < count
      ensures front[k](0) <= front[k](i) <= Before(front, k) + f {
      assert front[k] == clocks[k] && Before(front, k) == Before(clocks, k);
    }
  }

  /** One more pass either lowers the effort left, or was blocked, and began before some wait was over. */
  lemma OneMorePass(p: Net -> bool, m: Net -> nat, n: Net, clocks: seq<nat -> int>, start: int, effort: nat, d: nat,
                    f: nat)
    requires Descends(p, m) && p(n) && clocks != [] && Spaced(clocks, |n.routers|, f) && !Finished(n)
    requires InTime(n, clocks[..|clocks| - 1], Deadline(start, effort, m(n), d, f), d)
    requires |clocks| == 1 ==> clocks[0](0) <= Deadline(start, effort, m(n), d, f)
    ensures var n' := TickFrom(n, 0, clocks[|clocks| - 1]);
      Finished(n') || InTime(n', clocks, Deadline(start, effort, m(n'), d, f), d)
  {
    var k := |clocks| - 1;
    var clock, deadline := clocks[k], Deadline(start, effort, m(n), d, f);
    assert forall i: nat :: i < |n.routers| ==> clock(0) <= clock(i) <= Before(clocks, k) + f;
    assert Before(clocks, k) <= deadline;
    if Ready(n, clock) {
      ReadyPass(p, m, n, clock);
      var n' := TickFrom(n, 0, clock);
      if !Finished(n') {
        DeadlineMoves(start, effort, m(n), m(n'), d, f);
        PassFree(n, 0, clock, d, Deadline(start, effort, m(n'), d, f));
      }
    } else {
      BlockedPass(n, 0, clock);
      var j :| 0 <= j < |n.routers| && HasWork(n.routers[j]);
      assert clock(0) <= clock(j) < n.routers[j].lastSent;
    }
  }

  lemma {:induction false} PassesInTime(p: Net -> bool, m: Net -> nat, n: Net, clocks: seq<nat -> int>, start: int,
                                        d: nat, f: nat)
    requires Descends(p, m) && p(n) && Spaced(clocks, |n.routers|, f)
    requires DelaysWithin(n, d) && FreeBy(n, start) && (clocks != [] ==> clocks[0](0) == start)
    ensures var n' := Passes(n, clocks);
      p(n') && (Finished(n') || InTime(n', clocks, Deadline(start, m(n), m(n'), d, f), d))
  {
    if clocks != [] {
      var l := |clocks| - 1;
      var before := Passes(n, clocks[..l]);
      SpacedFront(clocks, |n.routers|, f);
      PassesInTime(p, m, n, clocks[..l], start, d, f);
      PassDescends(p, m, before, 0, clocks[l]);
      if Finished(before) {
        StaysFinished(before, clocks[l]);
      } else {
        OneMorePass(p, m, before, clocks, start, m(n), d, f);
      }
    }
  }

  // ---------------------------------------------------------------- the whole program

  lemma EffortAtMost(base: seq<Router>, id: int, table: map<int, int>, d: int)
    ensures EffortLeft(base, id, table, d) <= 2 * |base| + 2
  {
    if k: nat :| Ends(base, id, table, d, k) {
      EndsSoon(base, id, table, d, k);
      EffortIs(base, id, table, d, k);
    }
  }

  /** Adding a message changes no table, delay or clock, and brings at most its longest way. */
  lemma AddInTime(base: seq<Router>, n: Net, source: int, destination: int, d: nat, time: int)
    requires DelaysWithin(n, d) && FreeBy(n, time)
    ensures var n' := AddMessage(n, source, destination);
      && DelaysWithin(n', d) && FreeBy(n', time) && |n'.routers| == |n.routers|
      && Total(n', Effort(base)) <= Total(n, Effort(base)) + 2 * |base| + 2
  {
    var n' := AddMessage(n, source, destination);
    assert forall j :: 0 <= j < |n.routers| ==>
        n'.routers[j].delays == n.routers[j].delays && n'.routers[j].lastSent == n.routers[j].lastSent;
    AddTotal(n, source, destination, Effort(base));
    var j := Find(n.routers, source);
    if j < |n.routers| {
      EffortAtMost(base, n.routers[j].id, n.routers[j].table, destination);
    }
  }

  /** What the messages can cost together, in the longest ways that there are. */
  function Moves(routers: nat, messages: nat): nat {
    messages * (2 * routers + 2)
  }

  lemma OneMoreMessage(routers: nat, messages: nat)
    ensures Moves(routers, messages) + 2 * routers + 2 == Moves(routers, messages + 1)
  {
  }

  lemma {:induction false} AddedInTime(routers: seq<Router>, messages: seq<(int, int)>, d: nat, time: int)
    requires forall i :: 0 <= i < |routers| ==> !HasWork(routers[i])
    requires DelaysWithin(Net(routers, 0, 0, 0), d) && FreeBy(Net(routers, 0, 0, 0), time)
    ensures var n := AddAll(routers, messages);
      && DelaysWithin(n, d) && FreeBy(n, time) && |n.routers| == |routers|
      && Total(n, Effort(routers)) <= Moves(|routers|, |messages|)
  {
    if messages == [] {
      IdleTotal(routers, Effort(routers));
    } else {
      var k := |messages| - 1;
      AddedInTime(routers, messages[..k], d, time);
      AddInTime(routers, AddAll(routers, messages[..k]), messages[k].0, messages[k].1, d, time);
      assert (messages[k].0, messages[k].1) == messages[k];
      OneMoreMessage(|routers|, k);
    }
  }

  /** Past the deadline for all the effort there was, nothing is left to do. */
  lemma LatePasses(p: Net -> bool, m: Net -> nat, n: Net, clocks: seq<nat -> int>, d: nat, f: nat)
    requires Descends(p, m) && p(n) && DelaysWithin(n, d) && clocks != [] && FreeBy(n, clocks[0](0))
    requires Spaced(clocks, |n.routers|, f) && clocks[|clocks| - 1](0) > clocks[0](0) + m(n) * (d + f)
    ensures Finished(Passes(n, clocks))
  {
    PassesInTime(p, m, n, clocks, clocks[0](0), d, f);
    LessIsEarlier(m(n), m(Passes(n, clocks)), d + f);
  }

  lemma LateMeansFinished(base: seq<Router>, n: Net, clocks: seq<nat -> int>, d: nat, f: nat)
    requires Conserved(n) && SameTables(base, n.routers) && Total(n, Looping(base)) == 0
    requires DelaysWithin(n, d) && clocks != [] && FreeBy(n, clocks[0](0)) && Spaced(clocks, |n.routers|, f)
    requires clocks[|clocks| - 1](0) > clocks[0](0) + Total(n, Effort(base)) * (d + f)
    ensures Finished(Passes(n, clocks))
  {
    EffortDescends(base, n.added, Doom(base, n));
    LatePasses(CourseWithoutLoops(base, n.added, Doom(base, n)), EffortIn(base), n, clocks, d, f);
  }

  lemma LessIsEarlier(effort: nat, left: nat, beat: nat)
    ensures (effort - left) * beat <= effort * beat
  {
    assert effort * beat == (effort - left) * beat + left * beat;
  }

  lemma Within(effort: nat, most: nat, beat: nat)
    requires effort <= most
    ensures effort * beat <= most * beat
  {
  }

  /**
   * The program leaves its loop in time, however fast that spins: links take at most d ms, passes come at most
   * f ms after one another, and routers are free at the start. Once the clock has gone on for d + f ms for every
   * move that the messages can make, finished() holds iff no message goes round for ever; and if the tables deliver
   * them all, all have been received.
   */
  lemma ProgramEndsInTime(routers: seq<Router>, messages: seq<(int, int)>, clocks: seq<nat -> int>, d: nat, f: nat)
    requires forall i :: 0 <= i < |routers| ==> !HasWork(routers[i])
    requires clocks != [] && Spaced(clocks, |routers|, f)
    requires DelaysWithin(Net(routers, 0, 0, 0), d) && FreeBy(Net(routers, 0, 0, 0), clocks[0](0))
    requires clocks[|clocks| - 1](0) > clocks[0](0) + Moves(|routers|, |messages|) * (d + f)
    ensures var n := Passes(AddAll(routers, messages), clocks);
      && (Finished(n) <==> AllLeavable(routers, messages))
      && (n.received == n.added <==> AllDeliverable(routers, messages))
      && (AllDeliverable(routers, messages) ==> Finished(n))
  {
    var n := AddAll(routers, messages);
    AddedFates(routers, messages);
    AddedInTime(routers, messages, d, clocks[0](0));
    Within(Total(n, Effort(routers)), Moves(|routers|, |messages|), d + f);
    LoopingAtMostDoomed(routers, n.routers);
    MainLoopEndsExactly(routers, n, clocks);
    FinishedMeansReceivedExactly(routers, n, clocks);
    if Total(n, Looping(routers)) == 0 {
      LateMeansFinished(routers, n, clocks, d, f);
    }
  }

  /** The three routers of main, built at the given times. */
  function MainRouters(t1: int, t2: int, t3: int): seq<Router> {
    [Router(1, map[2 := 2, 3 := 2], map[2 := 1000], [], None, t1),
     Router(2, map[1 := 1, 3 := 3], map[1 := 1000, 3 := 1000], [], None, t2),
     Router(3, map[1 := 2, 2 := 2], map[2 := 1000], [], None, t3)]
  }

  lemma MainFinds(routers: seq<Router>, t1: int, t2: int, t3: int)
    requires routers == MainRouters(t1, t2, t3)
    ensures Find(routers, 1) == 0 && Find(routers, 2) == 1 && Find(routers, 3) == 2
  {
    assert routers[0].id == 1 && routers[1].id == 2 && routers[2].id == 3;
  }

  /** From 1 to 3 it is two hops, over 2, and so it is back. */
  lemma MainDelivers(routers: seq<Router>, t1: int, t2: int, t3: int)
    requires routers == MainRouters(t1, t2, t3)
    ensures Deliverable(routers, (3, 1)) && Deliverable(routers, (1, 3))
  {
    MainFinds(routers, t1, t2, t3);
    assert DeliversWithin(routers, 1, routers[0].table, 1, 1) && DeliversWithin(routers, 3, routers[2].table, 3, 1);
    assert DeliversWithin(routers, 2, routers[1].table, 1, 2) && DeliversWithin(routers, 2, routers[1].table, 3, 2);
    assert DeliversWithin(routers, 3, routers[2].table, 1, 3) && DeliversWithin(routers, 1, routers[0].table, 3, 3);
  }

  lemma MainIsFit(routers: seq<Router>, t1: int, t2: int, t3: int, time: int)
    requires routers == MainRouters(t1, t2, t3) && t1 <= time && t2 <= time && t3 <= time
    ensures forall i :: 0 <= i < |routers| ==> !HasWork(routers[i])
    ensures DelaysWithin(Net(routers, 0, 0, 0), 1000) && FreeBy(Net(routers, 0, 0, 0), time)
  {
  }

  lemma MainMoves()
    ensures Moves(3, 2) == 16
  {
  }

  lemma MainAddsBoth(routers: seq<Router>, messages: seq<(int, int)>, t1: int, t2: int, t3: int)
    requires routers == MainRouters(t1, t2, t3) && messages == [(3, 1), (1, 3)]
    ensures AllDeliverable(routers, messages)
  {
    MainDelivers(routers, t1, t2, t3);
  }

  /** main itself: however fast it spins, its two messages are received 16 seconds and 16 passes after the start. */
  lemma MainReceivesBoth(t1: int, t2: int, t3: int, clocks: seq<nat -> int>, f: nat)
    requires clocks != [] && Spaced(clocks, 3, f)
    requires t1 <= clocks[0](0) && t2 <= clocks[0](0) && t3 <= clocks[0](0)
    requires clocks[|clocks| - 1](0) > clocks[0](0) + 16 * (1000 + f)
    ensures var n := Passes(AddAll(MainRouters(t1, t2, t3), [(3, 1), (1, 3)]), clocks);
      Finished(n) && n.received == n.added
  {
    var routers, messages := MainRouters(t1, t2, t3), [(3, 1), (1, 3)];
    MainIsFit(routers, t1, t2, t3, clocks[0](0));
    MainAddsBoth(routers, messages, t1, t2, t3);
    MainMoves();
    ProgramEndsInTime(routers, messages, clocks, 1000, f);
  }
}
