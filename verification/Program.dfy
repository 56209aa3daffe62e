/**
 * What the fates of its messages mean for the program of 05-topology: when its loop ends and what it has
 * received by then.
 */
module Program {
  import opened Wrappers
  import opened Sums
  import opened StoreForward
  import opened Fates

  /** n stands with the tables of base and has added, doomed and looping messages as given. */
  ghost predicate Course(base: seq<Router>, added: nat, doom: nat, looping: nat, n: Net) {
    && Conserved(n) && SameTables(base, n.routers) && n.added == added
    && Doom(base, n) == doom && Total(n, Looping(base)) == looping
  }

  lemma TickOnCourse(base: seq<Router>, added: nat, doom: nat, looping: nat, n: Net, i: nat, now: int)
    requires Course(base, added, doom, looping, n) && i < |n.routers|
    ensures Course(base, added, doom, looping, TickRouter(n, i, now))
  {
    TickFates(base, n, i, now);
    TickConserves(n, i, now);
  }

  lemma {:induction false} PassOnCourse(base: seq<Router>, added: nat, doom: nat, looping: nat, n: Net, i: nat,
                                        clock: nat -> int)
    requires Course(base, added, doom, looping, n) && i <= |n.routers|
    ensures Course(base, added, doom, looping, TickFrom(n, i, clock))
    ensures Total(TickFrom(n, i, clock), Effort(base)) <= Total(n, Effort(base))
    decreases |n.routers| - i
  {
    if i < |n.routers| {
      var next := TickRouter(n, i, clock(i));
      TickFates(base, n, i, clock(i));
      TickOnCourse(base, added, doom, looping, n, i, clock(i));
      PassOnCourse(base, added, doom, looping, next, i + 1, clock);
    }
  }

  lemma {:induction false} PassesOnCourse(base: seq<Router>, added: nat, doom: nat, looping: nat, n: Net,
                                          clocks: seq<nat -> int>)
    requires Course(base, added, doom, looping, n)
    ensures Course(base, added, doom, looping, Passes(n, clocks))
  {
    if clocks != [] {
      var m := |clocks| - 1;
      PassesOnCourse(base, added, doom, looping, n, clocks[..m]);
      PassOnCourse(base, added, doom, looping, Passes(n, clocks[..m]), 0, clocks[m]);
    }
  }

  /** In this pass some router with work is past its time, unless everything is finished. */
  ghost predicate Ready(n: Net, clock: nat -> int) {
    Finished(n) || exists j :: 0 <= j < |n.routers| && HasWork(n.routers[j]) && clock(j) >= n.routers[j].lastSent
  }

  lemma {:induction false} IdlePass(n: Net, i: nat, clock: nat -> int)
    requires Finished(n) && i <= |n.routers|
    ensures TickFrom(n, i, clock) == n
    decreases |n.routers| - i
  {
    if i < |n.routers| {
      IdlePass(n, i + 1, clock);
    }
  }

  /** Every tick keeps p and never raises m; a tick with work and time lowers it. */
  ghost predicate Descends(p: Net -> bool, m: Net -> nat) {
    forall n: Net, i: nat, now: int {:trigger TickRouter(n, i, now)} ::
      p(n) && i < |n.routers| ==>
        && p(TickRouter(n, i, now)) && m(TickRouter(n, i, now)) <= m(n)
        && (HasWork(n.routers[i]) && now >= n.routers[i].lastSent ==> m(TickRouter(n, i, now)) < m(n))
  }

  lemma {:induction false} PassDescends(p: Net -> bool, m: Net -> nat, n: Net, i: nat, clock: nat -> int)
    requires Descends(p, m) && p(n) && i <= |n.routers|
    ensures p(TickFrom(n, i, clock)) && m(TickFrom(n, i, clock)) <= m(n)
    decreases |n.routers| - i
  {
    if i < |n.routers| {
      PassDescends(p, m, TickRouter(n, i, clock(i)), i + 1, clock);
    }
  }

  /** One pass makes progress as soon as one router with work is past its time. */
  lemma {:induction false} PassProgresses(p: Net -> bool, m: Net -> nat, n: Net, i: nat, j: nat, clock: nat -> int)
    requires Descends(p, m) && p(n) && i <= j < |n.routers|
    requires HasWork(n.routers[j]) && clock(j) >= n.routers[j].lastSent
    ensures m(TickFrom(n, i, clock)) < m(n)
    decreases |n.routers| - i
  {
    var next := TickRouter(n, i, clock(i));
    if i == j {
      PassDescends(p, m, next, i + 1, clock);
    } else {
      OthersKeepWork(n, i, j, clock(i), next);
      PassProgresses(p, m, next, i + 1, j, clock);
    }
  }

  lemma ReadyPass(p: Net -> bool, m: Net -> nat, n: Net, clock: nat -> int)
    requires Descends(p, m) && p(n) && Ready(n, clock)
    ensures p(TickFrom(n, 0, clock))
    ensures Finished(TickFrom(n, 0, clock)) || m(TickFrom(n, 0, clock)) < m(n)
  {
    PassDescends(p, m, n, 0, clock);
    if Finished(n) {
      IdlePass(n, 0, clock);
    } else {
      var j :| 0 <= j < |n.routers| && HasWork(n.routers[j]) && clock(j) >= n.routers[j].lastSent;
      PassProgresses(p, m, n, 0, j, clock);
    }
  }

  lemma StaysFinished(n: Net, clock: nat -> int)
    requires Finished(n)
    ensures Finished(TickFrom(n, 0, clock))
  {
    IdlePass(n, 0, clock);
  }

  /** How many of these passes found some router with work past its time. */
  ghost function Unblocked(n: Net, clocks: seq<nat -> int>): nat {
    if clocks == [] then 0
    else
      var l := |clocks| - 1;
      Unblocked(n, clocks[..l]) + if Ready(Passes(n, clocks[..l]), clocks[l]) then 1 else 0
  }

  /** Whatever the other passes are, each unblocked one brings the end closer. */
  lemma {:induction false} UnblockedPasses(p: Net -> bool, m: Net -> nat, n: Net, clocks: seq<nat -> int>)
    requires Descends(p, m) && p(n)
    ensures p(Passes(n, clocks))
    ensures Finished(Passes(n, clocks)) || m(Passes(n, clocks)) + Unblocked(n, clocks) <= m(n)
  {
    if clocks != [] {
      var l := |clocks| - 1;
      var before := Passes(n, clocks[..l]);
      UnblockedPasses(p, m, n, clocks[..l]);
      PassDescends(p, m, before, 0, clocks[l]);
      if Finished(before) {
        StaysFinished(before, clocks[l]);
      } else if Ready(before, clocks[l]) {
        ReadyPass(p, m, before, clocks[l]);
      }
    }
  }

  ghost function CourseWithoutLoops(base: seq<Router>, added: nat, doom: nat): Net -> bool {
    (n: Net) => Course(base, added, doom, 0, n)
  }

  ghost function EffortIn(base: seq<Router>): Net -> nat {
    (n: Net) => Total(n, Effort(base))
  }

  /** Without looping messages every tick that does something lowers the effort left. */
  lemma EffortDescends(base: seq<Router>, added: nat, doom: nat)
    ensures Descends(CourseWithoutLoops(base, added, doom), EffortIn(base))
  {
    forall n: Net, i: nat, now: int | Course(base, added, doom, 0, n) && i < |n.routers|
      ensures Course(base, added, doom, 0, TickRouter(n, i, now))
      ensures Total(TickRouter(n, i, now), Effort(base)) <= Total(n, Effort(base))
      ensures HasWork(n.routers[i]) && now >= n.routers[i].lastSent ==>
                Total(TickRouter(n, i, now), Effort(base)) < Total(n, Effort(base)) {
      TickFates(base, n, i, now);
      TickOnCourse(base, added, doom, 0, n, i, now);
    }
  }

  // ---------------------------------------------------------------- what main may rely on

  /** Every doomed message is still on its way: received never counts one. */
  lemma {:induction false} DoomedAtMostPresent(base: seq<Router>, routers: seq<Router>)
    ensures Sum(routers, RouterWeight(Doomed(base))) <= Sum(routers, RouterWeight(Ones()))
  {
    forall i | 0 <= i < |routers| ensures RouterWeight(Doomed(base))(routers[i]) <= RouterWeight(Ones())(routers[i]) {
      var r := routers[i];
      SumAtMost(r.queue, QueueWeight(Doomed(base), r.id, r.table), QueueWeight(Ones(), r.id, r.table));
    }
    SumAtMost(routers, RouterWeight(Doomed(base)), RouterWeight(Ones()));
  }

  /**
   * Whatever the clocks say, when finished() holds exactly the doomed messages have been lost, so it
   * means that everything was received iff no message was doomed; and if one was, the number received
   * never reaches the number added, finished or not.
   */
  lemma FinishedMeansReceivedExactly(base: seq<Router>, n: Net, clocks: seq<nat -> int>)
    requires Conserved(n) && SameTables(base, n.routers)
    ensures var n', doom := Passes(n, clocks), Doom(base, n);
      && (Finished(n') ==> n'.lost == doom && n'.received == n.added - doom)
      && (Finished(n') ==> (n'.received == n'.added <==> doom == 0))
      && n'.received + doom <= n'.added == n.added
  {
    var n' := Passes(n, clocks);
    PassesOnCourse(base, n.added, Doom(base, n), Total(n, Looping(base)), n, clocks);
    DoomedAtMostPresent(base, n'.routers);
    if Finished(n') {
      IdleTotal(n'.routers, Doomed(base));
      IdleTotal(n'.routers, Ones());
    }
  }

  /**
   * The main loop ends iff no message goes round for ever: with one that does, finished() never holds;
   * without, it does as soon as more passes have been unblocked than the messages have effort left.
   */
  lemma MainLoopEndsExactly(base: seq<Router>, n: Net, clocks: seq<nat -> int>)
    requires Conserved(n) && SameTables(base, n.routers)
    ensures Total(n, Looping(base)) > 0 ==> !Finished(Passes(n, clocks))
    ensures Total(n, Looping(base)) == 0 && Unblocked(n, clocks) > Total(n, Effort(base)) ==>
              Finished(Passes(n, clocks))
  {
    var doom := Doom(base, n);
    PassesOnCourse(base, n.added, doom, Total(n, Looping(base)), n, clocks);
    if Finished(Passes(n, clocks)) {
      IdleTotal(Passes(n, clocks).routers, Looping(base));
    } else if Total(n, Looping(base)) == 0 {
      EffortDescends(base, n.added, doom);
      UnblockedPasses(CourseWithoutLoops(base, n.added, doom), EffortIn(base), n, clocks);
    }
  }

  /** What leaves because it is delivered does not go round for ever. */
  lemma {:induction false} LoopingAtMostDoomed(base: seq<Router>, routers: seq<Router>)
    ensures Sum(routers, RouterWeight(Looping(base))) <= Sum(routers, RouterWeight(Doomed(base)))
  {
    forall i | 0 <= i < |routers|
      ensures RouterWeight(Looping(base))(routers[i]) <= RouterWeight(Doomed(base))(routers[i]) {
      var r := routers[i];
      forall id, table, d ensures Looping(base).queued(id, table, d) <= Doomed(base).queued(id, table, d) {
        DeliveredIsNotLooping(base, id, table, d);
      }
      SumAtMost(r.queue, QueueWeight(Looping(base), r.id, r.table), QueueWeight(Doomed(base), r.id, r.table));
      if r.held.Some? {
        var j := Find(base, r.held.value.0);
        if j < |base| {
          DeliveredIsNotLooping(base, base[j].id, base[j].table, r.held.value.1);
        }
      }
    }
    SumAtMost(routers, RouterWeight(Looping(base)), RouterWeight(Doomed(base)));
  }

  lemma DeliveredIsNotLooping(base: seq<Router>, id: int, table: map<int, int>, d: int)
    ensures IsDelivered(base, id, table, d) ==> Leaves(base, id, table, d)
  {
    if k: nat :| Delivers(base, id, table, d, k) {
      DeliveredLeaves(base, id, table, d, k);
    }
  }

  /** With enough unblocked passes everything is received iff no message was doomed from the start. */
  lemma EverythingArrivesExactly(base: seq<Router>, n: Net, clocks: seq<nat -> int>)
    requires Conserved(n) && SameTables(base, n.routers) && Unblocked(n, clocks) > Total(n, Effort(base))
    ensures Passes(n, clocks).received == Passes(n, clocks).added <==> Doom(base, n) == 0
    ensures Doom(base, n) == 0 ==> Finished(Passes(n, clocks)) && Passes(n, clocks).received == n.added
  {
    FinishedMeansReceivedExactly(base, n, clocks);
    LoopingAtMostDoomed(base, n.routers);
    MainLoopEndsExactly(base, n, clocks);
  }

  /** A message that main adds will be delivered, or comes from nowhere and is ignored. */
  predicate Deliverable(routers: seq<Router>, message: (int, int)) {
    var j := Find(routers, message.0);
    j == |routers| || DeliversWithin(routers, routers[j].id, routers[j].table, message.1, |routers|)
  }

  /** A message that main adds will not go round for ever, or comes from nowhere. */
  predicate Leavable(routers: seq<Router>, message: (int, int)) {
    var j := Find(routers, message.0);
    j == |routers| || LeavesWithin(routers, routers[j].id, routers[j].table, message.1, |routers|)
  }

  lemma IdleDoom(routers: seq<Router>)
    requires forall i :: 0 <= i < |routers| ==> !HasWork(routers[i])
    ensures var n := Net(routers, 0, 0, 0);
      Conserved(n) && SameTables(routers, n.routers)
      && Total(n, Doomed(routers)) == 0 && Total(n, Looping(routers)) == 0
  {
    IdleTotal(routers, Doomed(routers));
    IdleTotal(routers, Looping(routers));
    IdleTotal(routers, Ones());
  }

  /** Adding a message from a known router adds to the doomed or looping ones exactly as the tables have it. */
  lemma AddFates(base: seq<Router>, n: Net, source: int, d: int)
    requires Conserved(n) && SameTables(base, n.routers)
    ensures var n' := AddMessage(n, source, d);
      && Conserved(n') && SameTables(base, n'.routers) && n'.lost == n.lost
      && Total(n', Doomed(base)) == Total(n, Doomed(base)) + (if Deliverable(base, (source, d)) then 0 else 1)
      && Total(n', Looping(base)) == Total(n, Looping(base)) + if Leavable(base, (source, d)) then 0 else 1
  {
    AddConserves(n, source, d);
    AddTotal(n, source, d, Doomed(base));
    AddTotal(n, source, d, Looping(base));
    SameFind(base, n.routers, source);
    var j := Find(base, source);
    if j < |base| {
      FateIsCheckable(base, base[j].id, base[j].table, d);
    }
  }

  ghost predicate AllDeliverable(routers: seq<Router>, messages: seq<(int, int)>) {
    forall i :: 0 <= i < |messages| ==> Deliverable(routers, messages[i])
  }

  ghost predicate AllLeavable(routers: seq<Router>, messages: seq<(int, int)>) {
    forall i :: 0 <= i < |messages| ==> Leavable(routers, messages[i])
  }

  lemma AllButLast(routers: seq<Router>, messages: seq<(int, int)>)
    requires messages != []
    ensures var k := |messages| - 1;
      && (AllDeliverable(routers, messages) <==>
            AllDeliverable(routers, messages[..k]) && Deliverable(routers, messages[k]))
      && (AllLeavable(routers, messages) <==> AllLeavable(routers, messages[..k]) && Leavable(routers, messages[k]))
  {
    var k := |messages| - 1;
    assert forall i :: 0 <= i < k ==> messages[..k][i] == messages[i];
  }

  lemma {:induction false} AddedFates(routers: seq<Router>, messages: seq<(int, int)>)
    requires forall i :: 0 <= i < |routers| ==> !HasWork(routers[i])
    ensures var n := AddAll(routers, messages);
      && Conserved(n) && SameTables(routers, n.routers) && n.lost == 0
      && (Total(n, Doomed(routers)) == 0 <==> AllDeliverable(routers, messages))
      && (Total(n, Looping(routers)) == 0 <==> AllLeavable(routers, messages))
  {
    if messages == [] {
      IdleDoom(routers);
    } else {
      var k := |messages| - 1;
      AddedFates(routers, messages[..k]);
      AddFates(routers, AddAll(routers, messages[..k]), messages[k].0, messages[k].1);
      AllButLast(routers, messages);
      assert (messages[k].0, messages[k].1) == messages[k];
    }
  }

  /**
   * The whole program: if main leaves its loop, every message it added has been received iff the tables
   * deliver each of them, which can be looked up before the start.
   */
  lemma ProgramReceivesAllExactly(routers: seq<Router>, messages: seq<(int, int)>, clocks: seq<nat -> int>)
    requires forall i :: 0 <= i < |routers| ==> !HasWork(routers[i])
    requires Finished(Passes(AddAll(routers, messages), clocks))
    ensures var n := Passes(AddAll(routers, messages), clocks);
      n.received == n.added <==> AllDeliverable(routers, messages)
  {
    var n := AddAll(routers, messages);
    AddedFates(routers, messages);
    FinishedMeansReceivedExactly(routers, n, clocks);
  }

  /** And it leaves its loop iff none of the messages goes round for ever, given enough unblocked passes. */
  lemma ProgramEndsExactly(routers: seq<Router>, messages: seq<(int, int)>, clocks: seq<nat -> int>)
    requires forall i :: 0 <= i < |routers| ==> !HasWork(routers[i])
    requires Unblocked(AddAll(routers, messages), clocks) > Total(AddAll(routers, messages), Effort(routers))
    ensures Finished(Passes(AddAll(routers, messages), clocks)) <==> AllLeavable(routers, messages)
  {
    AddedFates(routers, messages);
    MainLoopEndsExactly(routers, AddAll(routers, messages), clocks);
  }

  /** Without a table entry the next hop is router 0: if there is none, the program finishes all the same. */
  lemma MissingEntryLosesTheMessage()
    ensures var n := AddMessage(Net([Router(1, map[], map[], [], None, 0)], 0, 0, 0), 1, 2);
      var n' := TickRouter(TickRouter(n, 0, 0), 0, 0);
      n.added == 1 && Finished(n') && n'.received == 0 && n'.lost == 1
  {
    var r := Router(1, map[], map[], [], None, 0);
    var n := AddMessage(Net([r], 0, 0, 0), 1, 2);
    assert Find([r], 1) == 0 && r.queue + [2] == [2];
    assert n.routers == [r.(queue := [2])];
    var n1 := TickRouter(n, 0, 0);
    assert n.routers[0].queue[1..] == [];
    assert n1.routers == [r.(held := Some((0, 2)))];
    assert Find(n1.routers, 0) == 1;
  }
}
