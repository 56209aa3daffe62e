/** 05-topology/src/manager.cpp and router.cpp: the vector of routers, ticked in place. */
module TopologyManager {
  import opened Wrappers
  import opened StoreForward

  class Manager {
    const routers: array<Router>
    ghost var added: nat
    ghost var received: nat
    ghost var lost: nat

    ghost function View(): Net
      reads this, routers
    {
      Net(routers[..], added, received, lost)
    }

    constructor (rs: array<Router>)
      ensures routers == rs && View() == Net(rs[..], 0, 0, 0)
    {
      routers := rs;
      added, received, lost := 0, 0, 0;
    }

    method FindRouter(id: int) returns (i: nat)
      ensures i == Find(routers[..], id)
    {
      i := 0;
      while i < routers.Length && routers[i].id != id
        invariant i <= routers.Length && Find(routers[..], id) >= i
        invariant forall j :: 0 <= j < i ==> routers[j].id != id
      {
        i := i + 1;
      }
      assert i < routers.Length ==> routers[..][i].id == id;
    }

    method AddMessage(source: int, destination: int)
      modifies this, routers
      ensures View() == StoreForward.AddMessage(old(View()), source, destination)
    {
      var i := FindRouter(source);
      if i < routers.Length {
        routers[i] := routers[i].(queue := routers[i].queue + [destination]);
        added := added + 1;
      }
    }

    /** Router::tick for the router in slot i. */
    method TickRouter(i: nat, now: int)
      requires i < routers.Length
      modifies this, routers
      ensures View() == StoreForward.TickRouter(old(View()), i, now)
    {
      if routers[i].queue == [] && routers[i].held == None {
        return;
      }
      if now < routers[i].lastSent {
        return;
      }
      ForwardHeld(i);
      PrepareNext(i, now);
    }

    method ForwardHeld(i: nat)
      requires i < routers.Length
      modifies this, routers
      ensures View() == SendHeld(old(View()), i)
    {
      if routers[i].held.Some? {
        var (hop, destination) := routers[i].held.value;
        var j := FindRouter(hop);
        if j < routers.Length {
          routers[j] := routers[j].(queue := routers[j].queue + [destination]);
        } else {
          lost := lost + 1;
        }
        routers[i] := routers[i].(held := None);
      }
    }

    method PrepareNext(i: nat, now: int)
      requires i < routers.Length
      modifies this, routers
      ensures View() == TakeNext(old(View()), i, now)
    {
      var r := routers[i];
      if r.queue != [] {
        var destination := r.queue[0];
        routers[i] := r.(queue := r.queue[1..]);
        if destination == r.id {
          received := received + 1;
          return;
        }
        var hop := Lookup(r.table, destination);
        routers[i] := routers[i].(held := Some((hop, destination)), lastSent := now + Lookup(r.delays, hop));
      }
    }

    method Tick(clock: nat -> int)
      modifies this, routers
      ensures View() == TickFrom(old(View()), 0, clock)
    {
      ghost var goal := TickFrom(View(), 0, clock);
      var i := 0;
      while i < routers.Length
        invariant 0 <= i <= routers.Length && TickFrom(View(), i, clock) == goal
      {
        TickRouter(i, clock(i));
        i := i + 1;
      }
    }

    method IsFinished() returns (finished: bool)
      ensures finished == Finished(View())
    {
      var i := 0;
      while i < routers.Length
        invariant 0 <= i <= routers.Length && forall j :: 0 <= j < i ==> !HasWork(routers[j])
      {
        if routers[i].queue != [] || routers[i].held.Some? {
          assert HasWork(View().routers[i]);
          return false;
        }
        i := i + 1;
      }
      return true;
    }
  }
}
