/**
 * Certificates: what makes it easy to see which way the tables of a given topology send packets, and that a
 * topology has tables at all.
 */
module Certificates {
  import opened Graphs
  import opened Topologies
  import opened Forwarding

  // ---------------------------------------------------------------- certificates for least-delay routes

  /** No link leads further down than its delay. */
  ghost predicate Potential(g: Graph, h: int -> int) {
    forall a, b :: HasEdge(g, a, b) ==> h(a) <= g[a][b] + h(b)
  }

  lemma {:induction false} WalkCostsAtLeast(g: Graph, h: int -> int, p: seq<int>)
    requires Potential(g, h) && IsWalk(g, p)
    ensures h(p[0]) - h(p[|p| - 1]) <= Cost(g, p)
  {
    if |p| > 1 {
      WalkCostsAtLeast(g, h, p[..|p| - 1]);
      assert HasEdge(g, p[|p| - 2], p[|p| - 1]);
    }
  }

  lemma DistanceAtLeast(g: Graph, h: int -> int, a: int, d: int)
    requires NonNegative(g) && Reachable(g, a, d) && Potential(g, h)
    ensures h(a) - h(d) <= Distance(g, a, d)
  {
    var p := DistanceIsLeast(g, a, d);
    WalkCostsAtLeast(g, h, p);
  }

  /** The link from v to w is the only one out of v that leads down by its delay. */
  ghost predicate OnlyTight(g: Graph, h: int -> int, v: int, w: int) {
    && HasEdge(g, v, w) && h(v) == g[v][w] + h(w)
    && forall x :: HasEdge(g, v, x) && h(v) == g[v][x] + h(x) ==> x == w
  }

  ghost predicate Forced(g: Graph, h: int -> int, r: seq<int>) {
    forall i, j :: 0 <= i && j == i + 1 && j < |r| ==> OnlyTight(g, h, r[i], r[j])
  }

  /** A route whose every link is the only one that leads down is what the tables spell out, whoever built them. */
  lemma {:induction false} ForcedPath(g: Graph, t: Tables, h: int -> int, r: seq<int>, d: int)
    requires Routable(g, t) && Potential(g, h) && h(d) == 0 && d in g
    requires r != [] && r[|r| - 1] == d && Forced(g, h, r)
    ensures r[0] in g && Path(g, t, r[0], d) == r && Distance(g, r[0], d) == h(r[0])
  {
    if |r| == 1 {
      assert Joins(g, [d], d, d);
      DistanceToSelf(g, d);
    } else {
      assert OnlyTight(g, h, r[0], r[1]);
      ForcedPath(g, t, h, r[1..], d);
      FirstOfForced(g, t, h, r[0], r[1], d);
      assert r == [r[0]] + r[1..];
    }
  }

  lemma FirstOfForced(g: Graph, t: Tables, h: int -> int, a: int, w: int, d: int)
    requires Routable(g, t) && Potential(g, h) && h(d) == 0 && d in g
    requires OnlyTight(g, h, a, w) && w in g && Distance(g, w, d) == h(w)
    ensures a in g && a != d && Distance(g, a, d) == h(a) && a in t && d in t[a] && t[a][d] == w
  {
    assert Reachable(g, w, d) && Reachable(g, a, d);
    var p := DistanceIsLeast(g, w, d);
    Step(g, a, p);
    assert Joins(g, [a] + p, a, d);
    var q := DistanceIsLeast(g, a, d);
    DistanceAtLeast(g, h, a, d);
    assert RowOfFirstHops(g, a, t[a]);
    var x := t[a][d];
    assert Reachable(g, x, d);
    DistanceAtLeast(g, h, x, d);
  }

  // ---------------------------------------------------------------- links of a topology

  /** Between two nodes at most one link is listed. */
  ghost predicate Distinct(links: seq<Link>) {
    forall i, j :: 0 <= i < j < |links| ==> !links[j].Between(links[i].a, links[i].b)
  }

  lemma ListedLink(nodes: seq<int>, links: seq<Link>, i: nat)
    requires i < |links| && Distinct(links)
    ensures var g, l := Topology(nodes, links), links[i];
      HasEdge(g, l.a, l.b) && g[l.a][l.b] == l.delay && HasEdge(g, l.b, l.a) && g[l.b][l.a] == l.delay
  {
    var l := links[i];
    assert LastListed(links, i, l.a, l.b) && LastListed(links, i, l.b, l.a);
    TopologyExact(nodes, links, l.a, l.b);
    TopologyExact(nodes, links, l.b, l.a);
  }

  lemma EdgeIsListed(nodes: seq<int>, links: seq<Link>, a: int, b: int) returns (i: nat)
    requires HasEdge(Topology(nodes, links), a, b)
    ensures i < |links| && links[i].Between(a, b) && Topology(nodes, links)[a][b] == links[i].delay
  {
    TopologyExact(nodes, links, a, b);
    i :| LastListed(links, i, a, b);
  }

  /** The same as a potential, read off the list of links. */
  predicate LevelsFit(links: seq<Link>, h: int -> int) {
    forall i :: 0 <= i < |links| ==>
      var l := links[i]; h(l.a) <= l.delay + h(l.b) && h(l.b) <= l.delay + h(l.a)
  }

  lemma LevelsArePotential(nodes: seq<int>, links: seq<Link>, h: int -> int)
    requires LevelsFit(links, h)
    ensures Potential(Topology(nodes, links), h)
  {
    var g := Topology(nodes, links);
    forall a, b | HasEdge(g, a, b) ensures h(a) <= g[a][b] + h(b) {
      var i := EdgeIsListed(nodes, links, a, b);
    }
  }

  /** Link l leads down from v by its delay. */
  predicate Down(l: Link, h: int -> int, v: int) {
    (l.a == v && h(v) == l.delay + h(l.b)) || (l.b == v && h(v) == l.delay + h(l.a))
  }

  /** Link i is the only listed one that leads down from v, and it leads to w. */
  predicate OnlyDown(links: seq<Link>, h: int -> int, i: nat, v: int, w: int) {
    && i < |links| && links[i].Between(v, w) && v != w && h(v) == links[i].delay + h(w)
    && forall j :: 0 <= j < |links| && Down(links[j], h, v) ==> j == i
  }

  lemma OnlyDownIsTight(nodes: seq<int>, links: seq<Link>, h: int -> int, i: nat, v: int, w: int)
    requires Distinct(links) && OnlyDown(links, h, i, v, w)
    ensures OnlyTight(Topology(nodes, links), h, v, w)
  {
    var g := Topology(nodes, links);
    ListedLink(nodes, links, i);
    forall x | HasEdge(g, v, x) && h(v) == g[v][x] + h(x) ensures x == w {
      var j := EdgeIsListed(nodes, links, v, x);
      assert Down(links[j], h, v);
    }
  }

  /** The links with the given numbers, each the only one down, join the nodes of r. */
  predicate DownAlong(links: seq<Link>, h: int -> int, r: seq<int>, numbers: seq<nat>) {
    |r| == |numbers| + 1 && forall k :: 0 <= k < |numbers| ==> OnlyDown(links, h, numbers[k], r[k], r[k + 1])
  }

  /** Such a route is what the tables spell out. */
  lemma DownIsPath(nodes: seq<int>, links: seq<Link>, t: Tables, h: int -> int, r: seq<int>, numbers: seq<nat>)
    requires Routable(Topology(nodes, links), t) && Distinct(links) && LevelsFit(links, h)
    requires DownAlong(links, h, r, numbers) && h(r[|r| - 1]) == 0 && r[|r| - 1] in Topology(nodes, links)
    ensures r[0] in Topology(nodes, links) && Path(Topology(nodes, links), t, r[0], r[|r| - 1]) == r
  {
    var g := Topology(nodes, links);
    LevelsArePotential(nodes, links, h);
    forall i, j | 0 <= i && j == i + 1 && j < |r| ensures OnlyTight(g, h, r[i], r[j]) {
      OnlyDownIsTight(nodes, links, h, numbers[i], r[i], r[j]);
    }
    ForcedPath(g, t, h, r, r[|r| - 1]);
  }

  lemma ReachOver(nodes: seq<int>, links: seq<Link>, i: nat, v: int, w: int, d: int)
    requires i < |links| && Distinct(links) && links[i].Between(v, w) && Reachable(Topology(nodes, links), w, d)
    ensures Reachable(Topology(nodes, links), v, d)
  {
    var g := Topology(nodes, links);
    ListedLink(nodes, links, i);
    var p :| Joins(g, p, w, d);
    Step(g, v, p);
    assert Joins(g, [v] + p, v, d);
  }

  lemma {:induction false} NodesAreKeys(nodes: seq<int>)
    ensures WithNodes(map[], nodes).Keys == Elements(nodes)
  {
    if nodes != [] {
      var n := |nodes| - 1;
      NodesAreKeys(nodes[..n]);
      ElementsSnoc(nodes, n);
      assert nodes[..n + 1] == nodes;
    }
  }

  /** Links between listed nodes add no others. */
  lemma {:induction false} TopologyNodes(nodes: seq<int>, links: seq<Link>)
    requires forall i :: 0 <= i < |links| ==> links[i].a in nodes && links[i].b in nodes
    ensures Topology(nodes, links).Keys == Elements(nodes)
  {
    if links == [] {
      NodesAreKeys(nodes);
    } else {
      TopologyNodes(nodes, links[..|links| - 1]);
    }
  }

  // ---------------------------------------------------------------- tables exist

  /** Everybody reaches everybody through a node that everybody reaches. */
  lemma ConnectedThrough(g: Graph, hub: int)
    requires Symmetric(g) && forall a :: a in g ==> Reachable(g, a, hub)
    ensures Connected(g)
  {
    forall a, b | a in g && b in g ensures Reachable(g, a, b) {
      var p :| Joins(g, p, a, hub);
      var q :| Joins(g, q, b, hub);
      ReverseWalk(g, q);
      Glue(g, p, Reverse(q));
      assert Joins(g, p + Reverse(q)[1..], a, b);
    }
  }

  lemma HasFirstHop(g: Graph, a: int, d: int)
    requires NonNegative(g) && Reachable(g, a, d) && a != d
    ensures exists h :: FirstHop(g, a, d, h)
  {
    var p := DistanceIsLeast(g, a, d);
    ShortestFirstHop(g, p, a, d);
  }

  ghost function SomeRow(g: Graph, a: int): (row: map<int, int>)
    requires NonNegative(g) && Connected(g) && a in g
    ensures RowOfFirstHops(g, a, row)
  {
    map d | d in g.Keys - {a} ::
      assert Reachable(g, a, d);
      HasFirstHop(g, a, d);
      var h :| FirstHop(g, a, d, h);
      h
  }

  /** A connected topology has tables of first hops. */
  ghost function SomeTables(g: Graph): (t: Tables)
    requires NonNegative(g) && Connected(g)
    ensures FirstHops(g, t)
  {
    map a | a in g.Keys :: SomeRow(g, a)
  }
}
