/** Weighted undirected graphs as adjacency dictionaries, walks over them and their delays. */
module Graphs {
  // node -> neighbour -> delay in milliseconds
  type Graph = map<int, map<int, int>>

  predicate HasEdge(g: Graph, a: int, b: int) {
    a in g && b in g[a]
  }

  ghost predicate Closed(g: Graph) {
    forall a, b :: HasEdge(g, a, b) ==> b in g
  }

  ghost predicate Symmetric(g: Graph) {
    forall a, b :: HasEdge(g, a, b) ==> HasEdge(g, b, a) && g[b][a] == g[a][b]
  }

  ghost predicate NonNegative(g: Graph) {
    forall a, b :: HasEdge(g, a, b) ==> 0 <= g[a][b]
  }

  ghost predicate Positive(g: Graph) {
    forall a, b :: HasEdge(g, a, b) ==> 0 < g[a][b]
  }

  ghost predicate IsWalk(g: Graph, p: seq<int>) {
    && p != []
    && forall i, j :: 0 <= i && j == i + 1 && j < |p| ==> HasEdge(g, p[i], p[j])
  }

  ghost predicate Joins(g: Graph, p: seq<int>, a: int, b: int) {
    IsWalk(g, p) && p[0] == a && p[|p| - 1] == b
  }

  ghost function Cost(g: Graph, p: seq<int>): int
    requires IsWalk(g, p)
  {
    if |p| == 1 then 0 else
      assert HasEdge(g, p[|p| - 2], p[|p| - 1]);
      Cost(g, p[..|p| - 1]) + g[p[|p| - 2]][p[|p| - 1]]
  }

  ghost predicate Shortest(g: Graph, p: seq<int>, a: int, b: int) {
    && Joins(g, p, a, b)
    && forall q :: Joins(g, q, a, b) ==> Cost(g, p) <= Cost(g, q)
  }

  ghost predicate Reachable(g: Graph, a: int, b: int) {
    exists p :: Joins(g, p, a, b)
  }

  ghost predicate Connected(g: Graph) {
    forall a, b {:trigger Reachable(g, a, b)} :: a in g && b in g ==> Reachable(g, a, b)
  }

  ghost predicate NoRepeats(p: seq<int>) {
    forall i, j :: 0 <= i < j < |p| ==> p[i] != p[j]
  }

  lemma Extend(g: Graph, p: seq<int>, b: int)
    requires IsWalk(g, p) && HasEdge(g, p[|p| - 1], b)
    ensures IsWalk(g, p + [b])
    ensures Cost(g, p + [b]) == Cost(g, p) + g[p[|p| - 1]][b]
  {
    assert (p + [b])[..|p|] == p;
  }

  lemma {:induction false} CostNonNegative(g: Graph, p: seq<int>)
    requires NonNegative(g) && IsWalk(g, p)
    ensures 0 <= Cost(g, p)
  {
    if |p| > 1 {
      assert HasEdge(g, p[|p| - 2], p[|p| - 1]);
      CostNonNegative(g, p[..|p| - 1]);
    }
  }

  /** Walks that meet end to start can be glued, and their delays add up. */
  lemma {:induction false} Glue(g: Graph, p: seq<int>, q: seq<int>)
    requires IsWalk(g, p) && IsWalk(g, q) && p[|p| - 1] == q[0]
    ensures IsWalk(g, p + q[1..])
    ensures Cost(g, p + q[1..]) == Cost(g, p) + Cost(g, q)
    decreases |q|
  {
    if |q| == 1 {
      assert p + q[1..] == p;
    } else {
      var front := q[..|q| - 1];
      var b := q[|q| - 1];
      Glue(g, p, front);
      assert front[1..] + [b] == q[1..];
      var whole := p + front[1..];
      assert whole[|whole| - 1] == front[|front| - 1];
      assert HasEdge(g, q[|q| - 2], q[|q| - 1]);
      Extend(g, whole, b);
      assert whole + [b] == p + q[1..];
    }
  }

  lemma Step(g: Graph, a: int, q: seq<int>)
    requires IsWalk(g, q) && HasEdge(g, a, q[0])
    ensures IsWalk(g, [a] + q) && Cost(g, [a] + q) == g[a][q[0]] + Cost(g, q)
  {
    var hop := [a, q[0]];
    assert hop[..1] == [a];
    assert Cost(g, [a]) == 0;
    assert Cost(g, hop) == Cost(g, hop[..1]) + g[a][q[0]];
    Glue(g, hop, q);
    assert hop + q[1..] == [a] + q;
  }

  function Reverse(s: seq<int>): (r: seq<int>)
    ensures |r| == |s|
    ensures forall k :: 0 <= k < |s| ==> r[k] == s[|s| - 1 - k]
  {
    if s == [] then [] else Reverse(s[1..]) + [s[0]]
  }

  lemma {:induction false} ReverseSnoc(s: seq<int>, x: int)
    ensures Reverse(s + [x]) == [x] + Reverse(s)
  {
  }

  /** On an undirected graph a walk can be taken backwards, at the same total delay. */
  lemma {:induction false} ReverseWalk(g: Graph, p: seq<int>)
    requires Symmetric(g) && IsWalk(g, p)
    ensures IsWalk(g, Reverse(p)) && Cost(g, Reverse(p)) == Cost(g, p)
  {
    if |p| == 1 {
      assert Reverse(p) == p;
    } else {
      var q := p[..|p| - 1];
      ReverseWalk(g, q);
      var b := p[|p| - 1];
      assert HasEdge(g, p[|p| - 2], b);
      assert Reverse(q)[0] == p[|p| - 2];
      Step(g, b, Reverse(q));
      assert Reverse(p) == [b] + Reverse(q);
    }
  }

  lemma {:induction false} ShortestExists(g: Graph, a: int, b: int, p: seq<int>)
    requires NonNegative(g) && Joins(g, p, a, b)
    ensures exists q :: Shortest(g, q, a, b)
    decreases if IsWalk(g, p) && Cost(g, p) >= 0 then Cost(g, p) else 0
  {
    CostNonNegative(g, p);
    if !Shortest(g, p, a, b) {
      var q :| Joins(g, q, a, b) && Cost(g, q) < Cost(g, p);
      CostNonNegative(g, q);
      ShortestExists(g, a, b, q);
    }
  }

  /** The least total delay from a to b, where there is a walk at all. */
  ghost function Distance(g: Graph, a: int, b: int): nat {
    if NonNegative(g) && Reachable(g, a, b) then
      var p0 :| Joins(g, p0, a, b);
      ShortestExists(g, a, b, p0);
      var p :| Shortest(g, p, a, b);
      CostNonNegative(g, p);
      Cost(g, p)
    else 0
  }

  /** The distance is the delay of some least-delay walk, and of every one. */
  lemma DistanceIsLeast(g: Graph, a: int, b: int) returns (p: seq<int>)
    requires NonNegative(g) && Reachable(g, a, b)
    ensures Shortest(g, p, a, b) && Cost(g, p) == Distance(g, a, b)
  {
    var p0 :| Joins(g, p0, a, b);
    ShortestExists(g, a, b, p0);
    p :| Shortest(g, p, a, b) && Cost(g, p) == Distance(g, a, b);
  }

  lemma ShortestIsDistance(g: Graph, p: seq<int>, a: int, b: int)
    requires NonNegative(g) && Shortest(g, p, a, b)
    ensures Reachable(g, a, b) && Cost(g, p) == Distance(g, a, b)
  {
    var q := DistanceIsLeast(g, a, b);
  }

  lemma DistanceSymmetric(g: Graph, a: int, b: int)
    requires NonNegative(g) && Symmetric(g) && Reachable(g, a, b)
    ensures Reachable(g, b, a) && Distance(g, a, b) == Distance(g, b, a)
  {
    var p := DistanceIsLeast(g, a, b);
    ReverseWalk(g, p);
    assert Joins(g, Reverse(p), b, a);
    var q := DistanceIsLeast(g, b, a);
    ReverseWalk(g, q);
    assert Joins(g, Reverse(q), a, b);
  }

  /** Distinct nodes of a finite graph: there are at most as many as the graph has. */
  lemma {:induction false} NoRepeatsBound(p: seq<int>, nodes: set<int>)
    requires NoRepeats(p)
    requires forall i :: 0 <= i < |p| ==> p[i] in nodes
    ensures |p| <= |nodes|
  {
    if p != [] {
      var last := p[|p| - 1];
      NoRepeatsBound(p[..|p| - 1], nodes - {last});
    }
  }

  ghost function Elements(s: seq<int>): set<int> {
    set v | v in s
  }

  lemma ElementsSnoc(s: seq<int>, i: nat)
    requires i < |s|
    ensures Elements(s[..i + 1]) == Elements(s[..i]) + {s[i]} && s[i] in s
  {
    assert s[..i + 1] == s[..i] + [s[i]];
  }
}
