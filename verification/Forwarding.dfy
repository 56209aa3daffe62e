/** Forwarding tables made of first hops, and what following them hop by hop achieves. */
module Forwarding {
  import opened Graphs

  // router -> destination -> next hop
  type Tables = map<int, map<int, int>>

  /** h is a neighbour of a on a least-delay route to d. */
  ghost predicate FirstHop(g: Graph, a: int, d: int, h: int) {
    HasEdge(g, a, h) && g[a][h] + Distance(g, h, d) == Distance(g, a, d)
  }

  /** Every entry is the first hop of some least-delay route; nothing relates one router's choice to another's. */
  ghost predicate FirstHops(g: Graph, t: Tables) {
    && t.Keys == g.Keys
    && forall a {:trigger RowOfFirstHops(g, a, t[a])} :: a in t ==> RowOfFirstHops(g, a, t[a])
  }

  ghost predicate RowOfFirstHops(g: Graph, a: int, row: map<int, int>) {
    && row.Keys == g.Keys - {a}
    && forall d :: d in row ==> FirstHop(g, a, d, row[d])
  }

  /** A topology fit for the simulator, with its tables. */
  ghost predicate Routable(g: Graph, t: Tables) {
    Symmetric(g) && Closed(g) && Positive(g) && NonNegative(g) && Connected(g) && FirstHops(g, t)
  }

  /** The nodes a packet visits from a when every router applies its own table. */
  ghost function Path(g: Graph, t: Tables, a: int, d: int): (p: seq<int>)
    requires Routable(g, t) && a in g && d in g
    ensures p != [] && p[0] == a
    decreases Distance(g, a, d)
  {
    if a == d then [a] else
      assert RowOfFirstHops(g, a, t[a]);
      [a] + Path(g, t, t[a][d], d)
  }

  /** Each node of p hands over to the next by looking d up in its own table. */
  ghost predicate Follows(t: Tables, p: seq<int>, d: int) {
    forall i, j :: 0 <= i && j == i + 1 && j < |p| ==> SendsTo(t, d, p[i], p[j])
  }

  predicate SendsTo(t: Tables, d: int, v: int, w: int) {
    v in t && d in t[v] && w == t[v][d]
  }

  /** Hops still to go from a to d. */
  ghost function Hops(g: Graph, t: Tables, a: int, d: int): nat
    requires Routable(g, t) && a in g && d in g
  {
    |Path(g, t, a, d)| - 1
  }

  lemma DistanceToSelf(g: Graph, a: int)
    requires NonNegative(g) && Reachable(g, a, a)
    ensures Distance(g, a, a) == 0
  {
    assert Joins(g, [a], a, a);
    assert Cost(g, [a]) == 0;
    var p := DistanceIsLeast(g, a, a);
  }

  /** The first hop of a least-delay route leads to a least-delay rest. */
  lemma ShortestFirstHop(g: Graph, p: seq<int>, a: int, d: int)
    requires NonNegative(g) && a != d && Shortest(g, p, a, d)
    ensures |p| > 1 && FirstHop(g, a, d, p[1])
  {
    var h, rest := p[1], p[1..];
    assert HasEdge(g, p[0], p[1]);
    assert Joins(g, rest, h, d);
    Step(g, a, rest);
    assert [a] + rest == p;
    var best := DistanceIsLeast(g, h, d);
    Step(g, a, best);
    assert Joins(g, [a] + best, a, d);
    ShortestIsDistance(g, p, a, d);
  }

  /** Following the tables is a least-delay walk to the destination, whoever broke which tie. */
  lemma {:induction false} PathIsShortest(g: Graph, t: Tables, a: int, d: int)
    requires Routable(g, t) && a in g && d in g
    ensures Shortest(g, Path(g, t, a, d), a, d)
    ensures Cost(g, Path(g, t, a, d)) == Distance(g, a, d)
    decreases Distance(g, a, d)
  {
    if a == d {
      DistanceToSelf(g, a);
    } else {
      assert RowOfFirstHops(g, a, t[a]);
      var h := t[a][d];
      PathIsShortest(g, t, h, d);
      Step(g, a, Path(g, t, h, d));
    }
  }

  /** The rest of a forwarding path is the forwarding path of the node it starts from. */
  lemma {:induction false} PathSuffix(g: Graph, t: Tables, a: int, d: int, i: nat)
    requires Routable(g, t) && a in g && d in g && i < |Path(g, t, a, d)|
    ensures Path(g, t, a, d)[i] in g
    ensures Path(g, t, a, d)[i..] == Path(g, t, Path(g, t, a, d)[i], d)
    decreases i
  {
    if i > 0 {
      assert RowOfFirstHops(g, a, t[a]);
      PathSuffix(g, t, t[a][d], d, i - 1);
    }
  }

  /** Forwarding is loop free: delays to the destination only fall, so no node comes twice. */
  lemma {:induction false} PathNoRepeats(g: Graph, t: Tables, a: int, d: int)
    requires Routable(g, t) && a in g && d in g
    ensures NoRepeats(Path(g, t, a, d))
    ensures forall i :: 0 <= i < |Path(g, t, a, d)| ==> Path(g, t, a, d)[i] in g
    ensures |Path(g, t, a, d)| <= |g|
    decreases Distance(g, a, d)
  {
    var p := Path(g, t, a, d);
    if a != d {
      assert RowOfFirstHops(g, a, t[a]);
      var h := t[a][d];
      PathNoRepeats(g, t, h, d);
      assert p[1..] == Path(g, t, h, d);
      forall i | 1 <= i < |p| ensures p[i] != a {
        NeverBack(g, t, h, d, i - 1);
      }
      forall i, j | 0 <= i < j < |p| ensures p[i] != p[j] {
        if i > 0 {
          assert Path(g, t, h, d)[i - 1] != Path(g, t, h, d)[j - 1];
        }
      }
    }
    NoRepeatsBound(p, g.Keys);
  }

  /** The distance to the destination never grows along a forwarding path. */
  lemma {:induction false} NeverBack(g: Graph, t: Tables, a: int, d: int, i: nat)
    requires Routable(g, t) && a in g && d in g && i < |Path(g, t, a, d)|
    ensures Path(g, t, a, d)[i] in g
    ensures Distance(g, Path(g, t, a, d)[i], d) <= Distance(g, a, d)
    decreases i
  {
    if i > 0 {
      assert RowOfFirstHops(g, a, t[a]);
      NeverBack(g, t, t[a][d], d, i - 1);
    }
  }

  /**
   * Tables filled from independent route computations compose: from any node, following next hops
   * reaches the destination without revisiting a node, in fewer hops than there are nodes, at the
   * least possible total delay, and the way back costs the same.
   */
  lemma FirstHopsCompose(g: Graph, t: Tables, a: int, d: int)
    requires Routable(g, t) && a in g && d in g
    ensures var p := Path(g, t, a, d);
      Shortest(g, p, a, d) && NoRepeats(p) && Hops(g, t, a, d) <= |g| - 1 && Follows(t, p, d)
    ensures var p, back := Path(g, t, a, d), Path(g, t, d, a);
      Shortest(g, p, a, d) && Shortest(g, back, d, a) && Cost(g, p) == Cost(g, back)
  {
    PathIsShortest(g, t, a, d);
    PathIsShortest(g, t, d, a);
    PathNoRepeats(g, t, a, d);
    DistanceSymmetric(g, a, d);
    PathFollows(g, t, a, d);
  }

  lemma PathFollows(g: Graph, t: Tables, a: int, d: int)
    requires Routable(g, t) && a in g && d in g
    ensures Follows(t, Path(g, t, a, d), d)
  {
    var p := Path(g, t, a, d);
    forall i, j | 0 <= i && j == i + 1 && j < |p| ensures SendsTo(t, d, p[i], p[j]) {
      PathHop(g, t, a, d, i);
    }
  }

  /** One step along a forwarding path is one table lookup; only its end is the destination. */
  lemma PathHop(g: Graph, t: Tables, a: int, d: int, i: nat)
    requires Routable(g, t) && a in g && d in g && i < |Path(g, t, a, d)|
    ensures var p := Path(g, t, a, d);
      && p[i] in g && p[i..] == Path(g, t, p[i], d)
      && (p[i] == d <==> i == |p| - 1)
      && (i < |p| - 1 ==> p[i] in t && d in t[p[i]] && p[i + 1] == t[p[i]][d] && HasEdge(g, p[i], p[i + 1]))
  {
    var p := Path(g, t, a, d);
    PathSuffix(g, t, a, d, i);
    PathIsShortest(g, t, a, d);
    assert Path(g, t, p[i], d) == p[i..];
    if p[i] != d {
      assert RowOfFirstHops(g, p[i], t[p[i]]);
      assert p[i..][1] == t[p[i]][d];
    }
  }
}
