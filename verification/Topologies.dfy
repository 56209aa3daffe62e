/** What add_nodes_from and add_edge of graph.py make of a list of nodes and a list of links. */
module Topologies {
  import opened Graphs

  /** One undirected link with its delay, as the topology presets list them. */
  datatype Link = Link(a: int, b: int, delay: int) {
    predicate Between(x: int, y: int) {
      (a == x && b == y) || (a == y && b == x)
    }
  }

  function WithNode(g: Graph, node: int): Graph {
    if node in g then g else g[node := map[]]
  }

  function WithNodes(g: Graph, nodes: seq<int>): Graph {
    if nodes == [] then g else WithNode(WithNodes(g, nodes[..|nodes| - 1]), nodes[|nodes| - 1])
  }

  function WithLink(g: Graph, l: Link): Graph {
    var g := WithNode(WithNode(g, l.a), l.b);
    var g := g[l.a := g[l.a][l.b := l.delay]];
    g[l.b := g[l.b][l.a := l.delay]]
  }

  function Topology(nodes: seq<int>, links: seq<Link>): Graph {
    if links == [] then WithNodes(map[], nodes)
    else WithLink(Topology(nodes, links[..|links| - 1]), links[|links| - 1])
  }

  /** The last link listed between a and b, which decides their delay. */
  ghost predicate LastListed(links: seq<Link>, i: int, a: int, b: int) {
    && 0 <= i < |links| && links[i].Between(a, b)
    && forall j :: i < j < |links| ==> !links[j].Between(a, b)
  }

  lemma LinkAdded(g: Graph, l: Link, a: int, b: int)
    ensures HasEdge(WithLink(g, l), a, b) <==> l.Between(a, b) || HasEdge(g, a, b)
    ensures HasEdge(WithLink(g, l), a, b) ==>
              WithLink(g, l)[a][b] == if l.Between(a, b) then l.delay else g[a][b]
  {
  }

  lemma LinkKeepsSymmetry(g: Graph, l: Link)
    requires Symmetric(g)
    ensures Symmetric(WithLink(g, l))
  {
    forall a, b | HasEdge(WithLink(g, l), a, b)
      ensures HasEdge(WithLink(g, l), b, a) && WithLink(g, l)[b][a] == WithLink(g, l)[a][b] {
      LinkAdded(g, l, a, b);
      LinkAdded(g, l, b, a);
    }
  }

  lemma {:induction false} NodesHaveNoLinks(nodes: seq<int>, a: int, b: int)
    ensures !HasEdge(WithNodes(map[], nodes), a, b)
  {
    if nodes != [] {
      NodesHaveNoLinks(nodes[..|nodes| - 1], a, b);
    }
  }

  /** A loaded topology has exactly the listed links, each with the delay listed last for its ends. */
  lemma {:induction false} TopologyExact(nodes: seq<int>, links: seq<Link>, a: int, b: int)
    ensures HasEdge(Topology(nodes, links), a, b) <==> exists i :: LastListed(links, i, a, b)
    ensures forall i :: HasEdge(Topology(nodes, links), a, b) && LastListed(links, i, a, b) ==>
                          Topology(nodes, links)[a][b] == links[i].delay
  {
    if links == [] {
      NodesHaveNoLinks(nodes, a, b);
    } else {
      var n := |links| - 1;
      TopologyExact(nodes, links[..n], a, b);
      LinkAdded(Topology(nodes, links[..n]), links[n], a, b);
      if links[n].Between(a, b) {
        assert LastListed(links, n, a, b);
      } else {
        assert forall i :: LastListed(links, i, a, b) <==> LastListed(links[..n], i, a, b);
      }
    }
  }

  /** A loaded topology has exactly the listed nodes and the ends of the listed links. */
  lemma {:induction false} NodesExact(nodes: seq<int>, links: seq<Link>, v: int)
    ensures v in Topology(nodes, links) <==>
              v in nodes || exists i :: 0 <= i < |links| && (links[i].a == v || links[i].b == v)
  {
    if links == [] {
      ListedNodes(nodes, v);
    } else {
      NodesExact(nodes, links[..|links| - 1], v);
    }
  }

  lemma {:induction false} ListedNodes(nodes: seq<int>, v: int)
    ensures v in WithNodes(map[], nodes) <==> v in nodes
  {
    if nodes != [] {
      ListedNodes(nodes[..|nodes| - 1], v);
    }
  }

  /** A topology listing only positive delays meets every demand the routing makes on its graph. */
  lemma TopologyFit(nodes: seq<int>, links: seq<Link>)
    requires forall i :: 0 <= i < |links| ==> 0 < links[i].delay
    ensures var g := Topology(nodes, links);
      Symmetric(g) && Closed(g) && Positive(g) && NonNegative(g)
  {
    var g := Topology(nodes, links);
    forall a, b | HasEdge(g, a, b) ensures 0 < g[a][b] && HasEdge(g, b, a) && g[b][a] == g[a][b] {
      TopologyExact(nodes, links, a, b);
      TopologyExact(nodes, links, b, a);
      var i :| LastListed(links, i, a, b);
      assert LastListed(links, i, b, a);
    }
  }
}
