/** graph.py: the topology, least-delay routes and the forwarding tables built from them. */
module Routing {
  import opened Wrappers
  import opened Graphs
  import opened Dijkstra
  import opened Forwarding
  import opened Topologies

  class SimpleGraph {
    var nodes: seq<int>
    var adjacency: Graph

    constructor ()
      ensures nodes == [] && adjacency == map[]
    {
      nodes, adjacency := [], map[];
    }

    ghost predicate Valid()
      reads this
    {
      NoRepeats(nodes) && Elements(nodes) == adjacency.Keys && Symmetric(adjacency)
    }

    method Clear()
      modifies this
      ensures nodes == [] && adjacency == map[]
    {
      nodes, adjacency := [], map[];
    }

    method AddNodesFrom(added: seq<int>)
      requires Valid()
      modifies this
      ensures Valid() && adjacency == WithNodes(old(adjacency), added)
    {
      for i := 0 to |added|
        invariant Valid() && adjacency == WithNodes(old(adjacency), added[..i])
      {
        assert added[..i + 1][..i] == added[..i];
        if added[i] !in adjacency {
          adjacency := adjacency[added[i] := map[]];
          nodes := nodes + [added[i]];
        }
      }
      assert added[..|added|] == added;
    }

    method AddEdge(a: int, b: int, delay: int)
      requires Valid()
      modifies this
      ensures Valid() && adjacency == WithLink(old(adjacency), Link(a, b, delay))
    {
      AddNodesFrom([a, b]);
      assert [a, b][..1] == [a] && [a][..0] == [];
      assert WithNodes(old(adjacency), [a, b][..1]) == WithNode(old(adjacency), a);
      assert adjacency == WithNode(WithNode(old(adjacency), a), b);
      LinkKeepsSymmetry(old(adjacency), Link(a, b, delay));
      adjacency := adjacency[a := adjacency[a][b := delay]];
      adjacency := adjacency[b := adjacency[b][a := delay]];
    }
  }

  /** A topology preset; node positions are left out. */
  datatype TopologySpec = TopologySpec(name: string, nodes: seq<int>, links: seq<Link>, source: int, destination: int)

  /** Where a preset stands in the list; the length of the list when there is none of that name. */
  function IndexOfName(presets: seq<TopologySpec>, name: string): (i: nat)
    ensures i <= |presets|
    ensures i < |presets| ==> presets[i].name == name
    ensures forall j :: 0 <= j < i ==> presets[j].name != name
  {
    if presets == [] then 0 else if presets[0].name == name then 0
    else
      var i := 1 + IndexOfName(presets[1..], name);
      assert forall j :: 1 <= j < i ==> presets[j] == presets[1..][j - 1];
      i
  }

  /** The preset after the current one, going round; the first before any is loaded; none after what is no preset. */
  function NextPreset(presets: seq<TopologySpec>, current: string, step: int): (r: Option<nat>)
    ensures r.Some? ==> r.value < |presets|
    ensures current == "" ==> r == if presets == [] then None else Some(0)
    ensures current != "" && (forall i :: 0 <= i < |presets| ==> presets[i].name != current) ==> r == None
    ensures forall i :: 0 <= i < |presets| && presets[i].name == current != ""
                        && (forall j :: 0 <= j < i ==> presets[j].name != current) ==>
                          r == Some((i + step) % |presets|)
  {
    if presets == [] then None
    else if current == "" then Some(0)
    else
      var i := IndexOfName(presets, current);
      if i < |presets| then Some((i + step) % |presets|) else None
  }

  lemma {:induction false} NameIsKnown(presets: seq<TopologySpec>, i: nat)
    requires i < |presets|
    ensures IndexOfName(presets, presets[i].name) < |presets|
  {
    if presets[0].name != presets[i].name {
      NameIsKnown(presets[1..], i - 1);
    }
  }

  /** What is shown after cycling k times through presets, starting with nothing shown. */
  function Cycled(presets: seq<TopologySpec>, k: nat): Option<string> {
    if k == 0 then Some("")
    else
      match Cycled(presets, k - 1)
      case None => None
      case Some(current) =>
        var next := NextPreset(presets, current, 1);
        if next.Some? then Some(presets[next.value].name) else None
  }

  /** Cycling shows the presets one after the other, from the first, and begins again after the last. */
  lemma {:induction false} CyclingGoesRound(presets: seq<TopologySpec>, k: nat)
    requires presets != [] && Distinguished(presets)
    ensures Cycled(presets, k + 1) == Some(presets[k % |presets|].name)
  {
    if k == 0 {
      assert Cycled(presets, 0) == Some("");
    } else {
      CyclingGoesRound(presets, k - 1);
      CycledOnce(presets, k, (k - 1) % |presets|);
      RoundOnce(k, |presets|);
    }
  }

  /** The presets have names, and different ones. */
  ghost predicate Distinguished(presets: seq<TopologySpec>) {
    && (forall i :: 0 <= i < |presets| ==> presets[i].name != "")
    && forall i, j :: 0 <= i < j < |presets| ==> presets[i].name != presets[j].name
  }

  lemma CycledOnce(presets: seq<TopologySpec>, k: nat, i: nat)
    requires i < |presets| && Distinguished(presets) && Cycled(presets, k) == Some(presets[i].name)
    ensures Cycled(presets, k + 1) == Some(presets[(i + 1) % |presets|].name)
  {
    assert NextPreset(presets, presets[i].name, 1) == Some((i + 1) % |presets|);
  }

  lemma RoundOnce(k: nat, n: nat)
    requires 0 < k && 0 < n
    ensures ((k - 1) % n + 1) % n == k % n
  {
    var q, r := (k - 1) / n, (k - 1) % n;
    if r + 1 == n {
      Remainder(k, n, q + 1, 0);
    } else {
      Remainder(k, n, q, r + 1);
    }
  }

  /** Division with remainder has one result only. */
  lemma Remainder(k: nat, n: nat, q: int, r: nat)
    requires r < n && k == n * q + r
    ensures k % n == r
  {
    var q', r' := k / n, k % n;
    OnlyQuotient(n, q, q', r, r');
  }

  lemma OnlyQuotient(n: nat, q: int, q': int, r: nat, r': nat)
    requires r < n && r' < n && n * q + r == n * q' + r'
    ensures r == r'
  {
    assert n * (q' - q) == r - r' && n * (q - q') == r' - r;
    if q < q' {
      AtLeastOnce(n, q' - q);
    } else if q' < q {
      AtLeastOnce(n, q - q');
    }
  }

  lemma {:induction false} AtLeastOnce(n: nat, d: nat)
    requires d >= 1
    ensures n * d >= n
  {
    if d > 1 {
      AtLeastOnce(n, d - 1);
      assert n * d == n * (d - 1) + n;
    }
  }

  class GraphManager {
    const graph: SimpleGraph
    const presets: seq<TopologySpec>
    var currentName: string
    var defaultSource: int
    var defaultDestination: int

    /** What is loaded is this preset. */
    ghost predicate Shows(spec: TopologySpec)
      reads this, graph
    {
      && graph.Valid() && graph.adjacency == Topology(spec.nodes, spec.links) && currentName == spec.name
      && defaultSource == spec.source && defaultDestination == spec.destination
    }

    constructor (presets: seq<TopologySpec>)
      ensures this.presets == presets && currentName == "" && fresh(graph) && graph.Valid()
      ensures graph.adjacency == map[]
    {
      graph := new SimpleGraph();
      this.presets, currentName, defaultSource, defaultDestination := presets, "", 0, 0;
    }

    /** False stands for the KeyError on an unknown name. */
    method LoadTopology(name: string) returns (ok: bool)
      modifies this, graph
      ensures ok <==> IndexOfName(presets, name) < |presets|
      ensures ok ==> Shows(presets[IndexOfName(presets, name)])
      ensures !ok ==> unchanged(this) && unchanged(graph)
    {
      var index := IndexOfName(presets, name);
      if index == |presets| {
        return false;
      }
      var spec := presets[index];
      BuildGraph(spec.nodes, spec.links);
      currentName, defaultSource, defaultDestination := spec.name, spec.source, spec.destination;
      return true;
    }

    method BuildGraph(nodes: seq<int>, links: seq<Link>)
      modifies graph
      ensures graph.Valid() && graph.adjacency == Topology(nodes, links)
    {
      graph.Clear();
      graph.AddNodesFrom(nodes);
      for i := 0 to |links|
        invariant graph.Valid() && graph.adjacency == Topology(nodes, links[..i])
      {
        assert links[..i + 1][..i] == links[..i];
        graph.AddEdge(links[i].a, links[i].b, links[i].delay);
      }
      assert links[..|links|] == links;
    }

    /** False stands for the errors on a current topology that is no preset, and on an empty list. */
    method CycleTopology(step: int := 1) returns (ok: bool)
      modifies this, graph
      ensures var next := old(NextPreset(presets, currentName, step));
        && (next.Some? ==> ok && Shows(presets[IndexOfName(presets, presets[next.value].name)]))
        && (next.None? ==> !ok && unchanged(this) && unchanged(graph))
    {
      var next := NextPreset(presets, currentName, step);
      if next == None {
        return false;
      }
      ok := LoadTopology(presets[next.value].name);
      NameIsKnown(presets, next.value);
    }

    /**
     * A least-delay route, or None where the source raises KeyError: exactly when there is no walk.
     * expanded lists the nodes whose edges were relaxed: none twice, although stale heap entries remain,
     * all of the route but its end, and every node in reach if there is no route.
     */
    method GetRoute(source: int, destination: int) returns (r: Option<seq<int>>, ghost expanded: seq<int>)
      requires Closed(graph.adjacency) && NonNegative(graph.adjacency)
      ensures r.Some? ==> Shortest(graph.adjacency, r.value, source, destination)
      ensures r.None? <==> !Reachable(graph.adjacency, source, destination)
      ensures NoRepeats(expanded) && Elements(expanded) <= graph.adjacency.Keys
      ensures r.Some? ==> forall i :: 0 <= i < |r.value| - 1 ==> r.value[i] in Elements(expanded)
      ensures r.None? ==> forall v :: v in graph.adjacency && Reachable(graph.adjacency, source, v) ==>
                                        v in Elements(expanded)
    {
      var found, distances, previous;
      ghost var paths, settled;
      found, distances, previous, paths, settled, expanded := Search(source, destination);
      if !found {
        return None, expanded;
      }
      WayIsSettled(graph.adjacency, source, distances, previous, paths, settled, destination);
      var route := Backtrack(source, destination, distances, previous, paths, settled);
      r := Some(route);
    }

    /** The heap loop of the search; it stops early when the destination is popped. */
    method Search(source: int, destination: int)
      returns (found: bool, distances: map<int, int>, previous: map<int, int>,
               ghost paths: map<int, seq<int>>, ghost settled: set<int>, ghost expanded: seq<int>)
      requires Closed(graph.adjacency) && NonNegative(graph.adjacency)
      ensures !found ==> !Reachable(graph.adjacency, source, destination)
      ensures found ==> Tree(graph.adjacency, source, distances, previous, paths, settled)
      ensures found ==> destination in distances
                        && Shortest(graph.adjacency, paths[destination], source, destination)
      ensures Once(expanded, settled) && settled <= graph.adjacency.Keys
      ensures !found ==> forall v :: v in graph.adjacency && Reachable(graph.adjacency, source, v) ==> v in settled
    {
      var g := graph.adjacency;
      distances := map[source := 0];
      previous := map[];
      var heap: multiset<Entry> := multiset{(0, source)};
      settled, paths, expanded := {}, map[source := [source]], [];
      StartSearch(g, source);
      while heap != multiset{}
        invariant Searching(g, source, distances, previous, paths, settled, heap)
        invariant destination !in settled
        invariant Once(expanded, settled)
        decreases g.Keys - settled, |heap|
      {
        ghost var least := LeastEntry(heap);
        var top :| top in heap && forall f :: f in heap ==> NotAfter(top, f);
        var (current, node) := top;
        if node == destination {
          PoppedIsShortest(g, source, distances, previous, paths, settled, heap, top);
          found := true;
          return;
        }
        if current > distances[node] {
          DropStale(g, source, distances, previous, paths, settled, heap, top);
          heap := heap - multiset{top};
          continue;
        }
        if node !in g {
          NowhereToGo(g, source, distances, previous, paths, settled, node, destination);
          forall v | v in g ensures !Reachable(g, source, v) {
            NowhereToGo(g, source, distances, previous, paths, settled, node, v);
          }
          found := false;
          return;
        }
        Settle(g, source, distances, previous, paths, settled, heap, top);
        ExpandedOnce(expanded, settled, node);
        heap := heap - multiset{top};
        settled := settled + {node};
        expanded := expanded + [node];
        distances, previous, heap, paths :=
          Relax(source, node, current, distances, previous, heap, paths, settled);
      }
      forall v ensures Reachable(g, source, v) ==> v in settled {
        DryIsComplete(g, source, distances, previous, paths, settled, v);
      }
      found := false;
    }

    /** The inner loop of the search: relax every edge out of node. */
    method Relax(source: int, node: int, current: int, distances: map<int, int>, previous: map<int, int>,
                 heap: multiset<Entry>, ghost paths: map<int, seq<int>>, ghost settled: set<int>)
      returns (distances': map<int, int>, previous': map<int, int>, heap': multiset<Entry>,
               ghost paths': map<int, seq<int>>)
      requires NonNegative(graph.adjacency) && node in graph.adjacency
      requires node in distances && distances[node] == current
      requires Expanding(graph.adjacency, source, distances, previous, paths, settled, heap, node,
                         graph.adjacency[node].Items)
      ensures Searching(graph.adjacency, source, distances', previous', paths', settled, heap')
    {
      var g := graph.adjacency;
      distances', previous', heap', paths' := distances, previous, heap, paths;
      var todo := g[node].Items;
      while todo != {}
        invariant node in distances' && distances'[node] == current
        invariant Expanding(g, source, distances', previous', paths', settled, heap', node, todo)
      {
        var edge :| edge in todo;
        var (neighbor, delay) := edge;
        var newDistance := current + delay;
        if neighbor in distances' && newDistance >= distances'[neighbor] {
          NoImprovement(g, source, distances', previous', paths', settled, heap', node, todo, neighbor);
        } else {
          Improve(g, source, distances', previous', paths', settled, heap', node, todo, neighbor, newDistance);
          paths' := paths'[neighbor := paths'[node] + [neighbor]];
          distances' := distances'[neighbor := newDistance];
          previous' := previous'[neighbor := node];
          heap' := heap' + multiset{(newDistance, neighbor)};
        }
        todo := todo - {edge};
      }
      Expanded(g, source, distances', previous', paths', settled, heap', node);
    }

    /** Reads the route off the predecessors; the chain always ends at the source. */
    method Backtrack(source: int, destination: int, ghost distances: map<int, int>, previous: map<int, int>,
                     ghost paths: map<int, seq<int>>, ghost settled: set<int>)
      returns (route: seq<int>)
      requires Tree(graph.adjacency, source, distances, previous, paths, settled)
      requires destination in distances
      ensures route == paths[destination]
    {
      route := [destination];
      while route[|route| - 1] != source
        invariant route != [] && route[|route| - 1] in distances
        invariant paths[destination] == paths[route[|route| - 1]] + Reverse(route[..|route| - 1])
        decreases |paths[route[|route| - 1]]|
      {
        var last := route[|route| - 1];
        OneBack(paths[destination], paths[last], paths[previous[last]], route[..|route| - 1], last);
        Appended(route, previous[last]);
        route := route + [previous[last]];
      }
      Appended(route, source);
      ReverseSnoc(route[..|route| - 1], source);
      route := Reverse(route);
    }

    /** None where a pair of nodes has no route, which the source turns into a KeyError. */
    method BuildForwardingTables() returns (r: Option<Tables>)
      requires graph.Valid() && NonNegative(graph.adjacency)
      ensures r.Some? <==> Connected(graph.adjacency)
      ensures r.Some? ==> FirstHops(graph.adjacency, r.value)
    {
      var g := graph.adjacency;
      var tables: Tables := map[];
      for i := 0 to |graph.nodes|
        invariant tables.Keys == Elements(graph.nodes[..i])
        invariant forall v :: v in tables ==> Row(g, v, tables[v], g.Keys)
      {
        var source := graph.nodes[i];
        ElementsSnoc(graph.nodes, i);
        var table := BuildRow(source);
        if table == None {
          return None;
        }
        tables := tables[source := table.value];
      }
      assert graph.nodes[..|graph.nodes|] == graph.nodes;
      RowsAreTables(g, tables);
      r := Some(tables);
    }

    /** The inner loop over destinations: one independent route search each, of which only a hop is kept. */
    method BuildRow(source: int) returns (r: Option<map<int, int>>)
      requires graph.Valid() && NonNegative(graph.adjacency) && source in graph.adjacency
      ensures r.Some? ==> Row(graph.adjacency, source, r.value, graph.adjacency.Keys)
      ensures r.None? ==> !Connected(graph.adjacency)
    {
      var g := graph.adjacency;
      var table: map<int, int> := map[];
      for j := 0 to |graph.nodes|
        invariant Row(g, source, table, Elements(graph.nodes[..j]))
      {
        var destination := graph.nodes[j];
        ElementsSnoc(graph.nodes, j);
        if source != destination {
          var route, _ := GetRoute(source, destination);
          if route == None {
            return None;
          }
          RowExtended(g, source, table, Elements(graph.nodes[..j]), destination, route.value);
          table := table[destination := route.value[1]];
        } else {
          assert Joins(g, [source], source, source);
        }
      }
      assert graph.nodes[..|graph.nodes|] == graph.nodes;
      r := Some(table);
    }
  }

  lemma Appended(route: seq<int>, x: int)
    requires route != []
    ensures route == route[..|route| - 1] + [route[|route| - 1]]
    ensures (route + [x])[..|route + [x]| - 1] == route && (route + [x])[|route + [x]| - 1] == x
  {
  }

  /** One step back along a path moves its last node over to the part already read off. */
  lemma OneBack(whole: seq<int>, path: seq<int>, front: seq<int>, read: seq<int>, last: int)
    requires whole == path + Reverse(read) && path == front + [last]
    ensures whole == front + Reverse(read + [last])
  {
    ReverseSnoc(read, last);
  }

  /** The list holds each element of the set exactly once. */
  ghost predicate Once(s: seq<int>, all: set<int>) {
    NoRepeats(s) && Elements(s) == all
  }

  lemma ExpandedOnce(s: seq<int>, all: set<int>, v: int)
    requires Once(s, all) && v !in all
    ensures Once(s + [v], all + {v})
  {
    assert Elements(s + [v]) == Elements(s) + {v};
    forall i | 0 <= i < |s| ensures s[i] != v {
      assert s[i] in Elements(s);
    }
  }

  /** A row of the tables under construction: a reaches all of done, and the first hops there are kept. */
  ghost predicate Row(g: Graph, a: int, table: map<int, int>, done: set<int>) {
    && table.Keys == done - {a}
    && (forall d :: d in done ==> Reachable(g, a, d))
    && (forall d :: d in table ==> FirstHop(g, a, d, table[d]))
  }

  lemma RowExtended(g: Graph, a: int, table: map<int, int>, done: set<int>, d: int, route: seq<int>)
    requires NonNegative(g) && Row(g, a, table, done) && a != d && Shortest(g, route, a, d)
    ensures |route| > 1 && Row(g, a, table[d := route[1]], done + {d})
  {
    ShortestFirstHop(g, route, a, d);
  }

  lemma RowsAreTables(g: Graph, tables: Tables)
    requires tables.Keys == g.Keys && forall v :: v in tables ==> Row(g, v, tables[v], g.Keys)
    ensures Connected(g) && FirstHops(g, tables)
  {
  }
}
