/** The facts the shortest-path search of graph.py keeps while it runs. */
module Dijkstra {
  import opened Graphs

  // An entry of the search heap: (distance, node), compared as a Python tuple.
  type Entry = (int, int)

  predicate NotAfter(e: Entry, f: Entry) {
    e.0 < f.0 || (e.0 == f.0 && e.1 <= f.1)
  }

  lemma {:induction false} LeastEntry(heap: multiset<Entry>) returns (least: Entry)
    requires heap != multiset{}
    ensures least in heap && forall f :: f in heap ==> NotAfter(least, f)
    decreases |heap|
  {
    var e :| e in heap;
    var rest := heap - multiset{e};
    if rest == multiset{} {
      least := e;
      assert heap == multiset{e};
    } else {
      var m := LeastEntry(rest);
      least := if NotAfter(m, e) then m else e;
      forall f | f in heap ensures NotAfter(least, f) {
        assert f == e || f in rest;
      }
    }
  }

  /**
   * dist and prev form a tree rooted at the source: each labelled node has a walk of exactly its
   * label's delay, reached from its predecessor, and predecessors are final.
   */
  ghost predicate Tree(g: Graph, source: int, dist: map<int, int>, prev: map<int, int>,
                       paths: map<int, seq<int>>, settled: set<int>) {
    && paths.Keys == dist.Keys
    && prev.Keys == dist.Keys - {source}
    && source in dist && dist[source] == 0 && paths[source] == [source]
    && settled <= dist.Keys
    && (forall v :: v in dist ==> Joins(g, paths[v], source, v) && Cost(g, paths[v]) == dist[v])
    && (forall v :: v in prev ==> prev[v] in settled && paths[v] == paths[prev[v]] + [v])
  }

  /** Every labelled node is settled or waits in the heap with its label. */
  ghost predicate Waiting(dist: map<int, int>, settled: set<int>, heap: multiset<Entry>) {
    && (forall v :: v in dist && v !in settled ==> (dist[v], v) in heap)
    && (forall e :: e in heap ==>
          && e.1 in dist && heap[e] == 1
          && (if e.1 in settled then dist[e.1] < e.0 else dist[e.1] <= e.0))
  }

  /** Labels of settled nodes are not above anything still in the heap. */
  ghost predicate Below(dist: map<int, int>, settled: set<int>, heap: multiset<Entry>) {
    forall v, e :: v in settled && v in dist && e in heap ==> dist[v] <= e.0
  }

  /** Every edge out of a settled node has been relaxed, except those from node into todo. */
  ghost predicate Relaxed(g: Graph, dist: map<int, int>, settled: set<int>, node: int, todo: set<(int, int)>) {
    forall u, w :: u in settled && HasEdge(g, u, w) && !(u == node && (w, g[u][w]) in todo) ==>
                     u in dist && w in dist && dist[w] <= dist[u] + g[u][w]
  }

  /** The search between two heap pops; paths records, for the proof only, how each label arose. */
  ghost predicate Searching(g: Graph, source: int, dist: map<int, int>, prev: map<int, int>,
                            paths: map<int, seq<int>>, settled: set<int>, heap: multiset<Entry>) {
    && Tree(g, source, dist, prev, paths, settled)
    && Waiting(dist, settled, heap)
    && Below(dist, settled, heap)
    && settled <= g.Keys
    && Relaxed(g, dist, settled, source, {})
  }

  /** The search while the edges from node into todo are still to be relaxed. */
  ghost predicate Expanding(g: Graph, source: int, dist: map<int, int>, prev: map<int, int>,
                            paths: map<int, seq<int>>, settled: set<int>, heap: multiset<Entry>,
                            node: int, todo: set<(int, int)>) {
    && Tree(g, source, dist, prev, paths, settled)
    && Waiting(dist, settled, heap)
    && node in settled && node in dist && node in g
    && settled <= g.Keys
    && todo <= g[node].Items
    && (forall e :: e in heap ==> dist[node] <= e.0)
    && (forall v :: v in settled ==> v in dist && dist[v] <= dist[node])
    && Relaxed(g, dist, settled, node, todo)
  }

  lemma StartSearch(g: Graph, source: int)
    ensures Searching(g, source, map[source := 0], map[], map[source := [source]], {}, multiset{(0, source)})
  {
    assert Cost(g, [source]) == 0;
  }

  /** An entry that a shorter label has overtaken can be dropped. */
  lemma DropStale(g: Graph, source: int, dist: map<int, int>, prev: map<int, int>, paths: map<int, seq<int>>,
                  settled: set<int>, heap: multiset<Entry>, top: Entry)
    requires Searching(g, source, dist, prev, paths, settled, heap)
    requires top in heap && dist[top.1] < top.0
    ensures Searching(g, source, dist, prev, paths, settled, heap - multiset{top})
  {
  }

  lemma SettleWaiting(dist: map<int, int>, settled: set<int>, heap: multiset<Entry>, top: Entry)
    requires Waiting(dist, settled, heap) && top in heap && top.1 in dist && top.0 <= dist[top.1]
    ensures top.1 !in settled && dist[top.1] == top.0
    ensures Waiting(dist, settled + {top.1}, heap - multiset{top})
  {
  }

  lemma SettleOrder(dist: map<int, int>, settled: set<int>, heap: multiset<Entry>, top: Entry)
    requires Below(dist, settled, heap) && top in heap && top.1 in dist && dist[top.1] == top.0
    requires settled <= dist.Keys && forall f :: f in heap ==> NotAfter(top, f)
    ensures forall e :: e in heap - multiset{top} ==> dist[top.1] <= e.0
    ensures forall v :: v in settled + {top.1} ==> v in dist && dist[v] <= dist[top.1]
  {
  }

  /** Popping the least entry of an unsettled node settles it: its label is final. */
  lemma Settle(g: Graph, source: int, dist: map<int, int>, prev: map<int, int>, paths: map<int, seq<int>>,
               settled: set<int>, heap: multiset<Entry>, top: Entry)
    requires Searching(g, source, dist, prev, paths, settled, heap)
    requires top in heap && forall f :: f in heap ==> NotAfter(top, f)
    requires top.0 <= dist[top.1] && top.1 in g
    ensures top.1 !in settled && dist[top.1] == top.0
    ensures Expanding(g, source, dist, prev, paths, settled + {top.1}, heap - multiset{top},
                      top.1, g[top.1].Items)
  {
    SettleWaiting(dist, settled, heap, top);
    SettleOrder(dist, settled, heap, top);
  }

  /** Relaxing one edge to a shorter label: the tree stays a tree... */
  lemma ImproveTree(g: Graph, source: int, dist: map<int, int>, prev: map<int, int>, paths: map<int, seq<int>>,
                    settled: set<int>, node: int, neighbor: int)
    requires NonNegative(g) && Tree(g, source, dist, prev, paths, settled)
    requires node in settled && HasEdge(g, node, neighbor) && neighbor !in settled && neighbor != source
    ensures Tree(g, source, dist[neighbor := dist[node] + g[node][neighbor]], prev[neighbor := node],
                 paths[neighbor := paths[node] + [neighbor]], settled)
  {
    Extend(g, paths[node], neighbor);
  }

  /** ...the new label is the only one of its node in the heap that is current... */
  lemma ImproveWaiting(dist: map<int, int>, settled: set<int>, heap: multiset<Entry>, neighbor: int, shorter: int)
    requires Waiting(dist, settled, heap) && neighbor !in settled
    requires neighbor in dist ==> shorter < dist[neighbor]
    ensures (shorter, neighbor) !in heap
    ensures Waiting(dist[neighbor := shorter], settled, heap + multiset{(shorter, neighbor)})
  {
    assert (shorter, neighbor) !in heap;
    var heap' := heap + multiset{(shorter, neighbor)};
    assert forall e :: e in heap' ==> e == (shorter, neighbor) || e in heap;
  }

  /** ...and a smaller label only helps the edges already relaxed. */
  lemma ImproveRelaxed(g: Graph, dist: map<int, int>, settled: set<int>, node: int, todo: set<(int, int)>,
                       neighbor: int, shorter: int)
    requires Relaxed(g, dist, settled, node, todo)
    requires HasEdge(g, node, neighbor) && (neighbor, g[node][neighbor]) in todo
    requires neighbor !in settled && node in dist
    requires shorter == dist[node] + g[node][neighbor]
    requires neighbor in dist ==> shorter < dist[neighbor]
    ensures Relaxed(g, dist[neighbor := shorter], settled, node, todo - {(neighbor, g[node][neighbor])})
  {
    var dist' := dist[neighbor := shorter];
    var rest := todo - {(neighbor, g[node][neighbor])};
    forall u, w | u in settled && HasEdge(g, u, w) && !(u == node && (w, g[u][w]) in rest)
      ensures u in dist' && w in dist' && dist'[w] <= dist'[u] + g[u][w] {
      if u == node && w == neighbor {
      } else {
        assert dist[w] <= dist[u] + g[u][w];
      }
    }
  }

  /** A node that a settled node can still improve is neither settled nor the source. */
  lemma ImproveFresh(g: Graph, source: int, dist: map<int, int>, prev: map<int, int>, paths: map<int, seq<int>>,
                     settled: set<int>, node: int, neighbor: int)
    requires NonNegative(g) && Tree(g, source, dist, prev, paths, settled)
    requires node in dist && HasEdge(g, node, neighbor)
    requires forall v :: v in settled ==> v in dist && dist[v] <= dist[node]
    requires neighbor in dist ==> dist[node] + g[node][neighbor] < dist[neighbor]
    ensures neighbor !in settled && neighbor != source && neighbor != node
  {
    CostNonNegative(g, paths[node]);
  }

  /** The order of labels survives too: node has the largest settled one, and the heap holds none below it. */
  lemma ImproveOrder(dist: map<int, int>, settled: set<int>, heap: multiset<Entry>, node: int, neighbor: int,
                     shorter: int)
    requires node in dist && node != neighbor && neighbor !in settled && dist[node] <= shorter
    requires forall e :: e in heap ==> dist[node] <= e.0
    requires forall v :: v in settled ==> v in dist && dist[v] <= dist[node]
    ensures var dist' := dist[neighbor := shorter];
      && (forall e :: e in heap + multiset{(shorter, neighbor)} ==> dist'[node] <= e.0)
      && (forall v :: v in settled ==> v in dist' && dist'[v] <= dist'[node])
  {
    forall e | e in heap + multiset{(shorter, neighbor)} ensures dist[node] <= e.0 {
      assert e == (shorter, neighbor) || e in heap;
    }
  }

  /** ...so the whole state of the search is kept. */
  lemma Improve(g: Graph, source: int, dist: map<int, int>, prev: map<int, int>, paths: map<int, seq<int>>,
                settled: set<int>, heap: multiset<Entry>, node: int, todo: set<(int, int)>, neighbor: int, shorter: int)
    requires NonNegative(g) && Expanding(g, source, dist, prev, paths, settled, heap, node, todo)
    requires neighbor in g[node] && (neighbor, g[node][neighbor]) in todo && shorter == dist[node] + g[node][neighbor]
    requires neighbor in dist ==> shorter < dist[neighbor]
    ensures (shorter, neighbor) !in heap && neighbor != node
    ensures Expanding(g, source, dist[neighbor := shorter], prev[neighbor := node],
                      paths[neighbor := paths[node] + [neighbor]], settled,
                      heap + multiset{(shorter, neighbor)}, node, todo - {(neighbor, g[node][neighbor])})
  {
    assert HasEdge(g, node, neighbor);
    ImproveFresh(g, source, dist, prev, paths, settled, node, neighbor);
    ImproveTree(g, source, dist, prev, paths, settled, node, neighbor);
    ImproveWaiting(dist, settled, heap, neighbor, shorter);
    ImproveRelaxed(g, dist, settled, node, todo, neighbor, shorter);
    ImproveOrder(dist, settled, heap, node, neighbor, shorter);
  }

  /** An edge that offers nothing shorter is already relaxed. */
  lemma NoImprovement(g: Graph, source: int, dist: map<int, int>, prev: map<int, int>,
                      paths: map<int, seq<int>>, settled: set<int>, heap: multiset<Entry>,
                      node: int, todo: set<(int, int)>, neighbor: int)
    requires Expanding(g, source, dist, prev, paths, settled, heap, node, todo)
    requires neighbor in g[node] && (neighbor, g[node][neighbor]) in todo
    requires neighbor in dist && dist[node] + g[node][neighbor] >= dist[neighbor]
    ensures Expanding(g, source, dist, prev, paths, settled, heap, node, todo - {(neighbor, g[node][neighbor])})
  {
  }

  /** Once every edge out of node is relaxed the search is back between two pops. */
  lemma Expanded(g: Graph, source: int, dist: map<int, int>, prev: map<int, int>, paths: map<int, seq<int>>,
                 settled: set<int>, heap: multiset<Entry>, node: int)
    requires Expanding(g, source, dist, prev, paths, settled, heap, node, {})
    ensures Searching(g, source, dist, prev, paths, settled, heap)
  {
  }

  /** No walk undercuts a settled label or the least label still waiting. */
  lemma {:induction false} LowerBound(g: Graph, source: int, dist: map<int, int>, settled: set<int>,
                                      bound: int, p: seq<int>)
    requires NonNegative(g) && settled <= dist.Keys
    requires source in dist && dist[source] == 0
    requires forall v :: v in dist && v !in settled ==> bound <= dist[v]
    requires Relaxed(g, dist, settled, source, {})
    requires IsWalk(g, p) && p[0] == source
    ensures bound <= Cost(g, p) || (p[|p| - 1] in settled && dist[p[|p| - 1]] <= Cost(g, p))
  {
    if |p| > 1 {
      LowerBound(g, source, dist, settled, bound, p[..|p| - 1]);
      assert HasEdge(g, p[|p| - 2], p[|p| - 1]);
    }
  }

  /** When the destination itself is popped its label is the least delay of any walk to it. */
  lemma PoppedIsShortest(g: Graph, source: int, dist: map<int, int>, prev: map<int, int>,
                         paths: map<int, seq<int>>, settled: set<int>, heap: multiset<Entry>, top: Entry)
    requires NonNegative(g) && Searching(g, source, dist, prev, paths, settled, heap)
    requires top in heap && forall f :: f in heap ==> NotAfter(top, f)
    requires top.1 !in settled
    ensures Shortest(g, paths[top.1], source, top.1)
  {
    forall q | Joins(g, q, source, top.1) ensures Cost(g, paths[top.1]) <= Cost(g, q) {
      LowerBound(g, source, dist, settled, top.0, q);
    }
  }

  lemma EndsInside(g: Graph, p: seq<int>)
    requires Closed(g) && IsWalk(g, p)
    ensures |p| > 1 ==> p[0] in g && p[|p| - 1] in g
  {
    if |p| > 1 {
      assert HasEdge(g, p[0], p[1]) && HasEdge(g, p[|p| - 2], p[|p| - 1]);
    }
  }

  /** Only the source itself can be labelled without being a node, and then nothing else is reachable. */
  lemma NowhereToGo(g: Graph, source: int, dist: map<int, int>, prev: map<int, int>, paths: map<int, seq<int>>,
                    settled: set<int>, node: int, b: int)
    requires Closed(g) && Tree(g, source, dist, prev, paths, settled)
    requires node in dist && node !in g && b != node
    ensures !Reachable(g, source, b)
  {
    EndsInside(g, paths[node]);
    assert node == source;
    forall q | Joins(g, q, source, b) ensures false {
      EndsInside(g, q);
    }
  }

  /** Every node on the recorded way to a label but its end has been settled. */
  lemma {:induction false} WayIsSettled(g: Graph, source: int, dist: map<int, int>, prev: map<int, int>,
                                        paths: map<int, seq<int>>, settled: set<int>, v: int)
    requires Tree(g, source, dist, prev, paths, settled) && v in dist
    ensures forall i :: 0 <= i < |paths[v]| - 1 ==> paths[v][i] in settled
    decreases |paths[v]|
  {
    if v != source {
      WayIsSettled(g, source, dist, prev, paths, settled, prev[v]);
    }
  }

  /** When the heap runs dry every reachable node has been settled. */
  lemma DryIsComplete(g: Graph, source: int, dist: map<int, int>, prev: map<int, int>,
                      paths: map<int, seq<int>>, settled: set<int>, b: int)
    requires NonNegative(g) && Searching(g, source, dist, prev, paths, settled, multiset{})
    ensures Reachable(g, source, b) ==> b in settled
  {
    forall q | Joins(g, q, source, b) ensures b in settled {
      LowerBound(g, source, dist, settled, Cost(g, q) + 1, q);
    }
  }
}
