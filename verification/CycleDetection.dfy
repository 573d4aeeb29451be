/** The dependency analyzer, second half: a two-phase depth-first search and what its groups mean. */
module CycleDetection {
  import opened Dependencies
  import opened Graphs
  import opened Grouping

  // ---------- phase one: finishing order ----------

  /** Every successor of a listed vertex is listed before it, or leads back to it. */
  ghost predicate FinishOrdered(g: Graph, order: seq<string>) {
    forall i, w :: 0 <= i < |order| && Edge(g, order[i], w) ==> w in order[..i] || Reach(g, w, order[i])
  }

  // ---------- phase two: groups ----------

  /** Everything reached from one of the first `n` listed vertices. */
  ghost function Covered(g: Graph, order: seq<string>, n: nat): set<string>
    requires n <= |order|
  {
    set v | v in g.Keys && exists j :: 0 <= j < n && Reach(g, order[j], v)
  }

  /** The group rooted at position `i`: what its root reaches minus what earlier roots reached. */
  ghost function GroupAt(g: Graph, order: seq<string>, i: nat): set<string>
    requires i < |order|
  {
    ReachSet(g, order[i]) - Covered(g, order, i)
  }

  /** `components` holds exactly the non-empty groups of the first `n` vertices, each listed from its root without
      repetition. */
  ghost predicate GroupsOf(g: Graph, order: seq<string>, n: nat, components: map<string, seq<string>>)
    requires n <= |order|
  {
    && (forall r :: r in components ==> exists i :: 0 <= i < n && order[i] == r && order[i] !in Covered(g, order, i))
    && (forall i :: 0 <= i < n && order[i] !in Covered(g, order, i) ==>
          order[i] in components && IsGroup(g, order, i, components[order[i]]))
  }

  ghost predicate IsGroup(g: Graph, order: seq<string>, i: nat, group: seq<string>)
    requires i < |order|
  {
    group != [] && group[0] == order[i] && Distinct(group) && Elements(group) == GroupAt(g, order, i)
  }

  ghost predicate ListsAll(g: Graph, order: seq<string>) {
    Distinct(order) && Elements(order) == g.Keys
  }

  /** The outcome of both phases. */
  ghost predicate Analysed(g: Graph, order: seq<string>, components: map<string, seq<string>>) {
    ListsAll(g, order) && FinishOrdered(g, order) && GroupsOf(g, order, |order|, components)
  }

  class Traversal {
    const graph: Graph
    var visited: map<string, bool>
    var orderedVertices: seq<string>
    var placed: map<string, bool>
    var components: map<string, seq<string>>

    constructor (graph: Graph)
      ensures this.graph == graph
      ensures orderedVertices == [] && components == map[]
      ensures visited == (map k | k in graph :: false) && placed == (map k | k in graph :: false)
    {
      this.graph := graph;
      visited := map k | k in graph :: false;
      placed := map k | k in graph :: false;
      components := map[];
      orderedVertices := [];
    }

    ghost function Visited(): set<string>
      reads this
    {
      set k | k in visited && visited[k]
    }

    /** Vertices whose visit has begun but not finished. */
    ghost function Open(): set<string>
      reads this
    {
      Visited() - Elements(orderedVertices)
    }

    ghost predicate PhaseOne()
      reads this
    {
      && Closed(graph)
      && Visited() <= graph.Keys
      && Distinct(orderedVertices) && Elements(orderedVertices) <= Visited()
      && FinishOrdered(graph, orderedVertices)
    }

    method VisitVertex(vertex: string)
      requires PhaseOne() && vertex in graph
      requires forall x :: x in Open() ==> Reach(graph, x, vertex)
      modifies this`visited, this`orderedVertices
      ensures PhaseOne() && vertex in Visited()
      ensures old(Visited()) <= Visited() && old(orderedVertices) <= orderedVertices
      ensures Open() == old(Open())
      decreases graph.Keys - Visited()
    {
      if !(vertex in visited && visited[vertex]) {
        ghost var before := Open();
        visited := visited[vertex := true];
        assert Visited() == old(Visited()) + {vertex};
        assert Open() == before + {vertex};
        ReachSelf(graph, vertex);
        for i := 0 to |graph[vertex]|
          invariant PhaseOne() && old(Visited()) + {vertex} <= Visited()
          invariant old(orderedVertices) <= orderedVertices
          invariant Open() == before + {vertex}
          invariant forall j :: 0 <= j < i ==> graph[vertex][j] in Visited()
        {
          assert Edge(graph, vertex, graph[vertex][i]);
          forall x | x in Open() ensures Reach(graph, x, graph[vertex][i]) {
            ReachBeforeEdge(graph, x, vertex, graph[vertex][i]);
          }
          VisitVertex(graph[vertex][i]);
        }
        Finish(vertex, before);
      }
    }

    method Finish(vertex: string, ghost before: set<string>)
      requires PhaseOne() && vertex in graph && vertex !in before
      requires Open() == before + {vertex}
      requires forall x :: x in Open() ==> Reach(graph, x, vertex)
      requires forall w :: w in graph[vertex] ==> w in Visited()
      modifies this`orderedVertices
      ensures PhaseOne() && Open() == before && orderedVertices == old(orderedVertices) + [vertex]
    {
      orderedVertices := orderedVertices + [vertex];
      assert Elements(orderedVertices) == old(Elements(orderedVertices)) + {vertex};
      var order := orderedVertices;
      forall i, w | 0 <= i < |order| && Edge(graph, order[i], w) ensures w in order[..i] || Reach(graph, w, order[i]) {
        if i < |order| - 1 {
          assert order[..i] == old(orderedVertices)[..i];
        } else {
          assert order[..i] == old(orderedVertices);
        }
      }
    }

    ghost function Assigned(): set<string>
      reads this
    {
      set k | k in placed && placed[k]
    }

    /** Assigns to `root` every vertex reached from `vertex` through vertices not assigned before; `added` is what the
        list of `root` gained. */
    method AssignVertex(vertex: string, root: string) returns (ghost added: seq<string>)
      requires Closed(graph) && vertex in graph && Assigned() <= graph.Keys
      modifies this`placed, this`components
      ensures Assigned() == old(Assigned()) + Elements(added) <= graph.Keys && vertex in Assigned()
      ensures Elements(added) !! old(Assigned()) && Distinct(added)
      ensures components == Appended(old(components), root, added)
      ensures vertex !in old(Assigned()) ==> added != [] && added[0] == vertex
      ensures forall x :: x in added ==> Reach(graph, vertex, x)
      ensures Settled(graph, Elements(added), Assigned())
      decreases graph.Keys - Assigned()
    {
      added := [];
      if !(vertex in placed && placed[vertex]) {
        Place(vertex, root);
        ReachSelf(graph, vertex);
        ghost var known, before := old(Assigned()), old(components);
        added := [vertex];
        assert Elements(added) - {vertex} == {};
        assert Settled(graph, Elements(added) - {vertex}, Assigned());
        hide Settled;
        hide Appended;
        hide Reach;
        for i := 0 to |graph[vertex]|
          invariant Assigned() == known + Elements(added) <= graph.Keys
          invariant added != [] && added[0] == vertex
          invariant Elements(added) !! known && Distinct(added)
          invariant components == Appended(before, root, added)
          invariant forall x :: x in added ==> Reach(graph, vertex, x)
          invariant Settled(graph, Elements(added) - {vertex}, Assigned())
          invariant forall j :: 0 <= j < i ==> graph[vertex][j] in Assigned()
        {
          var w := graph[vertex][i];
          assert Edge(graph, vertex, w);
          ghost var more := AssignVertex(w, root);
          AppendDistinct(added, more);
          AppendedTwice(before, root, added, more);
          ReachAllAfterEdge(graph, vertex, w, more);
          SettledMore(graph, added, more, vertex, Assigned() - Elements(more), Assigned());
          added := added + more;
        }
        SettledAfter(graph, Elements(added), vertex, Assigned());
      }
    }

    method Place(vertex: string, root: string)
      modifies this`placed, this`components
      ensures Assigned() == old(Assigned()) + {vertex}
      ensures components == Appended(old(components), root, [vertex])
    {
      var component := [];
      if root in components {
        component := components[root];
      } else {
        components := components[root := component];
      }
      components := components[root := component + [vertex]];
      placed := placed[vertex := true];
    }

    /** Assigning a root when everything assigned so far is what earlier roots reach. */
    method AssignRoot(n: nat)
      requires Closed(graph) && ListsAll(graph, orderedVertices) && n < |orderedVertices|
      requires Assigned() == Covered(graph, orderedVertices, n)
      requires GroupsOf(graph, orderedVertices, n, components)
      modifies this`placed, this`components
      ensures Assigned() == Covered(graph, orderedVertices, n + 1)
      ensures GroupsOf(graph, orderedVertices, n + 1, components)
    {
      var root := orderedVertices[n];
      assert root in Elements(orderedVertices);
      ghost var added := AssignVertex(root, root);
      RootAssigned(graph, orderedVertices, n, old(components), added);
    }
  }

  // ---------- the growth of one group ----------

  /** The list kept for a root, empty when there is none yet. */
  function ListOf(components: map<string, seq<string>>, root: string): seq<string> {
    if root in components then components[root] else []
  }

  function Appended(components: map<string, seq<string>>, root: string, added: seq<string>): map<string, seq<string>> {
    if added == [] then components else components[root := ListOf(components, root) + added]
  }

  lemma AppendedTwice(components: map<string, seq<string>>, root: string, a: seq<string>, b: seq<string>)
    ensures Appended(Appended(components, root, a), root, b) == Appended(components, root, a + b)
  {
    if a == [] {
      assert a + b == b;
    } else if b == [] {
      assert a + b == a;
    } else {
      assert (ListOf(components, root) + a) + b == ListOf(components, root) + (a + b);
    }
  }

  /** Every edge out of `s` ends in `known`. */
  ghost predicate Settled(g: Graph, s: set<string>, known: set<string>) {
    forall x, y :: x in s && Edge(g, x, y) ==> y in known
  }

  lemma SettledMore(g: Graph, added: seq<string>, more: seq<string>, vertex: string, known1: set<string>,
                    known2: set<string>)
    requires known1 <= known2
    requires Settled(g, Elements(added) - {vertex}, known1) && Settled(g, Elements(more), known2)
    ensures Settled(g, Elements(added + more) - {vertex}, known2)
  {
  }

  lemma SettledAfter(g: Graph, s: set<string>, vertex: string, known: set<string>)
    requires Settled(g, s - {vertex}, known)
    requires vertex in g ==> forall w :: w in g[vertex] ==> w in known
    ensures Settled(g, s, known)
  {
    forall x, y | x in s && Edge(g, x, y) ensures y in known {
      assert x == vertex || x in s - {vertex};
    }
  }

  lemma ReachAllAfterEdge(g: Graph, u: string, v: string, s: seq<string>)
    requires Edge(g, u, v) && forall x :: x in s ==> Reach(g, v, x)
    ensures forall x :: x in s ==> Reach(g, u, x)
  {
    forall x | x in s ensures Reach(g, u, x) {
      ReachAfterEdge(g, u, v, x);
    }
  }

  lemma RootAssigned(g: Graph, order: seq<string>, n: nat, before: map<string, seq<string>>, added: seq<string>)
    requires Closed(g) && ListsAll(g, order) && n < |order| && order[n] in g
    requires GroupsOf(g, order, n, before)
    requires var known2 := Covered(g, order, n) + Elements(added);
      order[n] in known2 && known2 <= g.Keys && Settled(g, Elements(added), known2)
    requires Distinct(added) && Elements(added) !! Covered(g, order, n)
    requires forall x :: x in added ==> Reach(g, order[n], x)
    requires order[n] !in Covered(g, order, n) ==> added != [] && added[0] == order[n]
    ensures Covered(g, order, n) + Elements(added) == Covered(g, order, n + 1)
    ensures GroupsOf(g, order, n + 1, Appended(before, order[n], added))
  {
    var root, known := order[n], Covered(g, order, n);
    var known2 := known + Elements(added);
    CoveredClosed(g, order, n);
    assert ClosedSet(g, known2);
    CoveredGrows(g, order, n, known2);
    if root in known {
      NothingAdded(g, known, root, added);
      GroupsSame(g, order, n, before);
    } else {
      assert root !in before;
      assert [] + added == added;
      assert Elements(added) == known2 - known;
      GroupsGrow(g, order, n, before, added);
    }
  }

  lemma NothingAdded(g: Graph, known: set<string>, root: string, added: seq<string>)
    requires ClosedSet(g, known) && root in known && Elements(added) !! known
    requires Distinct(added) && forall x :: x in added ==> Reach(g, root, x)
    ensures added == []
  {
    ReachStaysInsideAll(g, known, root);
    assert Elements(added) == Elements(added) * known == {};
    DistinctCount(added);
  }

  lemma GroupsSame(g: Graph, order: seq<string>, n: nat, components: map<string, seq<string>>)
    requires n < |order| && order[n] in Covered(g, order, n)
    requires GroupsOf(g, order, n, components)
    ensures GroupsOf(g, order, n + 1, components)
  {
  }

  lemma GroupsGrow(g: Graph, order: seq<string>, n: nat, before: map<string, seq<string>>, group: seq<string>)
    requires n < |order| && Distinct(order)
    requires GroupsOf(g, order, n, before)
    requires order[n] !in Covered(g, order, n) && IsGroup(g, order, n, group)
    ensures GroupsOf(g, order, n + 1, before[order[n] := group])
  {
    var after := before[order[n] := group];
    forall i | 0 <= i < n + 1 && order[i] !in Covered(g, order, i)
      ensures order[i] in after && IsGroup(g, order, i, after[order[i]])
    {
      if i < n { assert order[i] in before; }
    }
    forall r | r in after ensures exists i :: 0 <= i < n + 1 && order[i] == r && order[i] !in Covered(g, order, i) {
      if r in before {
        var i :| 0 <= i < n && order[i] == r && order[i] !in Covered(g, order, i);
      }
    }
  }

  lemma CoveredGrows(g: Graph, order: seq<string>, n: nat, known2: set<string>)
    requires n < |order| && order[n] in known2 && ClosedSet(g, known2) && known2 <= g.Keys
    requires Covered(g, order, n) <= known2
    requires forall x :: x in known2 - Covered(g, order, n) ==> Reach(g, order[n], x)
    ensures known2 == Covered(g, order, n + 1)
    ensures known2 - Covered(g, order, n) == ReachSet(g, order[n]) - Covered(g, order, n)
  {
    forall x | x in g.Keys && Reach(g, order[n], x) ensures x in known2 {
      ReachStaysInside(g, known2, order[n], x);
    }
    forall x | x in Covered(g, order, n + 1) ensures x in known2 {
      var j :| 0 <= j < n + 1 && Reach(g, order[j], x);
      if j < n { assert x in Covered(g, order, n); }
    }
    forall x | x in known2 ensures x in Covered(g, order, n + 1) {
      if x in Covered(g, order, n) {
        var j :| 0 <= j < n && Reach(g, order[j], x);
      }
    }
  }

  lemma ReachStaysInsideAll(g: Graph, s: set<string>, u: string)
    requires ClosedSet(g, s) && u in s
    ensures forall x :: Reach(g, u, x) ==> x in s
  {
    forall x | Reach(g, u, x) ensures x in s {
      ReachStaysInside(g, s, u, x);
    }
  }

  lemma AppendDistinct(a: seq<string>, b: seq<string>)
    requires Distinct(a) && Distinct(b) && Elements(a) !! Elements(b)
    ensures Distinct(a + b) && Elements(a + b) == Elements(a) + Elements(b)
  {
    forall i, j | 0 <= i < j < |a + b| ensures (a + b)[i] != (a + b)[j] {
      if i < |a| <= j {
        assert a[i] in Elements(a) && b[j - |a|] in Elements(b);
      }
    }
    forall x | x in Elements(a) + Elements(b) ensures x in Elements(a + b) {
    }
  }

  lemma CoveredClosed(g: Graph, order: seq<string>, n: nat)
    requires Closed(g) && n <= |order|
    ensures ClosedSet(g, Covered(g, order, n))
  {
    forall u, v | u in Covered(g, order, n) && Edge(g, u, v) ensures v in Covered(g, order, n) {
      var j :| 0 <= j < n && Reach(g, order[j], u);
      ReachBeforeEdge(g, order[j], u, v);
    }
  }

  // ---------- what the groups mean ----------

  ghost predicate SeveralAmong(components: map<string, seq<string>>, roots: set<string>, c: seq<string>) {
    |c| > 1 && exists r :: r in roots && r in components && c == components[r]
  }

  ghost predicate LoopAmong(g: Graph, keys: set<string>, c: seq<string>) {
    |c| == 2 && c[0] == c[1] && c[0] in keys && Edge(g, c[0], c[0])
  }

  /** A group of several vertices, or the doubled name of a vertex that depends on itself. */
  ghost predicate Reported(g: Graph, components: map<string, seq<string>>, c: seq<string>) {
    SeveralAmong(components, components.Keys, c) || LoopAmong(g, g.Keys, c)
  }

  lemma PositionOf(g: Graph, order: seq<string>, v: string) returns (i: nat)
    requires ListsAll(g, order) && v in g
    ensures i < |order| && order[i] == v
  {
    assert v in Elements(order);
    i :| 0 <= i < |order| && order[i] == v;
  }

  /** The first root that reaches a vertex is the root of its group. */
  lemma {:induction false} FirstCover(g: Graph, order: seq<string>, n: nat, v: string) returns (i: nat)
    requires n < |order| && v in g && Reach(g, order[n], v)
    ensures i < |order| && v in GroupAt(g, order, i)
    decreases n
  {
    i := n;
    if v in Covered(g, order, n) {
      var j :| 0 <= j < n && Reach(g, order[j], v);
      i := FirstCover(g, order, j, v);
    }
  }

  /** The groups partition the vertices. */
  lemma GroupsPartition(g: Graph, order: seq<string>, components: map<string, seq<string>>, v: string)
    requires Analysed(g, order, components) && v in g
    ensures exists r :: r in components && v in components[r]
    ensures forall r, s :: r in components && s in components && v in components[r] && v in components[s] ==> r == s
  {
    var n := PositionOf(g, order, v);
    ReachSelf(g, v);
    var i := FirstCover(g, order, n, v);
    assert order[i] !in Covered(g, order, i) by {
      if order[i] in Covered(g, order, i) {
        var j :| 0 <= j < i && Reach(g, order[j], order[i]);
        ReachTransitive(g, order[j], order[i], v);
      }
    }
    assert order[i] in components && v in Elements(components[order[i]]);
    forall r, s | r in components && s in components && v in components[r] && v in components[s] ensures r == s {
      OneGroup(g, order, components, v, r, s);
    }
  }

  lemma OneGroup(g: Graph, order: seq<string>, components: map<string, seq<string>>, v: string, r: string, s: string)
    requires Analysed(g, order, components) && r in components && s in components
    requires v in components[r] && v in components[s]
    ensures r == s
  {
    var a :| 0 <= a < |order| && order[a] == r && order[a] !in Covered(g, order, a);
    var b :| 0 <= b < |order| && order[b] == s && order[b] !in Covered(g, order, b);
    assert v in Elements(components[r]) && v in Elements(components[s]);
    assert v in GroupAt(g, order, a) && v in GroupAt(g, order, b);
  }

  /** Vertices that reach each other are never separated. */
  lemma MutuallyReachableTogether(g: Graph, order: seq<string>, components: map<string, seq<string>>,
                                  r: string, u: string, v: string)
    requires Closed(g) && Analysed(g, order, components)
    requires r in components && u in components[r] && Reach(g, u, v) && Reach(g, v, u)
    ensures v in components[r]
  {
    var i :| 0 <= i < |order| && order[i] == r && order[i] !in Covered(g, order, i);
    assert u in Elements(components[r]);
    assert u in GroupAt(g, order, i);
    ReachInGraph(g, u, v);
    ReachTransitive(g, r, u, v);
    assert v !in Covered(g, order, i) by {
      if v in Covered(g, order, i) {
        var j :| 0 <= j < i && Reach(g, order[j], v);
        ReachTransitive(g, order[j], v, u);
      }
    }
    assert v in Elements(components[r]);
  }

  /** A group of several vertices has its root on a directed cycle that stays inside the group. */
  lemma RootOnCycle(g: Graph, order: seq<string>, components: map<string, seq<string>>,
                    r: string) returns (p: seq<string>)
    requires Closed(g) && Analysed(g, order, components)
    requires r in components && |components[r]| > 1
    ensures IsCycle(g, p) && p[0] == r && forall k :: 0 <= k < |p| ==> p[k] in components[r]
  {
    var i :| 0 <= i < |order| && order[i] == r && order[i] !in Covered(g, order, i);
    var x := components[r][1];
    assert x in Elements(components[r]) && x != r;
    assert x in GroupAt(g, order, i);
    var w := ReachFirstStep(g, r, x);
    assert forall j :: 0 <= j < i ==> !Reach(g, order[j], x);
    assert w !in order[..i];
    assert Reach(g, w, r);
    p := CycleThroughEdge(g, r, w);
    forall k | 0 <= k < |p| ensures p[k] in components[r] {
      CycleVerticesReachEachOther(g, p, 0, k);
      CycleVerticesReachEachOther(g, p, k, 0);
      assert r in components[r];
      MutuallyReachableTogether(g, order, components, r, r, p[k]);
    }
  }

  /** Every directed cycle lies inside something reported. */
  lemma CycleIsReported(g: Graph, order: seq<string>, components: map<string, seq<string>>, p: seq<string>)
    returns (cycle: seq<string>)
    requires Closed(g) && Analysed(g, order, components) && IsCycle(g, p)
    ensures Reported(g, components, cycle)
    ensures forall k :: 0 <= k < |p| ==> p[k] in cycle
  {
    assert Edge(g, p[0], p[1]);
    GroupsPartition(g, order, components, p[0]);
    var r :| r in components && p[0] in components[r];
    cycle := components[r];
    CycleInsideGroup(g, order, components, r, p);
    if |cycle| <= 1 {
      SingleVertexCycle(g, p, cycle);
      cycle := [p[0], p[0]];
    }
  }

  lemma CycleInsideGroup(g: Graph, order: seq<string>, components: map<string, seq<string>>, r: string, p: seq<string>)
    requires Closed(g) && Analysed(g, order, components) && IsCycle(g, p)
    requires r in components && p[0] in components[r]
    ensures forall k :: 0 <= k < |p| ==> p[k] in components[r]
  {
    forall k | 0 <= k < |p| ensures p[k] in components[r] {
      CycleVerticesReachEachOther(g, p, 0, k);
      CycleVerticesReachEachOther(g, p, k, 0);
      MutuallyReachableTogether(g, order, components, r, p[0], p[k]);
    }
  }

  lemma SingleVertexCycle(g: Graph, p: seq<string>, group: seq<string>)
    requires IsCycle(g, p) && |group| <= 1 && forall k :: 0 <= k < |p| ==> p[k] in group
    ensures Edge(g, p[0], p[0])
    ensures forall k :: 0 <= k < |p| ==> p[k] in [p[0], p[0]]
  {
    forall k | 0 <= k < |p| ensures p[k] == p[0] {
      assert p[0] in group && p[k] in group;
    }
    assert p[1] == p[0];
  }

  // ---------- the analyzer ----------

  /** `c` starts at a vertex of a directed cycle that stays inside `c`. */
  ghost predicate StartsOnCycle(g: Graph, c: seq<string>) {
    c != [] && exists p :: IsCycle(g, p) && p[0] == c[0] && forall k :: 0 <= k < |p| ==> p[k] in c
  }

  ghost predicate Encloses(c: seq<string>, p: seq<string>) {
    forall k :: 0 <= k < |p| ==> p[k] in c
  }

  lemma ReportedStartsOnCycle(g: Graph, order: seq<string>, components: map<string, seq<string>>, c: seq<string>)
    requires Closed(g) && Analysed(g, order, components) && Reported(g, components, c)
    ensures StartsOnCycle(g, c)
  {
    if SeveralAmong(components, components.Keys, c) {
      var r :| r in components && c == components[r];
      var i :| 0 <= i < |order| && order[i] == r && order[i] !in Covered(g, order, i);
      var p := RootOnCycle(g, order, components, r);
    } else {
      assert IsCycle(g, c);
    }
  }

  method DetectCycles(deps: seq<Dependency>, flows: map<string, Flow>, flow: Flow, useDestructionSelector: bool)
    returns (cycles: seq<seq<string>>)
    ensures cycles == [] <==> Acyclic(GroupedGraph(deps, flows, flow, useDestructionSelector))
    ensures forall c :: c in cycles ==> StartsOnCycle(GroupedGraph(deps, flows, flow, useDestructionSelector), c)
    ensures forall p :: IsCycle(GroupedGraph(deps, flows, flow, useDestructionSelector), p) ==>
      exists c :: c in cycles && Encloses(c, p)
  {
    hide GroupedGraph;
    hide StartsOnCycle;
    hide Encloses;
    hide Acyclic;
    hide IsCycle;
    hide Reported;
    var graph := GroupDependentResources(deps, flows, flow, useDestructionSelector);
    var walk := new Traversal(graph);
    OrderVertices(walk);
    AssignComponents(walk);
    cycles := CollectCycles(graph, walk.components);
    ReportIsExact(graph, walk.orderedVertices, walk.components, cycles);
  }

  lemma ReportIsExact(g: Graph, order: seq<string>, components: map<string, seq<string>>, cycles: seq<seq<string>>)
    requires Closed(g) && Analysed(g, order, components)
    requires forall c :: c in cycles <==> Reported(g, components, c)
    ensures cycles == [] <==> Acyclic(g)
    ensures forall c :: c in cycles ==> StartsOnCycle(g, c)
    ensures forall p :: IsCycle(g, p) ==> exists c :: c in cycles && Encloses(c, p)
  {
    hide Analysed;
    hide Reported;
    hide StartsOnCycle;
    hide Acyclic;
    hide IsCycle;
    forall c | c in cycles ensures StartsOnCycle(g, c) {
      ReportedStartsOnCycle(g, order, components, c);
    }
    forall p | IsCycle(g, p) ensures exists c :: c in cycles && Encloses(c, p) {
      var c := CycleIsReported(g, order, components, p);
      assert c in cycles && Encloses(c, p);
    }
    EmptyIffAcyclic(g, cycles);
  }

  /** A list of genuine cycles that misses none is empty exactly for an acyclic graph. */
  lemma EmptyIffAcyclic(g: Graph, cycles: seq<seq<string>>)
    requires forall c :: c in cycles ==> StartsOnCycle(g, c)
    requires forall p :: IsCycle(g, p) ==> exists c :: c in cycles && Encloses(c, p)
    ensures cycles == [] <==> Acyclic(g)
  {
    if cycles != [] {
      assert StartsOnCycle(g, cycles[0]);
    }
  }

  /** Phase one, over the vertices in any order. */
  method OrderVertices(walk: Traversal)
    requires Closed(walk.graph) && walk.orderedVertices == []
    requires walk.Visited() == {}
    modifies walk`visited, walk`orderedVertices
    ensures ListsAll(walk.graph, walk.orderedVertices) && FinishOrdered(walk.graph, walk.orderedVertices)
  {
    var todo := walk.graph.Keys;
    while todo != {}
      invariant todo <= walk.graph.Keys
      invariant walk.PhaseOne() && walk.Open() == {}
      invariant walk.graph.Keys - todo <= walk.Visited()
      decreases todo
    {
      var key :| key in todo;
      walk.VisitVertex(key);
      todo := todo - {key};
    }
    assert walk.Visited() == walk.graph.Keys;
    forall x | x in walk.Visited() ensures x in Elements(walk.orderedVertices) {
      assert x !in walk.Open();
    }
    assert Elements(walk.orderedVertices) == walk.Visited();
  }

  /** Phase two, over the finishing order from its front. */
  method AssignComponents(walk: Traversal)
    requires Closed(walk.graph) && ListsAll(walk.graph, walk.orderedVertices)
    requires walk.Assigned() == {} && walk.components == map[]
    modifies walk`placed, walk`components
    ensures GroupsOf(walk.graph, walk.orderedVertices, |walk.orderedVertices|, walk.components)
  {
    assert Covered(walk.graph, walk.orderedVertices, 0) == {};
    assert GroupsOf(walk.graph, walk.orderedVertices, 0, walk.components);
    hide Covered;
    hide GroupsOf;
    hide ListsAll;
    for n := 0 to |walk.orderedVertices|
      invariant walk.Assigned() == Covered(walk.graph, walk.orderedVertices, n)
      invariant GroupsOf(walk.graph, walk.orderedVertices, n, walk.components)
    {
      walk.AssignRoot(n);
    }
  }

  method CollectCycles(graph: Graph, components: map<string, seq<string>>) returns (cycles: seq<seq<string>>)
    ensures forall c :: c in cycles <==> Reported(graph, components, c)
  {
    cycles := [];
    var roots := components.Keys;
    while roots != {}
      invariant roots <= components.Keys
      invariant forall c :: c in cycles <==> SeveralAmong(components, components.Keys - roots, c)
      decreases roots
    {
      var r :| r in roots;
      roots := roots - {r};
      if |components[r]| > 1 {
        cycles := cycles + [components[r]];
      }
      forall c ensures SeveralAmong(components, components.Keys - roots, c) <==>
          SeveralAmong(components, components.Keys - roots - {r}, c) || (|c| > 1 && c == components[r])
      {
      }
    }
    cycles := AppendSelfLoops(graph, cycles);
  }

  method AppendSelfLoops(graph: Graph, groups: seq<seq<string>>) returns (cycles: seq<seq<string>>)
    ensures forall c :: c in cycles <==> c in groups || LoopAmong(graph, graph.Keys, c)
  {
    cycles := groups;
    var keys := graph.Keys;
    while keys != {}
      invariant keys <= graph.Keys
      invariant forall c :: c in cycles <==> c in groups || LoopAmong(graph, graph.Keys - keys, c)
      decreases keys
    {
      var key :| key in keys;
      ghost var before := cycles;
      for i := 0 to |graph[key]|
        invariant forall c :: c in cycles <==> c in before || (c == [key, key] && key in graph[key][..i])
      {
        if key == graph[key][i] {
          cycles := cycles + [[key, key]];
        }
      }
      assert graph[key][..|graph[key]|] == graph[key];
      keys := keys - {key};
    }
  }

  // ---------- every flow, both paths ----------

  /** The flows the check runs over: the defined ones, and a default one when none is defined. */
  function FlowsToCheck(resDefs: map<string, ResourceDefinition>): map<string, Flow> {
    (map k | k in resDefs && resDefs[k].flow.Some? :: resDefs[k].flow.value) +
    (if DEFAULT_FLOW_KEY in resDefs then map[] else map[DEFAULT_FLOW_KEY := DefaultFlow()])
  }

  ghost predicate AcyclicAmong(deps: seq<Dependency>, flows: map<string, Flow>, keys: set<string>) {
    forall k, b :: k in keys && k in flows ==> Acyclic(GroupedGraph(deps, flows, flows[k], b))
  }

  ghost predicate NoCycles(deps: seq<Dependency>, resDefs: map<string, ResourceDefinition>) {
    AcyclicAmong(deps, FlowsToCheck(resDefs), FlowsToCheck(resDefs).Keys)
  }

  method CollectFlows(resDefs: map<string, ResourceDefinition>) returns (flows: map<string, Flow>)
    requires WellKeyed(resDefs)
    ensures flows == FlowsToCheck(resDefs)
  {
    hide FlowKey;
    hide IsFlowKey;
    flows := map[];
    if DEFAULT_FLOW_KEY !in resDefs {
      flows := flows[DEFAULT_FLOW_KEY := DefaultFlow()];
    }
    var defs := resDefs.Keys;
    while defs != {}
      invariant defs <= resDefs.Keys
      invariant forall k :: k in flows <==>
        (k in resDefs && k !in defs && resDefs[k].flow.Some?) || (k == DEFAULT_FLOW_KEY && DEFAULT_FLOW_KEY !in resDefs)
      invariant forall k :: k in flows ==> flows[k] == if k in resDefs then resDefs[k].flow.value else DefaultFlow()
      decreases defs
    {
      var k :| k in defs;
      defs := defs - {k};
      if resDefs[k].flow.Some? {
        assert FlowKey(resDefs[k].flow.value) == k;
        flows := flows[FlowKey(resDefs[k].flow.value) := resDefs[k].flow.value];
      }
    }
  }

  /** The check passes exactly when, for every flow and both of its paths, the grouped graph is acyclic. */
  method EnsureNoCycles(deps: seq<Dependency>, resDefs: map<string, ResourceDefinition>) returns (ok: bool)
    requires WellKeyed(resDefs)
    ensures ok <==> NoCycles(deps, resDefs)
  {
    hide GroupedGraph;
    hide Acyclic;
    var flows := CollectFlows(resDefs);
    var cycles := [];
    var keys := flows.Keys;
    ghost var done := {};
    while keys != {}
      invariant keys <= flows.Keys && done == flows.Keys - keys
      invariant cycles == [] <==> AcyclicAmong(deps, flows, done)
      decreases keys
    {
      var k :| k in keys;
      var found := BothPaths(deps, flows, flows[k]);
      AcyclicAmongMore(deps, flows, done, k);
      cycles := cycles + found;
      keys, done := keys - {k}, done + {k};
    }
    ok := |cycles| == 0;
    assert done == flows.Keys;
  }

  method BothPaths(deps: seq<Dependency>, flows: map<string, Flow>, flow: Flow) returns (cycles: seq<seq<string>>)
    ensures cycles == [] <==>
      Acyclic(GroupedGraph(deps, flows, flow, false)) && Acyclic(GroupedGraph(deps, flows, flow, true))
  {
    var construction := DetectCycles(deps, flows, flow, false);
    var destruction := DetectCycles(deps, flows, flow, true);
    cycles := construction + destruction;
  }

  lemma AcyclicAmongMore(deps: seq<Dependency>, flows: map<string, Flow>, keys: set<string>, k: string)
    requires k in flows
    ensures AcyclicAmong(deps, flows, keys + {k}) <==>
      AcyclicAmong(deps, flows, keys) &&
      Acyclic(GroupedGraph(deps, flows, flows[k], false)) && Acyclic(GroupedGraph(deps, flows, flows[k], true))
  {
  }
}
