/** The dependency analyzer, first half: the graph it builds from the dependencies of one path of one flow. */
module Grouping {
  import opened Dependencies
  import opened Graphs

  // ---------- ordered insertion ----------

  /** Lexicographic order on strings, strict. */
  predicate Before(a: string, b: string) {
    b != [] && (a == [] || a[0] < b[0] || (a[0] == b[0] && Before(a[1..], b[1..])))
  }

  lemma {:induction false} BeforeTotal(a: string, b: string)
    ensures Before(a, b) || a == b || Before(b, a)
  {
    if a != [] && b != [] && a[0] == b[0] {
      BeforeTotal(a[1..], b[1..]);
      assert a[1..] == b[1..] ==> a == [a[0]] + a[1..] == b;
    }
  }

  lemma {:induction false} BeforeTransitive(a: string, b: string, c: string)
    requires Before(a, b) && Before(b, c)
    ensures Before(a, c)
  {
    if a != [] && a[0] == b[0] == c[0] {
      BeforeTransitive(a[1..], b[1..], c[1..]);
    }
  }

  lemma {:induction false} BeforeIrreflexive(a: string)
    ensures !Before(a, a)
  {
    if a != [] { BeforeIrreflexive(a[1..]); }
  }

  ghost predicate Sorted(s: seq<string>) {
    forall i, j :: 0 <= i < j < |s| ==> Before(s[i], s[j])
  }

  /** Insertion into a sorted list, skipping a value already there. */
  function InsertSorted(s: seq<string>, value: string): seq<string> {
    if s == [] || Before(value, s[0]) then [value] + s
    else if s[0] == value then s
    else [s[0]] + InsertSorted(s[1..], value)
  }

  lemma {:induction false} InsertSortedContents(s: seq<string>, value: string)
    ensures Elements(InsertSorted(s, value)) == Elements(s) + {value}
  {
    if s != [] && !Before(value, s[0]) && s[0] != value {
      InsertSortedContents(s[1..], value);
      assert s == [s[0]] + s[1..];
      assert InsertSorted(s, value)[1..] == InsertSorted(s[1..], value);
      forall x | x in Elements(InsertSorted(s, value)) ensures x in Elements(s) + {value} {
        assert x == s[0] || x in Elements(InsertSorted(s[1..], value));
      }
      forall x | x in Elements(s) + {value} ensures x in Elements(InsertSorted(s, value)) {
        assert x == s[0] || x in Elements(InsertSorted(s[1..], value));
      }
    }
  }

  lemma {:induction false} InsertSortedKeepsOrder(s: seq<string>, value: string)
    requires Sorted(s)
    ensures Sorted(InsertSorted(s, value))
  {
    var r := InsertSorted(s, value);
    if s == [] {
    } else if Before(value, s[0]) {
      forall j | 1 <= j < |r| ensures Before(value, r[j]) {
        if j > 1 { BeforeTransitive(value, s[0], s[j - 1]); }
      }
    } else if s[0] != value {
      InsertSortedKeepsOrder(s[1..], value);
      InsertSortedContents(s[1..], value);
      BeforeTotal(s[0], value);
      forall j | 1 <= j < |r| ensures Before(r[0], r[j]) {
        assert r[j] in Elements(InsertSorted(s[1..], value));
        if r[j] != value {
          var k :| 0 <= k < |s[1..]| && s[1..][k] == r[j];
          assert s[k + 1] == r[j];
        }
      }
      assert forall i, j :: 1 <= i < j < |r| ==>
        r[i] == InsertSorted(s[1..], value)[i - 1] && r[j] == InsertSorted(s[1..], value)[j - 1];
    }
  }

  lemma SortedIsDistinct(s: seq<string>)
    requires Sorted(s)
    ensures Distinct(s)
  {
    forall i, j | 0 <= i < j < |s| ensures s[i] != s[j] {
      BeforeIrreflexive(s[i]);
    }
  }

  /** Binary search for the first position whose entry is not before `x`. */
  method SearchStrings(a: seq<string>, x: string) returns (index: nat)
    requires Sorted(a)
    ensures index <= |a|
    ensures forall i :: 0 <= i < index ==> Before(a[i], x)
    ensures forall i :: index <= i < |a| ==> !Before(a[i], x)
  {
    var lo, hi := 0, |a|;
    while lo < hi
      invariant 0 <= lo <= hi <= |a|
      invariant forall i :: 0 <= i < lo ==> Before(a[i], x)
      invariant forall i :: hi <= i < |a| ==> !Before(a[i], x)
    {
      var mid := (lo + hi) / 2;
      if Before(a[mid], x) {
        forall i | 0 <= i < mid ensures Before(a[i], x) {
          BeforeTransitive(a[i], a[mid], x);
        }
        lo := mid + 1;
      } else {
        forall i | mid < i < |a| ensures !Before(a[i], x) {
          if Before(a[i], x) { BeforeTransitive(a[mid], a[i], x); }
        }
        hi := mid;
      }
    }
    index := lo;
  }

  lemma {:induction false} InsertSortedAt(s: seq<string>, value: string, index: nat)
    requires index <= |s|
    requires forall i :: 0 <= i < index ==> Before(s[i], value)
    requires index < |s| ==> !Before(s[index], value)
    ensures InsertSorted(s, value) ==
      if index < |s| && s[index] == value then s else s[..index] + [value] + s[index..]
  {
    if index == 0 {
      if s != [] { BeforeTotal(s[0], value); BeforeIrreflexive(value); }
      assert s[..0] + [value] + s[0..] == [value] + s;
    } else {
      assert !Before(value, s[0]) by {
        if Before(value, s[0]) { BeforeTransitive(value, s[0], value); BeforeIrreflexive(value); }
      }
      assert s[0] != value by { BeforeIrreflexive(value); }
      InsertSortedAt(s[1..], value, index - 1);
      assert s == [s[0]] + s[1..];
      assert s[1..][..index - 1] == s[..index][1..];
      assert s[..index] == [s[0]] + s[..index][1..];
      assert s[1..][index - 1..] == s[index..];
      assert s[..index] + [value] + s[index..] == [s[0]] + (s[1..][..index - 1] + [value] + s[1..][index - 1..]);
    }
  }

  method InsertUnique(slice: seq<string>, value: string) returns (result: seq<string>)
    requires Sorted(slice)
    ensures result == InsertSorted(slice, value)
    ensures Sorted(result) && Distinct(result) && Elements(result) == Elements(slice) + {value}
  {
    var index := SearchStrings(slice, value);
    InsertSortedAt(slice, value, index);
    InsertSortedKeepsOrder(slice, value);
    InsertSortedContents(slice, value);
    SortedIsDistinct(InsertSorted(slice, value));
    if index >= |slice| || slice[index] != value {
      result := slice + [""];
      result := result[..index + 1] + slice[index..];
      result := result[index := value];
      assert result == slice[..index] + [value] + slice[index..];
    } else {
      result := slice;
    }
  }

  // ---------- grouping ----------

  /** Whether a dependency contributes an edge to the graph of this path of this flow. A dependency that
      starts at another flow and belongs to it is that flow's own business. */
  predicate Selected(dep: Dependency, flows: map<string, Flow>, flow: Flow, useDestructionSelector: bool) {
    CanBelong(dep, flow, useDestructionSelector) &&
    !(dep.parent in flows && flows[dep.parent] != flow && BelongsToFlow(dep, flows[dep.parent]))
  }

  function AddEdge(g: Graph, parent: string, child: string): Graph {
    var g1 := g[parent := InsertSorted(if parent in g then g[parent] else [], child)];
    if child in g1 then g1 else g1[child := []]
  }

  /** The graph the analyzer works on, as a fold over the dependency list. */
  function GroupedGraph(deps: seq<Dependency>, flows: map<string, Flow>, flow: Flow,
                        useDestructionSelector: bool): Graph {
    if deps == [] then map[]
    else
      var rest := GroupedGraph(deps[..|deps| - 1], flows, flow, useDestructionSelector);
      var dep := deps[|deps| - 1];
      if Selected(dep, flows, flow, useDestructionSelector) then AddEdge(rest, dep.parent, dep.child) else rest
  }

  ghost predicate Names(deps: seq<Dependency>, flows: map<string, Flow>, flow: Flow, useDestructionSelector: bool,
                        u: string, v: string)
  {
    exists dep :: dep in deps && Selected(dep, flows, flow, useDestructionSelector) && dep.parent == u && dep.child == v
  }

  ghost predicate SortedLists(g: Graph) {
    forall u :: u in g ==> Sorted(g[u])
  }

  lemma AddEdgeEffect(g: Graph, parent: string, child: string)
    requires Closed(g) && SortedLists(g)
    ensures Closed(AddEdge(g, parent, child)) && SortedLists(AddEdge(g, parent, child))
    ensures forall u, v :: Edge(AddEdge(g, parent, child), u, v) <==> Edge(g, u, v) || (u == parent && v == child)
  {
    var before := if parent in g then g[parent] else [];
    InsertSortedContents(before, child);
    InsertSortedKeepsOrder(before, child);
    var h := AddEdge(g, parent, child);
    forall u, v ensures Edge(h, u, v) <==> Edge(g, u, v) || (u == parent && v == child) {
      if u == parent {
        assert h[u] == InsertSorted(before, child);
        assert v in h[u] <==> v in Elements(InsertSorted(before, child));
        assert v in before <==> v in Elements(before);
      }
    }
  }

  /** The grouped graph has exactly the selected dependencies as edges. */
  lemma {:induction false} GroupedEdges(deps: seq<Dependency>, flows: map<string, Flow>, flow: Flow,
                                        useDestructionSelector: bool)
    ensures Closed(GroupedGraph(deps, flows, flow, useDestructionSelector))
    ensures SortedLists(GroupedGraph(deps, flows, flow, useDestructionSelector))
    ensures forall u, v :: Edge(GroupedGraph(deps, flows, flow, useDestructionSelector), u, v) <==>
      Names(deps, flows, flow, useDestructionSelector, u, v)
  {
    if deps != [] {
      var front, dep := deps[..|deps| - 1], deps[|deps| - 1];
      GroupedEdges(front, flows, flow, useDestructionSelector);
      var rest := GroupedGraph(front, flows, flow, useDestructionSelector);
      AddEdgeEffect(rest, dep.parent, dep.child);
      assert deps == front + [dep];
      forall u, v ensures Names(deps, flows, flow, useDestructionSelector, u, v) <==>
          Names(front, flows, flow, useDestructionSelector, u, v) ||
          (Selected(dep, flows, flow, useDestructionSelector) && u == dep.parent && v == dep.child)
      {
        assert forall d :: d in deps <==> d in front || d == dep;
      }
    }
  }

  method AddDependency(graph: Graph, parent: string, child: string) returns (result: Graph)
    requires SortedLists(graph)
    ensures result == AddEdge(graph, parent, child)
  {
    assert InsertSorted([], child) == [child];
    var group: seq<string>;
    if parent !in graph {
      group := [child];
    } else {
      group := InsertUnique(graph[parent], child);
    }
    result := graph[parent := group];
    if child !in result {
      result := result[child := []];
    }
  }

  method GroupDependentResources(deps: seq<Dependency>, flows: map<string, Flow>, flow: Flow,
                                 useDestructionSelector: bool)
    returns (result: Graph)
    ensures result == GroupedGraph(deps, flows, flow, useDestructionSelector)
    ensures Closed(result) && SortedLists(result)
  {
    result := map[];
    for i := 0 to |deps|
      invariant result == GroupedGraph(deps[..i], flows, flow, useDestructionSelector)
      invariant Closed(result) && SortedLists(result)
    {
      var dep := deps[i];
      assert deps[..i + 1][..|deps[..i + 1]| - 1] == deps[..i];
      if !CanBelong(dep, flow, useDestructionSelector) {
        continue;
      }
      if dep.parent in flows && flows[dep.parent] != flow && BelongsToFlow(dep, flows[dep.parent]) {
        continue;
      }
      AddEdgeEffect(result, dep.parent, dep.child);
      result := AddDependency(result, dep.parent, dep.child);
    }
    assert deps[..|deps|] == deps;
  }
}
