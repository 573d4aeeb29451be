/** Finite directed graphs over string keys, given by adjacency lists as the scheduler keeps them. */
module Graphs {
  type Graph = map<string, seq<string>>

  predicate Edge(g: Graph, u: string, v: string) {
    u in g && v in g[u]
  }

  /** Every listed neighbour is itself a vertex. */
  ghost predicate Closed(g: Graph) {
    forall u, v :: Edge(g, u, v) ==> v in g
  }

  predicate Distinct<T(==)>(s: seq<T>) {
    forall i, j :: 0 <= i < j < |s| ==> s[i] != s[j]
  }

  function Elements<T>(s: seq<T>): set<T> {
    set x | x in s
  }

  // ---------- paths and reachability ----------

  ghost predicate IsPath(g: Graph, p: seq<string>) {
    p != [] && (|p| > 1 ==> Edge(g, p[0], p[1]) && IsPath(g, p[1..]))
  }

  ghost predicate PathBetween(g: Graph, p: seq<string>, u: string, v: string) {
    IsPath(g, p) && p[0] == u && p[|p| - 1] == v
  }

  ghost predicate Reach(g: Graph, u: string, v: string) {
    exists p :: PathBetween(g, p, u, v)
  }

  /** A directed cycle: a path of at least one edge that returns to its start. */
  ghost predicate IsCycle(g: Graph, p: seq<string>) {
    |p| > 1 && IsPath(g, p) && p[0] == p[|p| - 1]
  }

  ghost predicate Acyclic(g: Graph) {
    forall p :: !IsCycle(g, p)
  }

  lemma ReachSelf(g: Graph, u: string)
    ensures Reach(g, u, u)
  {
    assert PathBetween(g, [u], u, u);
  }

  lemma ReachAfterEdge(g: Graph, u: string, v: string, w: string)
    requires Edge(g, u, v) && Reach(g, v, w)
    ensures Reach(g, u, w)
  {
    var p :| PathBetween(g, p, v, w);
    assert ([u] + p)[1..] == p;
    assert PathBetween(g, [u] + p, u, w);
  }

  lemma ReachByEdge(g: Graph, u: string, v: string)
    requires Edge(g, u, v)
    ensures Reach(g, u, v)
  {
    ReachSelf(g, v);
    ReachAfterEdge(g, u, v, v);
  }

  lemma {:induction false} PathSuffix(g: Graph, p: seq<string>, i: nat)
    requires IsPath(g, p) && i < |p|
    ensures IsPath(g, p[i..])
  {
    if i == 0 {
      assert p[0..] == p;
    } else {
      PathSuffix(g, p[1..], i - 1);
      assert p[1..][i - 1..] == p[i..];
    }
  }

  lemma {:induction false} PathPrefix(g: Graph, p: seq<string>, i: nat)
    requires IsPath(g, p) && 0 < i <= |p|
    ensures IsPath(g, p[..i])
  {
    if i > 1 {
      PathPrefix(g, p[1..], i - 1);
      assert p[1..][..i - 1] == p[..i][1..];
    }
  }

  lemma PathReach(g: Graph, p: seq<string>, i: nat, j: nat)
    requires IsPath(g, p) && i <= j < |p|
    ensures Reach(g, p[i], p[j])
  {
    PathSuffix(g, p, i);
    PathPrefix(g, p[i..], j - i + 1);
    assert PathBetween(g, p[i..][..j - i + 1], p[i], p[j]);
  }

  lemma {:induction false} PathJoin(g: Graph, p: seq<string>, q: seq<string>)
    requires IsPath(g, p) && IsPath(g, q) && p[|p| - 1] == q[0]
    ensures IsPath(g, p + q[1..])
    ensures (p + q[1..])[|p + q[1..]| - 1] == q[|q| - 1]
    decreases |p|
  {
    if |p| == 1 {
      assert p + q[1..] == q;
    } else {
      PathJoin(g, p[1..], q);
      assert (p + q[1..])[1..] == p[1..] + q[1..];
    }
  }

  lemma ReachTransitive(g: Graph, u: string, v: string, w: string)
    requires Reach(g, u, v) && Reach(g, v, w)
    ensures Reach(g, u, w)
  {
    var p :| PathBetween(g, p, u, v);
    var q :| PathBetween(g, q, v, w);
    PathJoin(g, p, q);
    assert PathBetween(g, p + q[1..], u, w);
  }

  lemma ReachBeforeEdge(g: Graph, u: string, v: string, w: string)
    requires Reach(g, u, v) && Edge(g, v, w)
    ensures Reach(g, u, w)
  {
    ReachByEdge(g, v, w);
    ReachTransitive(g, u, v, w);
  }

  lemma ReachFirstStep(g: Graph, u: string, v: string) returns (w: string)
    requires Reach(g, u, v) && u != v
    ensures Edge(g, u, w) && Reach(g, w, v)
  {
    var p :| PathBetween(g, p, u, v);
    w := p[1];
    assert PathBetween(g, p[1..], w, v);
  }

  // ---------- closed sets ----------

  ghost predicate ClosedSet(g: Graph, s: set<string>) {
    forall u, v :: u in s && Edge(g, u, v) ==> v in s
  }

  lemma {:induction false} PathStaysInside(g: Graph, s: set<string>, p: seq<string>)
    requires ClosedSet(g, s) && IsPath(g, p) && p[0] in s
    ensures forall i :: 0 <= i < |p| ==> p[i] in s
    decreases |p|
  {
    if |p| > 1 {
      PathStaysInside(g, s, p[1..]);
      forall i | 0 <= i < |p| ensures p[i] in s {
        if i > 0 { assert p[i] == p[1..][i - 1]; }
      }
    }
  }

  lemma ReachStaysInside(g: Graph, s: set<string>, u: string, v: string)
    requires ClosedSet(g, s) && u in s && Reach(g, u, v)
    ensures v in s
  {
    var p :| PathBetween(g, p, u, v);
    PathStaysInside(g, s, p);
  }

  /** What `u` reaches inside the graph, itself included when it is a vertex. */
  ghost function ReachSet(g: Graph, u: string): set<string> {
    set v | v in g.Keys && Reach(g, u, v)
  }

  lemma ReachInGraph(g: Graph, u: string, v: string)
    requires Closed(g) && u in g && Reach(g, u, v)
    ensures v in g
  {
    assert ClosedSet(g, g.Keys);
    ReachStaysInside(g, g.Keys, u, v);
  }

  // ---------- cycles ----------

  lemma CycleThroughEdge(g: Graph, u: string, v: string) returns (p: seq<string>)
    requires Edge(g, u, v) && Reach(g, v, u)
    ensures IsCycle(g, p) && p[0] == u
  {
    var q :| PathBetween(g, q, v, u);
    p := [u] + q;
    assert p[1..] == q;
  }

  lemma CycleVerticesReachEachOther(g: Graph, p: seq<string>, i: nat, j: nat)
    requires IsCycle(g, p) && i < |p| && j < |p|
    ensures Reach(g, p[i], p[j])
  {
    if i <= j {
      PathReach(g, p, i, j);
    } else {
      PathReach(g, p, i, |p| - 1);
      PathReach(g, p, 0, j);
      ReachTransitive(g, p[i], p[0], p[j]);
    }
  }

  lemma EdgeInsideCycle(g: Graph, p: seq<string>, i: nat)
    requires IsPath(g, p) && i + 1 < |p|
    ensures Edge(g, p[i], p[i + 1])
  {
    PathSuffix(g, p, i);
    assert p[i..][0] == p[i] && p[i..][1] == p[i + 1];
  }

  lemma AcyclicEdgesDoNotReturn(g: Graph, u: string, v: string)
    requires Acyclic(g) && Edge(g, u, v)
    ensures !Reach(g, v, u)
  {
    if Reach(g, v, u) {
      var p := CycleThroughEdge(g, u, v);
    }
  }

  // ---------- ranks ----------

  /** In a finite acyclic graph the number of reachable vertices strictly drops along every edge. */
  ghost function Rank(g: Graph, u: string): nat {
    |ReachSet(g, u)|
  }

  lemma RankDrops(g: Graph, u: string, v: string)
    requires Acyclic(g) && Closed(g) && Edge(g, u, v)
    ensures Rank(g, v) < Rank(g, u)
  {
    AcyclicEdgesDoNotReturn(g, u, v);
    ReachSelf(g, u);
    forall x | x in ReachSet(g, v) ensures x in ReachSet(g, u) {
      ReachAfterEdge(g, u, v, x);
    }
    SubsetSmaller(ReachSet(g, v), ReachSet(g, u), u);
  }

  lemma SubsetSmaller<T>(a: set<T>, b: set<T>, x: T)
    requires a <= b && x in b && x !in a
    ensures |a| < |b|
  {
    SubsetNotLarger(a, b - {x});
  }

  lemma {:induction false} SubsetNotLarger<T>(a: set<T>, b: set<T>)
    requires a <= b
    ensures |a| <= |b|
  {
    if a != {} {
      var x :| x in a;
      SubsetNotLarger(a - {x}, b - {x});
    }
  }

  lemma FullSubset<T>(a: set<T>, b: set<T>)
    requires a <= b && |a| >= |b|
    ensures a == b
  {
    forall x | x in b ensures x in a {
      if x !in a { SubsetSmaller(a, b, x); }
    }
  }

  lemma {:induction false} DistinctCount<T>(s: seq<T>)
    requires Distinct(s)
    ensures |Elements(s)| == |s|
  {
    if s != [] {
      var k := |s| - 1;
      DistinctCount(s[..k]);
      assert Elements(s) == Elements(s[..k]) + {s[k]};
    }
  }

  lemma {:induction false} PathLowersRank(g: Graph, rank: string -> int, p: seq<string>)
    requires forall u, v :: Edge(g, u, v) ==> rank(v) < rank(u)
    requires IsPath(g, p) && |p| > 1
    ensures rank(p[|p| - 1]) < rank(p[0])
    decreases |p|
  {
    assert Edge(g, p[0], p[1]);
    if |p| > 2 { PathLowersRank(g, rank, p[1..]); }
  }

  /** Conversely, a number that drops along every edge rules cycles out. */
  lemma AcyclicByRank(g: Graph, rank: string -> int)
    requires forall u, v :: Edge(g, u, v) ==> rank(v) < rank(u)
    ensures Acyclic(g)
  {
    forall p ensures !IsCycle(g, p) {
      if IsCycle(g, p) { PathLowersRank(g, rank, p); }
    }
  }

  lemma DistinctAppend<T>(s: seq<T>, x: T)
    requires Distinct(s) && x !in Elements(s)
    ensures Distinct(s + [x]) && Elements(s + [x]) == Elements(s) + {x}
  {
    forall i | 0 <= i < |s| ensures s[i] != x {
      assert s[i] in Elements(s);
    }
  }

  // ---------- counting paths ----------

  /** Number of paths that start at a vertex, the trivial one included. */
  ghost function PathCount(g: Graph, u: string): nat
    requires Acyclic(g) && Closed(g)
    decreases Rank(g, u), if u in g then |g[u]| + 1 else 0
  {
    if u in g then 1 + PathCountUpTo(g, u, |g[u]|) else 1
  }

  ghost function PathCountUpTo(g: Graph, u: string, k: nat): nat
    requires Acyclic(g) && Closed(g) && u in g && k <= |g[u]|
    decreases Rank(g, u), k
  {
    if k == 0 then 0
    else
      assert Edge(g, u, g[u][k - 1]);
      RankDrops(g, u, g[u][k - 1]);
      PathCountUpTo(g, u, k - 1) + PathCount(g, g[u][k - 1])
  }
}
