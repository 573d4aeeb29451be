/** Building a dependency graph: flow lookup, cycle check, walks, removal of repetitions; and what the result guarantees. */
module GraphBuilding {
  import opened Dependencies
  import opened Graphs
  import opened CycleDetection
  import opened GraphWalk
  import opened GraphBuilder

  // ---------- repetitions ----------

  /** The list with every later repetition of a name left out. */
  function FirstOccurrences(s: seq<string>): seq<string> {
    if s == [] then []
    else
      var rest := FirstOccurrences(s[..|s| - 1]);
      if s[|s| - 1] in s[..|s| - 1] then rest else rest + [s[|s| - 1]]
  }

  lemma {:induction false} FirstOccurrencesDistinct(s: seq<string>)
    ensures Distinct(FirstOccurrences(s))
    ensures forall x :: x in FirstOccurrences(s) <==> x in s
  {
    if s != [] {
      FirstOccurrencesDistinct(s[..|s| - 1]);
      assert s == s[..|s| - 1] + [s[|s| - 1]];
    }
  }

  method Unique(slice: seq<string>) returns (result: seq<string>)
    ensures result == FirstOccurrences(slice)
    ensures Distinct(result) && forall x :: x in result <==> x in slice
  {
    var seen := {};
    result := [];
    for i := 0 to |slice|
      invariant result == FirstOccurrences(slice[..i])
      invariant forall x :: x in seen <==> x in slice[..i]
    {
      assert slice[..i + 1][..i] == slice[..i];
      if slice[i] !in seen {
        result := result + [slice[i]];
        seen := seen + {slice[i]};
      }
    }
    assert slice[..|slice|] == slice;
    FirstOccurrencesDistinct(slice);
  }

  // ---------- building ----------

  /** An exact graph without repetitions. */
  ghost predicate Compiled(w: Walk, resolve: Resolver, replicas: set<string>, g: map<string, ScheduledResource>)
    reads g.Values
  {
    && Exact(w, resolve, replicas, g)
    && (forall k :: k in g ==> NoRepetition(g[k]))
  }

  ghost predicate NoRepetition(o: ScheduledResource)
    reads o
  {
    Distinct(o.requiredKeys) && Distinct(o.requiredBy) && Distinct(o.usedInReplicas)
  }

  method Tidy(ghost w: Walk, ghost resolve: Resolver, ghost replicas: set<string>, value: ScheduledResource)
    requires ExactAt(w, resolve, replicas, value)
    modifies value
    ensures ExactAt(w, resolve, replicas, value) && NoRepetition(value)
    ensures ListsOf(value) == Lists(FirstOccurrences(old(value.requiredKeys)), FirstOccurrences(old(value.requiredBy)),
                                    FirstOccurrences(old(value.usedInReplicas)))
  {
    hide Linked;
    hide Produced;
    hide FirstOccurrences;
    value.requiredBy := Unique(value.requiredBy);
    value.requiredKeys := Unique(value.requiredKeys);
    value.usedInReplicas := Unique(value.usedInReplicas);
  }

  method RemoveRepetitions(ghost w: Walk, ghost resolve: Resolver, ghost replicas: set<string>,
                           g: map<string, ScheduledResource>)
    requires Exact(w, resolve, replicas, g)
    modifies g.Values
    ensures Compiled(w, resolve, replicas, g)
  {
    hide Linked;
    hide Produced;
    hide ExactAt;
    hide NoRepetition;
    var todo := g.Keys;
    while todo != {}
      invariant todo <= g.Keys
      invariant forall k :: k in g ==> ExactAt(w, resolve, replicas, g[k])
      invariant forall k :: k in g && k !in todo ==> NoRepetition(g[k])
      decreases todo
    {
      var k :| k in todo;
      Tidy(w, resolve, replicas, g[k]);
      todo := todo - {k};
    }
  }

  /** Whether every walk over these dependencies ends. */
  ghost predicate WalksEnd(deps: seq<Dependency>, resDefs: map<string, ResourceDefinition>, flow: Flow) {
    forall grouped, b :: WalkOver(Walk(grouped, resDefs, flow, b), deps, resDefs) ==> Terminates(Walk(grouped, resDefs, flow, b))
  }

  /** A passed check makes all walks end unless the made-up default list can be entered. */
  lemma CheckedMeansWalksEnd(deps: seq<Dependency>, resDefs: map<string, ResourceDefinition>, flow: Flow)
    requires NoCycles(deps, resDefs) && DefaultFlowIsEntered(deps)
    ensures WalksEnd(deps, resDefs, flow)
  {
    forall grouped, b | WalkOver(Walk(grouped, resDefs, flow, b), deps, resDefs)
      ensures Terminates(Walk(grouped, resDefs, flow, b))
    {
      CheckedWalksTerminate(Walk(grouped, resDefs, flow, b), deps, resDefs);
    }
  }

  /** Compiles the graph of a flow for the allocated replicas: those to deploy along the construction path, or those to
      remove along the destruction path. */
  method CompileGraph(ghost deps: seq<Dependency>, dependencies: DependencyMap,
                      resDefs: map<string, ResourceDefinition>, flow: Flow,
                      resolve: Resolver, replicas: seq<string>, deleteReplicas: seq<string>)
    returns (depGraph: DependencyGraph, ok: bool, ghost w: Walk)
    requires ResolverFits(resDefs, resolve) && WalksEnd(deps, resDefs, flow)
    requires WalkOver(Walk(dependencies, resDefs, flow, false), deps, resDefs)
    requires replicas == [] || deleteReplicas == []
    ensures fresh(depGraph) && w == Walk(dependencies, resDefs, flow, deleteReplicas != [])
    ensures ok <==> forall r :: r in replicas + deleteReplicas ==> AllResolve(w, resolve, r)
    ensures ok ==> Compiled(w, resolve, Elements(replicas + deleteReplicas), depGraph.graph)
    ensures ok ==> forall k :: k in depGraph.graph ==> fresh(depGraph.graph[k])
  {
    hide Terminates;
    hide ResolverFits;
    hide Compiled;
    hide AllResolve;
    depGraph := new DependencyGraph();
    var construction := Walk(dependencies, resDefs, flow, false);
    var destruction := Walk(dependencies, resDefs, flow, true);
    assert WalkOver(destruction, deps, resDefs);
    hide WalkOver;
    w := if deleteReplicas == [] then construction else destruction;
    ok := FillBoth(depGraph, construction, destruction, resolve, replicas, deleteReplicas, w);
  }

  /** Both passes over the same graph; one of the replica lists is empty. */
  method FillBoth(depGraph: DependencyGraph, construction: Walk, destruction: Walk, resolve: Resolver,
                  replicas: seq<string>, deleteReplicas: seq<string>, ghost w: Walk)
    returns (ok: bool)
    requires depGraph.graph == map[] && (replicas == [] || deleteReplicas == [])
    requires ResolverFits(construction.resDefs, resolve) && ResolverFits(destruction.resDefs, resolve)
    requires Terminates(construction) && Terminates(destruction)
    requires w == if deleteReplicas == [] then construction else destruction
    modifies depGraph
    ensures ok <==> forall r :: r in replicas + deleteReplicas ==> AllResolve(w, resolve, r)
    ensures ok ==> Compiled(w, resolve, Elements(replicas + deleteReplicas), depGraph.graph)
    ensures ok ==> forall k :: k in depGraph.graph ==> fresh(depGraph.graph[k])
  {
    hide Terminates;
    hide AllResolve;
    hide Exact;
    assert replicas + deleteReplicas == if deleteReplicas == [] then replicas else deleteReplicas;
    ok := FillDependencyGraph(depGraph, construction, resolve, replicas);
    if ok {
      ok := FillDependencyGraph(depGraph, destruction, resolve, deleteReplicas);
    }
    if !ok {
      return;
    }
    EmptyIsExact(w, resolve);
    assert replicas + deleteReplicas == [] ==> Elements(replicas + deleteReplicas) == {};
    RemoveRepetitions(w, resolve, Elements(replicas + deleteReplicas), depGraph.graph);
  }

  lemma EmptyIsExact(w: Walk, resolve: Resolver)
    ensures Exact(w, resolve, {}, map[])
  {
  }

  // ---------- what a compiled graph guarantees ----------

  /** The links as plain adjacency lists. */
  ghost function RequiresGraph(g: map<string, ScheduledResource>): Graph
    reads g.Values
  {
    map k | k in g :: g[k].requiredKeys
  }

  ghost function RequiredByGraph(g: map<string, ScheduledResource>): Graph
    reads g.Values
  {
    map k | k in g :: g[k].requiredBy
  }

  /** Requirements and dependants are inverse relations inside the graph, listed without repetition. */
  ghost predicate MutualLinks(needs: Graph, neededBy: Graph) {
    && needs.Keys == neededBy.Keys
    && Closed(needs) && Closed(neededBy)
    && (forall a, b :: Edge(needs, b, a) <==> Edge(neededBy, a, b))
    && (forall k :: k in needs ==> Distinct(needs[k]) && Distinct(neededBy[k]))
  }

  lemma LinkEndsProduced(w: Walk, resolve: Resolver, replicas: set<string>, a: string, b: string)
    requires Linked(w, resolve, replicas, a, b)
    ensures exists r :: r in replicas && Produced(w, resolve, r, a)
    ensures exists r :: r in replicas && Produced(w, resolve, r, b)
  {
    var r, chain: seq<Dependency> :| r in replicas && IsChain(w, chain) && |chain| > 1 && LinkedBy(resolve, r, chain, a, b);
    assert IsChain(w, chain[..|chain| - 1]);
    assert Produced(w, resolve, r, a) && Produced(w, resolve, r, b);
  }

  lemma CompiledLinksAreMutual(w: Walk, resolve: Resolver, replicas: set<string>, g: map<string, ScheduledResource>)
    requires Compiled(w, resolve, replicas, g)
    ensures MutualLinks(RequiresGraph(g), RequiredByGraph(g))
  {
    hide Linked;
    hide Produced;
    var needs, neededBy := RequiresGraph(g), RequiredByGraph(g);
    forall a, b | Linked(w, resolve, replicas, a, b) ensures a in g && b in g {
      LinkEndsProduced(w, resolve, replicas, a, b);
    }
    forall a, b ensures Edge(needs, b, a) <==> Edge(neededBy, a, b) {
    }
  }

  // ---------- exactly when a merged graph has a cycle ----------

  /** One step of a replica's walk, from the block before the last of a chain to the last. */
  datatype Hop = Hop(replica: string, chain: seq<Dependency>)

  ghost predicate IsHop(w: Walk, replicas: set<string>, h: Hop) {
    h.replica in replicas && IsChain(w, h.chain) && |h.chain| > 1
  }

  function Front(chain: seq<Dependency>): seq<Dependency> {
    if chain == [] then [] else chain[..|chain| - 1]
  }

  function FromKey(resolve: Resolver, h: Hop): string {
    KeyAt(resolve, h.replica, Front(h.chain))
  }

  function ToKey(resolve: Resolver, h: Hop): string {
    KeyAt(resolve, h.replica, h.chain)
  }

  /** Steps, of the same or of different replicas, strung together key by key. */
  ghost predicate Strung(w: Walk, resolve: Resolver, replicas: set<string>, hops: seq<Hop>) {
    && (forall i :: 0 <= i < |hops| ==> IsHop(w, replicas, hops[i]))
    && (forall i :: 0 < i < |hops| ==> FromKey(resolve, hops[i]) == ToKey(resolve, hops[i - 1]))
  }

  /** Strung together into a circle. */
  ghost predicate Circle(w: Walk, resolve: Resolver, replicas: set<string>, hops: seq<Hop>) {
    hops != [] && Strung(w, resolve, replicas, hops) && FromKey(resolve, hops[0]) == ToKey(resolve, hops[|hops| - 1])
  }

  /** The second step begins at the template where the first ends. */
  predicate SameTemplate(w: Walk, a: Hop, b: Hop) {
    TemplateOf(w, a.chain) == TemplateOf(w, Front(b.chain))
  }

  /** Where the step before `i` ends and step `i` begins, going around, the key is the same and the template is not. */
  ghost predicate Seam(w: Walk, hops: seq<Hop>, i: nat)
    requires i < |hops|
  {
    !SameTemplate(w, hops[if i == 0 then |hops| - 1 else i - 1], hops[i])
  }

  /** Two different templates that walks get to have the same key. */
  ghost predicate SharedByTemplates(w: Walk, resolve: Resolver, replicas: set<string>, k: string) {
    exists a: Hop, b: Hop ::
      && a.replica in replicas && IsChain(w, a.chain) && a.chain != [] && ToKey(resolve, a) == k
      && b.replica in replicas && IsChain(w, b.chain) && b.chain != [] && ToKey(resolve, b) == k
      && TemplateOf(w, a.chain) != TemplateOf(w, b.chain)
  }

  lemma HopIsLive(w: Walk, replicas: set<string>, h: Hop)
    requires IsHop(w, replicas, h)
    ensures Edge(LiveGraph(w), TemplateOf(w, Front(h.chain)), TemplateOf(w, h.chain))
  {
    hide Followed;
    var front, d := h.chain[..|h.chain| - 1], h.chain[|h.chain| - 1];
    ChainTemplateLive(w, front);
    TemplateEdges(w, TemplateOf(w, front), d.child);
    LiveEdge(w, TemplateOf(w, front), d.child);
  }

  lemma {:induction false} HopsFollowTemplates(w: Walk, replicas: set<string>, hops: seq<Hop>) returns (p: seq<string>)
    requires hops != [] && forall i :: 0 <= i < |hops| ==> IsHop(w, replicas, hops[i])
    requires forall i :: 0 < i < |hops| ==> SameTemplate(w, hops[i - 1], hops[i])
    ensures IsPath(LiveGraph(w), p) && |p| == |hops| + 1
    ensures p[0] == TemplateOf(w, Front(hops[0].chain)) && p[|p| - 1] == TemplateOf(w, hops[|hops| - 1].chain)
    decreases |hops|
  {
    hide LiveGraph;
    hide IsHop;
    hide TemplateOf;
    hide Front;
    HopIsLive(w, replicas, hops[0]);
    var first := TemplateOf(w, Front(hops[0].chain));
    if |hops| == 1 {
      p := [first, TemplateOf(w, hops[0].chain)];
    } else {
      assert forall i :: 0 <= i < |hops[1..]| ==> hops[1..][i] == hops[i + 1];
      assert SameTemplate(w, hops[0], hops[1]);
      var rest := HopsFollowTemplates(w, replicas, hops[1..]);
      p := [first] + rest;
      assert p[1..] == rest;
    }
  }

  /** When walks end, every circle has a seam: its key is shared by two templates. */
  lemma CirclesHaveSeams(w: Walk, resolve: Resolver, replicas: set<string>, hops: seq<Hop>) returns (i: nat)
    requires Terminates(w) && Circle(w, resolve, replicas, hops)
    ensures i < |hops| && Seam(w, hops, i) && SharedByTemplates(w, resolve, replicas, FromKey(resolve, hops[i]))
  {
    hide SameTemplate;
    hide SharedByTemplates;
    SomeSeam(w, resolve, replicas, hops);
    i :| 0 <= i < |hops| && Seam(w, hops, i);
    var before, h := hops[if i == 0 then |hops| - 1 else i - 1], hops[i];
    assert IsHop(w, replicas, before) && IsHop(w, replicas, h) && FromKey(resolve, h) == ToKey(resolve, before);
    SeamShares(w, resolve, replicas, before, h);
  }

  lemma SomeSeam(w: Walk, resolve: Resolver, replicas: set<string>, hops: seq<Hop>)
    requires Terminates(w) && Circle(w, resolve, replicas, hops)
    ensures exists i :: 0 <= i < |hops| && Seam(w, hops, i)
  {
    hide IsHop;
    hide ToKey;
    hide FromKey;
    hide TemplateOf;
    if forall i :: 0 <= i < |hops| ==> !Seam(w, hops, i) {
      assert !Seam(w, hops, 0);
      forall i | 0 < i < |hops| ensures SameTemplate(w, hops[i - 1], hops[i]) {
        assert !Seam(w, hops, i);
      }
      var p := HopsFollowTemplates(w, replicas, hops);
      NoLiveCycle(w, p);
    }
  }

  lemma NoLiveCycle(w: Walk, p: seq<string>)
    requires Terminates(w) && |p| > 1 && IsPath(LiveGraph(w), p)
    ensures p[0] != p[|p| - 1]
  {
    assert !IsCycle(LiveGraph(w), p);
  }

  lemma SeamShares(w: Walk, resolve: Resolver, replicas: set<string>, before: Hop, h: Hop)
    requires IsHop(w, replicas, before) && IsHop(w, replicas, h)
    requires FromKey(resolve, h) == ToKey(resolve, before) && !SameTemplate(w, before, h)
    ensures SharedByTemplates(w, resolve, replicas, FromKey(resolve, h))
  {
    var b := Hop(h.replica, Front(h.chain));
    assert IsChain(w, b.chain) && b.chain != [];
    hide IsChain;
    hide TemplateOf;
    hide KeyAt;
    assert ToKey(resolve, before) == FromKey(resolve, h) && ToKey(resolve, b) == FromKey(resolve, h);
  }

  lemma {:induction false} HopsAlong(w: Walk, resolve: Resolver, replicas: set<string>,
                                     g: map<string, ScheduledResource>, p: seq<string>)
    returns (hops: seq<Hop>)
    requires Exact(w, resolve, replicas, g) && IsPath(RequiredByGraph(g), p)
    ensures |hops| == |p| - 1 && Strung(w, resolve, replicas, hops)
    ensures forall i :: 0 <= i < |hops| ==> FromKey(resolve, hops[i]) == p[i] && ToKey(resolve, hops[i]) == p[i + 1]
    decreases |p|
  {
    hide IsHop;
    hide Exact;
    hide KeyAt;
    hide Front;
    var links := RequiredByGraph(g);
    hide RequiredByGraph;
    if |p| == 1 {
      hops := [];
    } else {
      assert Edge(links, p[0], p[1]) && IsPath(links, p[1..]);
      var h := HopOf(w, resolve, replicas, g, p[0], p[1]);
      var rest := HopsAlong(w, resolve, replicas, g, p[1..]);
      hops := [h] + rest;
    }
  }

  lemma HopOf(w: Walk, resolve: Resolver, replicas: set<string>, g: map<string, ScheduledResource>, a: string,
              b: string) returns (h: Hop)
    requires Exact(w, resolve, replicas, g) && Edge(RequiredByGraph(g), a, b)
    ensures IsHop(w, replicas, h) && FromKey(resolve, h) == a && ToKey(resolve, h) == b
  {
    hide Produced;
    assert Linked(w, resolve, replicas, a, b);
    var r, chain: seq<Dependency> :| r in replicas && IsChain(w, chain) && |chain| > 1 && LinkedBy(resolve, r, chain, a, b);
    h := Hop(r, chain);
  }

  lemma HopLinks(w: Walk, resolve: Resolver, replicas: set<string>, g: map<string, ScheduledResource>, h: Hop)
    requires Exact(w, resolve, replicas, g) && IsHop(w, replicas, h)
    ensures Edge(RequiredByGraph(g), FromKey(resolve, h), ToKey(resolve, h))
  {
    hide Produced;
    var a, b := FromKey(resolve, h), ToKey(resolve, h);
    assert LinkedBy(resolve, h.replica, h.chain, a, b);
    assert Linked(w, resolve, replicas, a, b);
    LinkEndsProduced(w, resolve, replicas, a, b);
    assert ExactAt(w, resolve, replicas, g[a]);
  }

  lemma {:induction false} StrungReaches(w: Walk, resolve: Resolver, replicas: set<string>,
                                         g: map<string, ScheduledResource>, hops: seq<Hop>)
    returns (p: seq<string>)
    requires Exact(w, resolve, replicas, g) && hops != [] && Strung(w, resolve, replicas, hops)
    ensures |p| == |hops| + 1 && IsPath(RequiredByGraph(g), p)
    ensures p[0] == FromKey(resolve, hops[0]) && p[|p| - 1] == ToKey(resolve, hops[|hops| - 1])
    decreases |hops|
  {
    hide Exact;
    hide IsChain;
    HopLinks(w, resolve, replicas, g, hops[0]);
    if |hops| == 1 {
      p := [FromKey(resolve, hops[0]), ToKey(resolve, hops[0])];
    } else {
      var rest := StrungReaches(w, resolve, replicas, g, hops[1..]);
      p := [FromKey(resolve, hops[0])] + rest;
      assert p[1..] == rest;
    }
  }

  /** Some circle of steps changes template at one of its keys. */
  ghost predicate SeamedCircle(w: Walk, resolve: Resolver, replicas: set<string>) {
    exists hops: seq<Hop>, i: nat :: Circle(w, resolve, replicas, hops) && i < |hops| && Seam(w, hops, i)
  }

  /** The merged graph has a cycle if and only if steps of walks can be strung together into a circle that changes template at
      one of its keys. */
  lemma CyclicIffCircle(w: Walk, resolve: Resolver, replicas: set<string>, g: map<string, ScheduledResource>)
    requires Exact(w, resolve, replicas, g) && Terminates(w)
    ensures !Acyclic(RequiredByGraph(g)) <==> SeamedCircle(w, resolve, replicas)
  {
    hide Exact;
    hide Terminates;
    hide Seam;
    hide IsHop;
    if p :| IsCycle(RequiredByGraph(g), p) {
      var hops := HopsAlong(w, resolve, replicas, g, p);
      assert Circle(w, resolve, replicas, hops);
      var i := CirclesHaveSeams(w, resolve, replicas, hops);
    }
    if hops: seq<Hop>, i: nat :| Circle(w, resolve, replicas, hops) && i < |hops| && Seam(w, hops, i) {
      var p := StrungReaches(w, resolve, replicas, g, hops);
      assert IsCycle(RequiredByGraph(g), p);
    }
  }

  /** Every cycle of the merged graph passes through a key that two different templates share. */
  lemma CyclesShareKeys(w: Walk, resolve: Resolver, replicas: set<string>, g: map<string, ScheduledResource>,
                        p: seq<string>)
    returns (i: nat)
    requires Exact(w, resolve, replicas, g) && Terminates(w) && IsCycle(RequiredByGraph(g), p)
    ensures i < |p| && SharedByTemplates(w, resolve, replicas, p[i])
  {
    hide Exact;
    hide Terminates;
    var hops := HopsAlong(w, resolve, replicas, g, p);
    i := CirclesHaveSeams(w, resolve, replicas, hops);
  }

  /** A single walk that comes to the same key twice makes a cycle. */
  lemma RepeatedKeyMakesCycle(w: Walk, resolve: Resolver, replicas: set<string>, g: map<string, ScheduledResource>,
                              r: string, chain: seq<Dependency>, i: nat)
    requires Exact(w, resolve, replicas, g) && r in replicas && IsChain(w, chain) && 1 <= i < |chain|
    requires KeyAt(resolve, r, chain[..i]) == KeyAt(resolve, r, chain)
    ensures !Acyclic(RequiredByGraph(g))
  {
    var hops := StepsOf(w, resolve, replicas, r, chain, i);
    var p := StrungReaches(w, resolve, replicas, g, hops);
    assert IsCycle(RequiredByGraph(g), p);
  }

  lemma {:induction false} StepsOf(w: Walk, resolve: Resolver, replicas: set<string>, r: string,
                                   chain: seq<Dependency>, i: nat)
    returns (hops: seq<Hop>)
    requires r in replicas && IsChain(w, chain) && 1 <= i < |chain|
    ensures hops != [] && Strung(w, resolve, replicas, hops)
    ensures FromKey(resolve, hops[0]) == KeyAt(resolve, r, chain[..i])
    ensures ToKey(resolve, hops[|hops| - 1]) == KeyAt(resolve, r, chain)
    decreases |chain|
  {
    hide Extensions;
    hide KeyAt;
    var front := chain[..|chain| - 1];
    if i == |front| {
      hops := [Hop(r, chain)];
    } else {
      assert front[..i] == chain[..i];
      var before := StepsOf(w, resolve, replicas, r, front, i);
      hops := before + [Hop(r, chain)];
    }
  }

  /** Every key of the graph comes from one template only. */
  ghost predicate OneTemplatePerKey(w: Walk, resolve: Resolver, replicas: set<string>,
                                    templateOf: map<string, string>) {
    forall r, chain: seq<Dependency> :: r in replicas && IsChain(w, chain) && chain != [] ==>
      KeyAt(resolve, r, chain) in templateOf && templateOf[KeyAt(resolve, r, chain)] == TemplateOf(w, chain)
  }

  /** With one template for each key no circle changes template. */
  lemma OneTemplateNoSeam(w: Walk, resolve: Resolver, replicas: set<string>, templateOf: map<string, string>)
    requires OneTemplatePerKey(w, resolve, replicas, templateOf)
    ensures !SeamedCircle(w, resolve, replicas)
  {
    hide OneTemplatePerKey;
    hide TemplateOf;
    hide KeyAt;
    hide IsChain;
    hide SharedByTemplates;
    forall hops: seq<Hop>, i: nat | Circle(w, resolve, replicas, hops) && i < |hops| ensures !Seam(w, hops, i) {
      if Seam(w, hops, i) {
        var before, h := hops[if i == 0 then |hops| - 1 else i - 1], hops[i];
        assert IsHop(w, replicas, before) && IsHop(w, replicas, h) && FromKey(resolve, h) == ToKey(resolve, before);
        SeamShares(w, resolve, replicas, before, h);
        OneTemplateNotShared(w, resolve, replicas, templateOf, FromKey(resolve, h));
      }
    }
  }

  lemma OneTemplateNotShared(w: Walk, resolve: Resolver, replicas: set<string>, templateOf: map<string, string>,
                             k: string)
    requires OneTemplatePerKey(w, resolve, replicas, templateOf)
    ensures !SharedByTemplates(w, resolve, replicas, k)
  {
    hide IsChain;
    hide TemplateOf;
  }

  /** If every key comes from one template, the merged graph of any number of replicas is acyclic. */
  lemma CompiledGraphAcyclic(w: Walk, resolve: Resolver, replicas: set<string>, g: map<string, ScheduledResource>,
                             templateOf: map<string, string>)
    requires Compiled(w, resolve, replicas, g) && Terminates(w)
    requires OneTemplatePerKey(w, resolve, replicas, templateOf)
    ensures Acyclic(RequiredByGraph(g))
  {
    hide Exact;
    hide Terminates;
    hide OneTemplatePerKey;
    hide SeamedCircle;
    OneTemplateNoSeam(w, resolve, replicas, templateOf);
    CyclicIffCircle(w, resolve, replicas, g);
  }
}
