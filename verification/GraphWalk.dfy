/** What one replica's walk over the dependencies visits, and when it ends. */
module GraphWalk {
  import opened Dependencies
  import opened Graphs
  import opened Grouping
  import opened CycleDetection

  // ---------- grouping dependencies by parent ----------

  type DependencyMap = map<string, seq<Dependency>>

  predicate HasParent(deps: seq<Dependency>, name: string) {
    exists d :: d in deps && d.parent == name
  }

  predicate HasChild(deps: seq<Dependency>, name: string) {
    exists d :: d in deps && d.child == name
  }

  function DefaultDependency(name: string): Dependency {
    Dependency("", DEFAULT_FLOW_KEY, name, map[], map[])
  }

  /** A name the default flow adopts: no flow, known as a parent or by definition, and nobody's child. */
  predicate Adopted(deps: seq<Dependency>, resDefs: map<string, ResourceDefinition>, name: string) {
    !IsFlowKey(name) && (HasParent(deps, name) || name in resDefs) && !HasChild(deps, name)
  }

  function WithParent(deps: seq<Dependency>, name: string): seq<Dependency> {
    if deps == [] then []
    else
      var rest := WithParent(deps[..|deps| - 1], name);
      if deps[|deps| - 1].parent == name then rest + [deps[|deps| - 1]] else rest
  }

  lemma {:induction false} WithParentContents(deps: seq<Dependency>, name: string)
    ensures forall d :: d in WithParent(deps, name) <==> d in deps && d.parent == name
  {
    if deps != [] {
      WithParentContents(deps[..|deps| - 1], name);
      assert deps == deps[..|deps| - 1] + [deps[|deps| - 1]];
    }
  }

  /** The dependency lists by parent. Without a dependency that starts at the default flow, a list for it is made up. */
  ghost predicate GroupedByParent(deps: seq<Dependency>, resDefs: map<string, ResourceDefinition>,
                                  result: DependencyMap) {
    && (forall p :: p in result && (p != DEFAULT_FLOW_KEY || HasParent(deps, p)) ==>
          HasParent(deps, p) && result[p] == WithParent(deps, p))
    && (forall d :: d in deps ==> d.parent in result)
    && (!HasParent(deps, DEFAULT_FLOW_KEY) ==>
          && DEFAULT_FLOW_KEY in result
          && Distinct(result[DEFAULT_FLOW_KEY])
          && forall d :: d in result[DEFAULT_FLOW_KEY] <==> Adopted(deps, resDefs, d.child) && d == DefaultDependency(d.child))
  }

  method GroupDependencies(deps: seq<Dependency>,
                           resDefs: map<string, ResourceDefinition>) returns (result: DependencyMap)
    ensures GroupedByParent(deps, resDefs, result)
  {
    hide WithParent;
    hide Adopted;
    result := map[];
    var isDependant: set<string> := {};
    for i := 0 to |deps|
      invariant forall p :: p in result <==> HasParent(deps[..i], p)
      invariant forall p :: p in result ==> result[p] == WithParent(deps[..i], p)
      invariant forall n :: n in isDependant <==> HasChild(deps[..i], n)
    {
      var dep := deps[i];
      assert deps[..i + 1] == deps[..i] + [dep];
      WithParentMore(deps[..i], dep);
      if dep.parent !in result {
        NoParentNoList(deps[..i], dep.parent);
        result := result[dep.parent := [dep]];
      } else {
        result := result[dep.parent := result[dep.parent] + [dep]];
      }
      isDependant := isDependant + {dep.child};
    }
    assert deps[..|deps|] == deps;
    if DEFAULT_FLOW_KEY !in result {
      var defaultFlow := AdoptAll(deps, resDefs, result.Keys, isDependant);
      result := result[DEFAULT_FLOW_KEY := defaultFlow];
    }
  }

  lemma WithParentMore(deps: seq<Dependency>, dep: Dependency)
    ensures forall p ::
      WithParent(deps + [dep], p) == if dep.parent == p then WithParent(deps, p) + [dep] else WithParent(deps, p)
  {
    assert (deps + [dep])[..|deps|] == deps;
  }

  lemma NoParentNoList(deps: seq<Dependency>, name: string)
    requires !HasParent(deps, name)
    ensures WithParent(deps, name) == []
  {
    var l := WithParent(deps, name);
    assert l != [] ==> l[0] in l;
    WithParentContents(deps, name);
  }

  ghost predicate AdoptedFrom(names: set<string>, children: set<string>, d: Dependency) {
    d == DefaultDependency(d.child) && d.child in names && !IsFlowKey(d.child) && d.child !in children
  }

  /** Adds every parent name and then every defined name that no dependency leads to, each once, in any order. */
  method AdoptAll(deps: seq<Dependency>, resDefs: map<string, ResourceDefinition>, parents: set<string>,
                  children: set<string>)
    returns (defaultFlow: seq<Dependency>)
    requires forall p :: p in parents <==> HasParent(deps, p)
    requires forall n :: n in children <==> HasChild(deps, n)
    ensures Distinct(defaultFlow)
    ensures forall d :: d in defaultFlow <==> Adopted(deps, resDefs, d.child) && d == DefaultDependency(d.child)
  {
    var isDependant := children;
    defaultFlow, isDependant := AddResources(parents, {}, children, [], isDependant);
    defaultFlow, isDependant := AddResources(resDefs.Keys, parents, children, defaultFlow, isDependant);
  }

  method AddResources(names: set<string>, ghost before: set<string>, ghost children: set<string>,
                      list: seq<Dependency>, dependants: set<string>)
    returns (defaultFlow: seq<Dependency>, isDependant: set<string>)
    requires Distinct(list) && forall d :: d in list <==> AdoptedFrom(before, children, d)
    requires forall n :: n in dependants <==> n in children || DefaultDependency(n) in list
    ensures Distinct(defaultFlow) && forall d :: d in defaultFlow <==> AdoptedFrom(before + names, children, d)
    ensures forall n :: n in isDependant <==> n in children || DefaultDependency(n) in defaultFlow
  {
    defaultFlow, isDependant := list, dependants;
    var todo := names;
    while todo != {}
      invariant todo <= names
      invariant Distinct(defaultFlow) && forall d :: d in defaultFlow <==> AdoptedFrom(before + (names - todo), children, d)
      invariant forall n :: n in isDependant <==> n in children || DefaultDependency(n) in defaultFlow
      decreases todo
    {
      var name :| name in todo;
      if !IsFlowKey(name) && name !in isDependant {
        defaultFlow := defaultFlow + [DefaultDependency(name)];
        isDependant := isDependant + {name};
      }
      todo := todo - {name};
    }
  }

  // ---------- the walk ----------

  datatype Walk = Walk(deps: DependencyMap, resDefs: map<string, ResourceDefinition>, flow: Flow, useDestructionSelector: bool)

  function Filtered(list: seq<Dependency>, flow: Flow, useDestructionSelector: bool): seq<Dependency> {
    if list == [] then []
    else
      var rest, d := Filtered(list[..|list| - 1], flow, useDestructionSelector), list[|list| - 1];
      if CanBelong(d, flow, useDestructionSelector) then rest + [d] else rest
  }

  /** The dependency starts at a defined flow and belongs to it: what it leads to is deployed by that flow itself. */
  predicate Delegated(d: Dependency, resDefs: map<string, ResourceDefinition>) {
    d.parent in resDefs && resDefs[d.parent].flow.Some? && BelongsToFlow(d, resDefs[d.parent].flow.value)
  }

  function NotDelegated(list: seq<Dependency>, resDefs: map<string, ResourceDefinition>): seq<Dependency> {
    if list == [] then []
    else
      var rest, d := NotDelegated(list[..|list| - 1], resDefs), list[|list| - 1];
      if Delegated(d, resDefs) then rest else rest + [d]
  }

  /** A flow without a definition: creating a block for it ends the program. */
  predicate UndefinedFlow(w: Walk, template: string) {
    IsFlowKey(template) && DefinitionKey(template) !in w.resDefs
  }

  function FilteredAt(w: Walk, template: string): seq<Dependency> {
    Filtered(if template in w.deps then w.deps[template] else [], w.flow, w.useDestructionSelector)
  }

  /** The dependencies a block is expanded by. Only blocks other than the root test for delegation. */
  function Followed(w: Walk, template: string, isRoot: bool): seq<Dependency> {
    if isRoot then FilteredAt(w, template)
    else if UndefinedFlow(w, template) then []
    else if IsFlowKey(template) then NotDelegated(FilteredAt(w, template), w.resDefs)
    else FilteredAt(w, template)
  }

  function TemplateOf(w: Walk, chain: seq<Dependency>): string {
    if chain == [] then FlowKey(w.flow) else chain[|chain| - 1].child
  }

  /** The dependencies that extend the block at the end of `chain`. */
  function Extensions(w: Walk, chain: seq<Dependency>): seq<Dependency> {
    Followed(w, TemplateOf(w, chain), chain == [])
  }

  /** The blocks of a walk are its chains: each dependency extends the block before it, the first one the root. */
  predicate IsChain(w: Walk, chain: seq<Dependency>) {
    chain == [] || (IsChain(w, chain[..|chain| - 1]) && chain[|chain| - 1] in Extensions(w, chain[..|chain| - 1]))
  }

  lemma {:induction false} FilteredContents(list: seq<Dependency>, flow: Flow, b: bool)
    ensures forall d :: d in Filtered(list, flow, b) <==> d in list && CanBelong(d, flow, b)
  {
    if list != [] {
      FilteredContents(list[..|list| - 1], flow, b);
      assert list == list[..|list| - 1] + [list[|list| - 1]];
    }
  }

  lemma {:induction false} NotDelegatedContents(list: seq<Dependency>, resDefs: map<string, ResourceDefinition>)
    ensures forall d :: d in NotDelegated(list, resDefs) <==> d in list && !Delegated(d, resDefs)
  {
    if list != [] {
      NotDelegatedContents(list[..|list| - 1], resDefs);
      assert list == list[..|list| - 1] + [list[|list| - 1]];
    }
  }

  // ---------- the template graph of a walk ----------

  function Children(list: seq<Dependency>): seq<string> {
    seq(|list|, i requires 0 <= i < |list| => list[i].child)
  }

  lemma ChildrenContents(list: seq<Dependency>)
    ensures forall v :: v in Children(list) <==> exists d :: d in list && d.child == v
  {
    forall v | v in Children(list) ensures exists d :: d in list && d.child == v {
      var i :| 0 <= i < |list| && Children(list)[i] == v;
      assert list[i] in list;
    }
    forall d | d in list ensures d.child in Children(list) {
      var i :| 0 <= i < |list| && list[i] == d;
      assert Children(list)[i] == d.child;
    }
  }

  ghost function Templates(w: Walk): set<string> {
    {FlowKey(w.flow)} + w.deps.Keys + (set u, d | u in w.deps && d in w.deps[u] :: d.child)
  }

  /** Template-level edges out of blocks that are not the root. */
  ghost function TemplateGraph(w: Walk): Graph {
    map u | u in Templates(w) :: Children(Followed(w, u, false))
  }

  lemma FollowedAt(w: Walk, u: string, isRoot: bool)
    ensures forall d :: d in Followed(w, u, isRoot) ==>
      u in w.deps && d in w.deps[u] && CanBelong(d, w.flow, w.useDestructionSelector) && d.child in Templates(w)
    ensures forall d :: d in Followed(w, u, false) ==> !UndefinedFlow(w, u) && (IsFlowKey(u) ==> !Delegated(d, w.resDefs))
    ensures forall d :: d in Followed(w, u, false) ==> d in Followed(w, u, true)
  {
    FilteredContents(if u in w.deps then w.deps[u] else [], w.flow, w.useDestructionSelector);
    NotDelegatedContents(FilteredAt(w, u), w.resDefs);
  }

  lemma TemplateGraphClosed(w: Walk)
    ensures Closed(TemplateGraph(w))
  {
    var g := TemplateGraph(w);
    forall u, v | Edge(g, u, v) ensures v in g {
      FollowedAt(w, u, false);
      ChildrenContents(Followed(w, u, false));
    }
  }

  lemma TemplateEdges(w: Walk, u: string, v: string)
    ensures Edge(TemplateGraph(w), u, v) <==> exists d :: d in Followed(w, u, false) && d.child == v
  {
    FollowedAt(w, u, false);
    ChildrenContents(Followed(w, u, false));
  }

  /** Templates that some block other than the root has. */
  ghost predicate Visited(w: Walk, v: string) {
    exists d :: d in Followed(w, FlowKey(w.flow), true) && Reach(TemplateGraph(w), d.child, v)
  }

  /** The template graph cut down to what the walk can get to. */
  ghost function LiveGraph(w: Walk): Graph {
    map u | u in Templates(w) && Visited(w, u) :: TemplateGraph(w)[u]
  }

  lemma LiveEdge(w: Walk, u: string, v: string)
    requires u in LiveGraph(w) && Edge(TemplateGraph(w), u, v)
    ensures v in LiveGraph(w) && Edge(LiveGraph(w), u, v)
  {
    TemplateGraphClosed(w);
    var d :| d in Followed(w, FlowKey(w.flow), true) && Reach(TemplateGraph(w), d.child, u);
    ReachBeforeEdge(TemplateGraph(w), d.child, u, v);
  }

  lemma LiveGraphClosed(w: Walk)
    ensures Closed(LiveGraph(w))
  {
    forall u, v | Edge(LiveGraph(w), u, v) ensures v in LiveGraph(w) {
      LiveEdge(w, u, v);
    }
  }

  lemma {:induction false} ChainTemplateLive(w: Walk, chain: seq<Dependency>)
    requires IsChain(w, chain) && chain != []
    ensures TemplateOf(w, chain) in LiveGraph(w)
  {
    var front, d := chain[..|chain| - 1], chain[|chain| - 1];
    if front == [] {
      FollowedAt(w, FlowKey(w.flow), true);
      ReachSelf(TemplateGraph(w), d.child);
    } else {
      ChainTemplateLive(w, front);
      TemplateEdges(w, TemplateOf(w, front), d.child);
      LiveEdge(w, TemplateOf(w, front), d.child);
    }
  }

  // ---------- when the walk ends ----------

  ghost predicate Terminates(w: Walk) {
    Acyclic(LiveGraph(w))
  }

  lemma {:induction false} ChainRank(w: Walk, chain: seq<Dependency>)
    requires Terminates(w) && IsChain(w, chain) && chain != []
    ensures |chain| + Rank(LiveGraph(w), TemplateOf(w, chain)) <= |LiveGraph(w)| + 1
  {
    var g, front, d := LiveGraph(w), chain[..|chain| - 1], chain[|chain| - 1];
    ChainTemplateLive(w, chain);
    if front == [] {
      SubsetNotLarger(ReachSet(g, d.child), g.Keys);
      assert |g.Keys| == |g|;
    } else {
      ChainRank(w, front);
      ChainTemplateLive(w, front);
      TemplateEdges(w, TemplateOf(w, front), d.child);
      LiveEdge(w, TemplateOf(w, front), d.child);
      LiveGraphClosed(w);
      RankDrops(g, TemplateOf(w, front), d.child);
    }
  }

  lemma {:induction false} ChainAlongPath(w: Walk, chain: seq<Dependency>,
                                          p: seq<string>) returns (longer: seq<Dependency>)
    requires IsChain(w, chain) && chain != []
    requires IsPath(TemplateGraph(w), p) && p[0] == TemplateOf(w, chain)
    ensures IsChain(w, longer) && |longer| == |chain| + |p| - 1 && TemplateOf(w, longer) == p[|p| - 1]
    decreases |p|
  {
    longer := chain;
    if |p| > 1 {
      TemplateEdges(w, p[0], p[1]);
      var d :| d in Followed(w, p[0], false) && d.child == p[1];
      assert (chain + [d])[..|chain|] == chain;
      longer := ChainAlongPath(w, chain + [d], p[1..]);
    }
  }

  lemma {:induction false} ChainAroundCycle(w: Walk, chain: seq<Dependency>, p: seq<string>, n: nat)
    returns (longer: seq<Dependency>)
    requires IsChain(w, chain) && chain != []
    requires IsCycle(TemplateGraph(w), p) && p[0] == TemplateOf(w, chain)
    ensures IsChain(w, longer) && |longer| > n && TemplateOf(w, longer) == p[0]
    decreases n - |chain|
  {
    longer := chain;
    if |chain| <= n {
      longer := ChainAlongPath(w, chain, p);
      longer := ChainAroundCycle(w, longer, p, n);
    }
  }

  lemma {:induction false} LivePath(w: Walk, p: seq<string>)
    requires IsPath(LiveGraph(w), p)
    ensures IsPath(TemplateGraph(w), p)
    decreases |p|
  {
    if |p| > 1 { LivePath(w, p[1..]); }
  }

  lemma CycleMakesLongChains(w: Walk, p: seq<string>, n: nat) returns (longer: seq<Dependency>)
    requires IsCycle(LiveGraph(w), p)
    ensures IsChain(w, longer) && |longer| > n
  {
    assert p[0] in LiveGraph(w);
    var chain := ChainToVisited(w, p[0]);
    LivePath(w, p);
    longer := ChainAroundCycle(w, chain, p, n);
  }

  lemma ChainToVisited(w: Walk, v: string) returns (chain: seq<Dependency>)
    requires Visited(w, v)
    ensures IsChain(w, chain) && chain != [] && TemplateOf(w, chain) == v
  {
    var d :| d in Followed(w, FlowKey(w.flow), true) && Reach(TemplateGraph(w), d.child, v);
    var q :| PathBetween(TemplateGraph(w), q, d.child, v);
    assert [d][..0] == [] && Extensions(w, []) == Followed(w, FlowKey(w.flow), true);
    assert IsChain(w, [d]);
    hide Followed;
    chain := ChainAlongPath(w, [d], q);
  }

  ghost predicate ChainsBoundedBy(w: Walk, n: nat) {
    forall chain :: IsChain(w, chain) ==> |chain| <= n
  }

  /** The walk makes one block per chain, so it ends exactly when chains cannot grow for ever; this is acyclicity of the
      part of the template graph it gets to. */
  lemma TerminatesIffChainsBounded(w: Walk)
    ensures Terminates(w) <==> exists n :: ChainsBoundedBy(w, n)
  {
    if Terminates(w) {
      forall chain | IsChain(w, chain) ensures |chain| <= |LiveGraph(w)| + 1 {
        if chain != [] { ChainRank(w, chain); }
      }
      assert ChainsBoundedBy(w, |LiveGraph(w)| + 1);
    } else {
      var p :| IsCycle(LiveGraph(w), p);
      forall n ensures !ChainsBoundedBy(w, n) {
        var chain := CycleMakesLongChains(w, p, n);
      }
    }
  }

  // ---------- the cycle check makes the walk end ----------

  /** The walk for one path of `flow` over the loaded dependencies. */
  ghost predicate WalkOver(w: Walk, deps: seq<Dependency>, resDefs: map<string, ResourceDefinition>) {
    && WellKeyed(resDefs) && w.resDefs == resDefs
    && GroupedByParent(deps, resDefs, w.deps)
    && FlowKey(w.flow) in FlowsToCheck(resDefs) && FlowsToCheck(resDefs)[FlowKey(w.flow)] == w.flow
  }

  /** Some dependency starts at the default flow, or none leads to it. */
  predicate DefaultFlowIsEntered(deps: seq<Dependency>) {
    HasParent(deps, DEFAULT_FLOW_KEY) || !HasChild(deps, DEFAULT_FLOW_KEY)
  }

  /** Every edge the walk follows is an edge the cycle check saw, or one out of the made-up list of the default flow. */
  lemma FollowedWasChecked(w: Walk, deps: seq<Dependency>, resDefs: map<string, ResourceDefinition>, u: string,
                           v: string)
    requires WalkOver(w, deps, resDefs) && Edge(TemplateGraph(w), u, v)
    ensures (u == DEFAULT_FLOW_KEY && !HasParent(deps, u) && Adopted(deps, resDefs, v)) ||
      Edge(GroupedGraph(deps, FlowsToCheck(resDefs), w.flow, w.useDestructionSelector), u, v)
  {
    var flows := FlowsToCheck(resDefs);
    TemplateEdges(w, u, v);
    var d :| d in Followed(w, u, false) && d.child == v;
    FollowedAt(w, u, false);
    DefaultFlowKeyHasNoSuffix();
    hide DefinitionKey;
    hide Followed;
    hide TemplateGraph;
    if u != DEFAULT_FLOW_KEY || HasParent(deps, u) {
      WithParentContents(deps, u);
      assert d in deps && d.parent == u;
      assert u in flows ==> u in resDefs && flows[u] == resDefs[u].flow.value;
      assert Selected(d, flows, w.flow, w.useDestructionSelector);
      GroupedEdges(deps, flows, w.flow, w.useDestructionSelector);
      assert Names(deps, flows, w.flow, w.useDestructionSelector, u, v);
    }
  }

  /** A vertex nothing leads to is on no cycle. */
  lemma {:induction false} PathPastSource(g: Graph, h: Graph, s: string, p: seq<string>)
    requires forall u, v :: Edge(g, u, v) ==> v != s && (u == s || Edge(h, u, v))
    requires IsPath(g, p) && p[0] != s
    ensures IsPath(h, p)
    decreases |p|
  {
    if |p| > 1 {
      PathPastSource(g, h, s, p[1..]);
    }
  }

  lemma AcyclicPastSource(g: Graph, h: Graph, s: string)
    requires forall u, v :: Edge(g, u, v) ==> v != s && (u == s || Edge(h, u, v))
    requires Acyclic(h)
    ensures Acyclic(g)
  {
    forall p ensures !IsCycle(g, p) {
      if IsCycle(g, p) {
        EdgeInsideCycle(g, p, |p| - 2);
        PathPastSource(g, h, s, p);
        assert IsCycle(h, p);
      }
    }
  }

  /** When the cycle check passes, every walk over the checked dependencies ends, provided the made-up list of the default
      flow cannot be entered from inside. */
  lemma CheckedWalksTerminate(w: Walk, deps: seq<Dependency>, resDefs: map<string, ResourceDefinition>)
    requires WalkOver(w, deps, resDefs)
    requires NoCycles(deps, resDefs) && DefaultFlowIsEntered(deps)
    ensures Acyclic(TemplateGraph(w)) && Terminates(w)
  {
    var g, h := TemplateGraph(w), GroupedGraph(deps, FlowsToCheck(resDefs), w.flow, w.useDestructionSelector);
    assert Acyclic(h);
    if HasParent(deps, DEFAULT_FLOW_KEY) {
      forall u, v | Edge(g, u, v) ensures Edge(h, u, v) {
        FollowedWasChecked(w, deps, resDefs, u, v);
      }
      SubgraphAcyclic(g, h);
    } else {
      forall u, v | Edge(g, u, v) ensures v != DEFAULT_FLOW_KEY && (u == DEFAULT_FLOW_KEY || Edge(h, u, v)) {
        FollowedWasChecked(w, deps, resDefs, u, v);
        GroupedEdges(deps, FlowsToCheck(resDefs), w.flow, w.useDestructionSelector);
      }
      AcyclicPastSource(g, h, DEFAULT_FLOW_KEY);
    }
    forall u, v | Edge(LiveGraph(w), u, v) ensures Edge(g, u, v) {
    }
    SubgraphAcyclic(LiveGraph(w), g);
  }

  lemma {:induction false} SubgraphPath(g: Graph, h: Graph, p: seq<string>)
    requires forall u, v :: Edge(g, u, v) ==> Edge(h, u, v)
    requires IsPath(g, p)
    ensures IsPath(h, p)
    decreases |p|
  {
    if |p| > 1 { SubgraphPath(g, h, p[1..]); }
  }

  lemma SubgraphAcyclic(g: Graph, h: Graph)
    requires forall u, v :: Edge(g, u, v) ==> Edge(h, u, v)
    requires Acyclic(h)
    ensures Acyclic(g)
  {
    forall p ensures !IsCycle(g, p) {
      if IsCycle(g, p) {
        SubgraphPath(g, h, p);
        assert IsCycle(h, p);
      }
    }
  }

  // ---------- exactly when a checked walk fails to end ----------

  /** The made-up list of the default flow can be entered from inside and leads back to its own entry. */
  ghost predicate DefaultFlowLoops(w: Walk) {
    Visited(w, DEFAULT_FLOW_KEY) &&
    exists v :: Edge(TemplateGraph(w), DEFAULT_FLOW_KEY, v) && Reach(TemplateGraph(w), v, DEFAULT_FLOW_KEY)
  }

  lemma {:induction false} PathStaysLive(w: Walk, p: seq<string>)
    requires IsPath(TemplateGraph(w), p) && p[0] in LiveGraph(w)
    ensures IsPath(LiveGraph(w), p)
    decreases |p|
  {
    if |p| > 1 {
      LiveEdge(w, p[0], p[1]);
      PathStaysLive(w, p[1..]);
    }
  }

  lemma {:induction false} PathAvoids(g: Graph, h: Graph, s: string, p: seq<string>)
    requires forall u, v :: Edge(g, u, v) ==> u == s || Edge(h, u, v)
    requires IsPath(g, p) && s !in p
    ensures IsPath(h, p)
    decreases |p|
  {
    if |p| > 1 { PathAvoids(g, h, s, p[1..]); }
  }

  lemma CycleThrough(g: Graph, p: seq<string>, s: string) returns (v: string)
    requires IsCycle(g, p) && s in p
    ensures Edge(g, s, v) && Reach(g, v, s)
  {
    var i :| 0 <= i < |p| && p[i] == s;
    var j := if i == |p| - 1 then 0 else i;
    EdgeInsideCycle(g, p, j);
    v := p[j + 1];
    CycleVerticesReachEachOther(g, p, j + 1, j);
  }

  /** After a passed check this loop is the only way a walk can fail to end. */
  lemma CheckedWalkEndsUnlessDefaultFlowLoops(w: Walk, deps: seq<Dependency>, resDefs: map<string, ResourceDefinition>)
    requires WalkOver(w, deps, resDefs) && NoCycles(deps, resDefs)
    ensures Terminates(w) <==> !DefaultFlowLoops(w)
  {
    hide TemplateGraph;
    var g, h := TemplateGraph(w), GroupedGraph(deps, FlowsToCheck(resDefs), w.flow, w.useDestructionSelector);
    if DefaultFlowLoops(w) {
      var v :| Edge(g, DEFAULT_FLOW_KEY, v) && Reach(g, v, DEFAULT_FLOW_KEY);
      var p := CycleThroughEdge(g, DEFAULT_FLOW_KEY, v);
      DefaultFlowIsLive(w);
      PathStaysLive(w, p);
      assert IsCycle(LiveGraph(w), p);
    }
    if !Terminates(w) {
      var p :| IsCycle(LiveGraph(w), p);
      LivePath(w, p);
      if DEFAULT_FLOW_KEY !in p {
        forall u, v | Edge(g, u, v) ensures u == DEFAULT_FLOW_KEY || Edge(h, u, v) {
          FollowedWasChecked(w, deps, resDefs, u, v);
        }
        assert !IsCycle(h, p);
        PathAvoids(g, h, DEFAULT_FLOW_KEY, p);
      } else {
        var v := CycleThrough(g, p, DEFAULT_FLOW_KEY);
        var x := CycleThrough(LiveGraph(w), p, DEFAULT_FLOW_KEY);
        assert DEFAULT_FLOW_KEY in LiveGraph(w);
      }
    }
  }

  lemma DefaultFlowIsLive(w: Walk)
    requires DefaultFlowLoops(w)
    ensures DEFAULT_FLOW_KEY in LiveGraph(w)
  {
    var v :| Edge(TemplateGraph(w), DEFAULT_FLOW_KEY, v) && Reach(TemplateGraph(w), v, DEFAULT_FLOW_KEY);
  }
}
