/** Building the graph of a flow from its options: every check in its order, the replicas, the graph, and its cleanup. */
module FlowBuilding {
  import opened Dependencies
  import opened Graphs
  import opened CycleDetection
  import opened GraphWalk
  import opened GraphBuilder
  import opened GraphBuilding
  import R = ReplicaAllocation
  import C = ReplicaCleanup

  // ---------- the checks before anything is built ----------

  function FlowToBuild(resDefs: map<string, ResourceDefinition>, flowName: string): Option<Flow> {
    var name := if flowName == "" then DEFAULT_FLOW_NAME else flowName;
    var key := FLOW_PREFIX + name;
    if key !in resDefs && name != DEFAULT_FLOW_NAME then None
    else if key in resDefs && resDefs[key].flow.None? then None
    else if key in resDefs then resDefs[key].flow
    else Some(DefaultFlow())
  }

  /** Every argument is declared, unless that is not asked for, and every parameter without a default has its argument. */
  ghost predicate ArgsAccepted(o: GraphOptions, flow: Flow) {
    && (o.allowUndeclaredArgs || o.args.Keys <= flow.parameters.Keys)
    && forall key :: key in flow.parameters && flow.parameters[key].None? ==> key in o.args
  }

  method CheckArgs(o: GraphOptions, flow: Flow) returns (ok: bool)
    ensures ok <==> ArgsAccepted(o, flow)
  {
    if !o.allowUndeclaredArgs {
      var keys := o.args.Keys;
      while keys != {}
        invariant keys <= o.args.Keys && o.args.Keys - keys <= flow.parameters.Keys
        decreases keys
      {
        var key :| key in keys;
        if key !in flow.parameters {
          return false;
        }
        keys := keys - {key};
      }
    }
    var parameters := flow.parameters.Keys;
    while parameters != {}
      invariant parameters <= flow.parameters.Keys
      invariant forall key :: key in flow.parameters && key !in parameters && flow.parameters[key].None? ==> key in o.args
      decreases parameters
    {
      var key :| key in parameters;
      if flow.parameters[key].None? && key !in o.args {
        return false;
      }
      parameters := parameters - {key};
    }
    ok := true;
  }

  datatype Refusal = FlowNotFound | FlowNotExported | BadArguments | CyclesFound | NoReplica | OutOfBounds | ResourceNotCreated

  /** What the checks say, the first one that fails deciding. */
  ghost function Verdict(deps: seq<Dependency>, resDefs: map<string, ResourceDefinition>,
                         o: GraphOptions): Option<Refusal> {
    match FlowToBuild(resDefs, o.flowName)
    case None => Some(FlowNotFound)
    case Some(flow) =>
      if !flow.exported && o.exportedOnly then Some(FlowNotExported)
      else if !ArgsAccepted(o, flow) then Some(BadArguments)
      else if !NoCycles(deps, resDefs) then Some(CyclesFound)
      else None
  }

  method RunChecks(deps: seq<Dependency>, resDefs: map<string, ResourceDefinition>,
                   o: GraphOptions) returns (refusal: Option<Refusal>)
    requires WellKeyed(resDefs)
    ensures refusal == Verdict(deps, resDefs, o)
  {
    hide NoCycles;
    hide FlowToBuild;
    hide ArgsAccepted;
    var flow := FlowToBuild(resDefs, o.flowName);
    if flow.None? {
      return Some(FlowNotFound);
    }
    if !flow.value.exported && o.exportedOnly {
      return Some(FlowNotExported);
    }
    var accepted := CheckArgs(o, flow.value);
    if !accepted {
      return Some(BadArguments);
    }
    var acyclic := EnsureNoCycles(deps, resDefs);
    refusal := if acyclic then None else Some(CyclesFound);
  }

  lemma BuildsWalk(deps: seq<Dependency>, dependencies: DependencyMap, resDefs: map<string, ResourceDefinition>,
                   flowName: string, b: bool)
    requires WellKeyed(resDefs) && GroupedByParent(deps, resDefs, dependencies) && FlowToBuild(resDefs, flowName).Some?
    ensures WalkOver(Walk(dependencies, resDefs, FlowToBuild(resDefs, flowName).value, b), deps, resDefs)
  {
    hide GroupedByParent;
    assert FLOW_PREFIX + DEFAULT_FLOW_NAME == DEFAULT_FLOW_KEY;
  }

  // ---------- the whole build ----------

  function Names(replicas: seq<R.Replica>): (names: seq<string>)
    ensures |names| == |replicas| && forall i :: 0 <= i < |names| ==> names[i] == replicas[i].uid
  {
    seq(|replicas|, i requires 0 <= i < |replicas| => replicas[i].uid)
  }

  /** How the replicas of a build are chosen from the records before; `chosen` is what was to be left of them. */
  ghost predicate Selects(before: set<R.Replica>, o: GraphOptions, chosen: set<R.Replica>, replicas: seq<R.Replica>,
                          deleteReplicas: seq<R.Replica>) {
    if o.replicaCount < 0 && o.fixedNumberOfReplicas then
      chosen == before && R.Lists(replicas, chosen) && deleteReplicas == []
    else
      R.AllocationStep(before, o, chosen, R.Allocated(replicas, deleteReplicas))
  }

  lemma OneListIsEmpty(before: set<R.Replica>, o: GraphOptions, chosen: set<R.Replica>, replicas: seq<R.Replica>,
                       deleteReplicas: seq<R.Replica>)
    requires Selects(before, o, chosen, replicas, deleteReplicas)
    ensures replicas == [] || deleteReplicas == []
  {
    hide R.BroughtUpTo;
  }

  /** What a build hands over: the graph; for replicas to remove, also the destructors, those from the graph of all replicas
      first. */
  datatype Build = Build(
    graph: map<string, ScheduledResource>,
    replicas: seq<R.Replica>,
    deleteReplicas: seq<R.Replica>,
    allReplicas: seq<R.Replica>,
    ofAll: map<string, ScheduledResource>,
    destructors: seq<ScheduledResource>,
    fromAll: nat)

  ghost predicate Walks(dependencies: DependencyMap, resDefs: map<string, ResourceDefinition>, flow: Flow,
                        resolve: Resolver, b: Build)
    reads b.graph.Values, b.ofAll.Values
  {
    var construction, destruction := Walk(dependencies, resDefs, flow, false), Walk(dependencies, resDefs, flow, true);
    if b.deleteReplicas == [] then
      Compiled(construction, resolve, Elements(Names(b.replicas)), b.graph) && b.destructors == []
    else
      && Compiled(destruction, resolve, Elements(Names(b.deleteReplicas)), b.graph)
      && Exact(construction, resolve, Elements(Names(b.allReplicas)), b.ofAll)
      && b.fromAll <= |b.destructors|
      && C.DestructorsOf(b.ofAll, Elements(Names(b.deleteReplicas)), b.destructors[..b.fromAll])
      && C.DestructorsOf(b.graph, Elements(Names(b.deleteReplicas)), b.destructors[b.fromAll..])
  }

  /** Every chain that the build walks can be resolved. */
  ghost predicate CanCreateAll(dependencies: DependencyMap, resDefs: map<string, ResourceDefinition>, flow: Flow,
                               resolve: Resolver, b: Build) {
    var construction, destruction := Walk(dependencies, resDefs, flow, false), Walk(dependencies, resDefs, flow, true);
    if b.deleteReplicas == [] then
      forall n :: n in Names(b.replicas) ==> AllResolve(construction, resolve, n)
    else
      && (forall n :: n in Names(b.deleteReplicas) ==> AllResolve(destruction, resolve, n))
      && (forall n :: n in Names(b.allReplicas) ==> AllResolve(construction, resolve, n))
  }

  method BuildDependencyGraph(deps: seq<Dependency>, resDefs: map<string, ResourceDefinition>, o: GraphOptions,
                              resolve: Resolver,
                              store: R.Store)
    returns (refusal: Option<Refusal>, b: Build, ghost dependencies: DependencyMap, ghost chosen: set<R.Replica>,
             ghost clean: bool)
    requires WellKeyed(resDefs) && ResolverFits(resDefs, resolve) && store.Valid()
    requires Verdict(deps, resDefs, o).None? ==> WalksEnd(deps, resDefs, FlowToBuild(resDefs, o.flowName).value)
    modifies store
    ensures store.Valid()
    ensures Verdict(deps, resDefs, o).Some? ==> refusal == Verdict(deps, resDefs, o) && store.records == old(store.records)
    ensures Verdict(deps, resDefs, o).None? ==>
      refusal.None? || refusal.value.NoReplica? || refusal.value.OutOfBounds? || refusal.value.ResourceNotCreated?
    ensures refusal == Some(NoReplica) ==> R.Deployed(store.records) == R.Deployed(old(store.records))
    ensures refusal == Some(OutOfBounds) ==> R.AllocationStep(old(store.records), o, chosen, R.OutOfBounds)
    ensures refusal.None? || refusal.value.ResourceNotCreated? ==>
      && Selects(old(store.records), o, chosen, b.replicas, b.deleteReplicas)
      && R.Leaves(old(store.records), chosen, clean, store.records)
      && (b.deleteReplicas != [] ==> R.Lists(b.allReplicas, store.records))
      && WalkOver(Walk(dependencies, resDefs, FlowToBuild(resDefs, o.flowName).value, b.deleteReplicas != []), deps, resDefs)
      && (refusal.None? <==> CanCreateAll(dependencies, resDefs, FlowToBuild(resDefs, o.flowName).value, resolve, b))
    ensures refusal.None? ==> Walks(dependencies, resDefs, FlowToBuild(resDefs, o.flowName).value, resolve, b)
  {
    hide Verdict;
    hide WalksEnd;
    hide FlowToBuild;
    hide Selects;
    hide R.Leaves;
    hide R.AllocationStep;
    hide Walks;
    hide CanCreateAll;
    hide WalkOver;
    hide ResolverFits;
    hide GroupedByParent;
    b := Build(map[], [], [], [], map[], [], 0);
    dependencies, chosen, clean := map[], {}, true;
    refusal := RunChecks(deps, resDefs, o);
    VerdictKinds(deps, resDefs, o);
    if refusal.Some? {
      return;
    }
    var flow := FlowToBuild(resDefs, o.flowName).value;
    var grouped := GroupDependencies(deps, resDefs);
    dependencies := grouped;
    BuildsWalk(deps, grouped, resDefs, o.flowName, false);
    BuildsWalk(deps, grouped, resDefs, o.flowName, true);
    var replicas, deleteReplicas;
    refusal, replicas, deleteReplicas, chosen, clean := ChooseReplicas(store, o);
    if refusal.Some? {
      return;
    }
    var built;
    built, b := BuildWith(store, deps, grouped, resDefs, flow, resolve, replicas, deleteReplicas);
    refusal := if built then None else Some(ResourceNotCreated);
  }

  lemma VerdictKinds(deps: seq<Dependency>, resDefs: map<string, ResourceDefinition>, o: GraphOptions)
    ensures var v := Verdict(deps, resDefs, o);
      if v.None? then FlowToBuild(resDefs, o.flowName).Some?
      else v.value.FlowNotFound? || v.value.FlowNotExported? || v.value.BadArguments? || v.value.CyclesFound?
  {
    hide NoCycles;
    hide FlowToBuild;
  }

  method ChooseReplicas(store: R.Store, o: GraphOptions)
    returns (refusal: Option<Refusal>, replicas: seq<R.Replica>, deleteReplicas: seq<R.Replica>,
             ghost chosen: set<R.Replica>, ghost clean: bool)
    requires store.Valid()
    modifies store
    ensures store.Valid()
    ensures refusal.Some? ==> refusal.value.NoReplica? || refusal.value.OutOfBounds?
    ensures refusal == Some(NoReplica) ==> R.Deployed(store.records) == R.Deployed(old(store.records))
    ensures refusal == Some(OutOfBounds) ==> R.AllocationStep(old(store.records), o, chosen, R.OutOfBounds)
    ensures refusal.None? ==> Selects(old(store.records), o, chosen, replicas, deleteReplicas)
    ensures refusal.None? ==> R.Leaves(old(store.records), chosen, clean, store.records)
    ensures refusal.None? ==> replicas == [] || deleteReplicas == []
  {
    hide R.AllocationStep;
    hide R.Lists;
    replicas, deleteReplicas := [], [];
    var allocation;
    allocation, chosen, clean := R.SelectReplicas(store, o);
    match allocation {
      case CreateFailed =>
        refusal := Some(NoReplica);
      case OutOfBounds =>
        refusal := Some(OutOfBounds);
      case Allocated(create, remove) =>
        refusal, replicas, deleteReplicas := None, create, remove;
        if o.replicaCount < 0 && o.fixedNumberOfReplicas { chosen, clean := store.records, true; }
        OneListIsEmpty(old(store.records), o, chosen, replicas, deleteReplicas);
    }
  }

  method BuildWith(store: R.Store, ghost deps: seq<Dependency>, dependencies: DependencyMap,
                   resDefs: map<string, ResourceDefinition>, flow: Flow,
                   resolve: Resolver, replicas: seq<R.Replica>, deleteReplicas: seq<R.Replica>)
    returns (ok: bool, b: Build)
    requires store.Valid() && ResolverFits(resDefs, resolve) && WalksEnd(deps, resDefs, flow)
    requires WalkOver(Walk(dependencies, resDefs, flow, false), deps, resDefs)
    requires (replicas == [] || deleteReplicas == [])
    ensures b.replicas == replicas && b.deleteReplicas == deleteReplicas
    ensures deleteReplicas != [] ==> R.Lists(b.allReplicas, store.records)
    ensures ok <==> CanCreateAll(dependencies, resDefs, flow, resolve, b)
    ensures ok ==> Walks(dependencies, resDefs, flow, resolve, b)
  {
    hide AllResolve;
    hide Compiled;
    hide R.Lists;
    hide C.DestructorsOf;
    hide Terminates;
    hide ResolverFits;
    var depGraph;
    ghost var w;
    depGraph, ok, w := CompileGraph(deps, dependencies, resDefs, flow, resolve, Names(replicas), Names(deleteReplicas));
    assert Names(replicas) + Names(deleteReplicas) == if deleteReplicas == [] then Names(replicas) else Names(deleteReplicas);
    b := Build(depGraph.graph, replicas, deleteReplicas, [], map[], [], 0);
    if deleteReplicas != [] {
      var all := R.AllReplicas(store);
      b := b.(allReplicas := all);
      if ok {
        CompiledIsExact(w, resolve, Elements(Names(deleteReplicas)), depGraph.graph);
        ok, b := AddDestructors(Walk(dependencies, resDefs, flow, false), w, resolve, b);
      }
    }
  }

  /** The graph of all replicas, and the destructors for what belongs to removed ones only. */
  method AddDestructors(construction: Walk, ghost destruction: Walk, resolve: Resolver, b: Build)
    returns (ok: bool, b': Build)
    requires ResolverFits(construction.resDefs, resolve) && Terminates(construction)
    requires Exact(destruction, resolve, Elements(Names(b.deleteReplicas)), b.graph)
    ensures b' == b.(ofAll := b'.ofAll, destructors := b'.destructors, fromAll := b'.fromAll)
    ensures ok <==> forall n :: n in Names(b.allReplicas) ==> AllResolve(construction, resolve, n)
    ensures ok ==>
      && Exact(construction, resolve, Elements(Names(b.allReplicas)), b'.ofAll)
      && b'.fromAll <= |b'.destructors|
      && C.DestructorsOf(b'.ofAll, Elements(Names(b.deleteReplicas)), b'.destructors[..b'.fromAll])
      && C.DestructorsOf(b.graph, Elements(Names(b.deleteReplicas)), b'.destructors[b'.fromAll..])
  {
    hide AllResolve;
    hide C.DestructorsOf;
    hide Terminates;
    hide ResolverFits;
    hide ExactAt;
    hide Produced;
    b' := b;
    var allReplicasGraph := new DependencyGraph();
    ok := FillDependencyGraph(allReplicasGraph, construction, resolve, Names(b.allReplicas));
    if !ok {
      return;
    }
    if b.allReplicas == [] { EmptyIsExact(construction, resolve); }
    assert Exact(construction, resolve, Elements(Names(b.allReplicas)), allReplicasGraph.graph);
    var replicaMap := ReplicaMap(b.deleteReplicas);
    var destructors, fromAll := C.GetResourceDestructors(allReplicasGraph.graph, b.graph, replicaMap);
    b' := b.(ofAll := allReplicasGraph.graph, destructors := destructors, fromAll := fromAll);
  }

  lemma CompiledIsExact(w: Walk, resolve: Resolver, replicas: set<string>, g: map<string, ScheduledResource>)
    requires Compiled(w, resolve, replicas, g)
    ensures Exact(w, resolve, replicas, g)
  {
  }

  method ReplicaMap(replicas: seq<R.Replica>) returns (m: map<string, R.Replica>)
    ensures m.Keys == Elements(Names(replicas)) && forall n :: n in m ==> m[n].uid == n && m[n] in replicas
  {
    m := map[];
    for i := 0 to |replicas|
      invariant m.Keys == Elements(Names(replicas[..i])) && forall n :: n in m ==> m[n].uid == n && m[n] in replicas
    {
      assert replicas[..i + 1] == replicas[..i] + [replicas[i]];
      assert Names(replicas[..i + 1]) == Names(replicas[..i]) + [replicas[i].uid];
      m := m[replicas[i].uid := replicas[i]];
    }
    assert replicas[..|replicas|] == replicas;
  }
}
