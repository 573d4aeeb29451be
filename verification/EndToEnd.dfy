/** From checked dependencies to a finished deployment: the chain of guarantees put together. */
module EndToEnd {
  import opened Dependencies
  import opened Graphs
  import opened CycleDetection
  import opened GraphWalk
  import opened GraphBuilder
  import opened GraphBuilding
  import opened FlowBuilding
  import opened Deployment
  import opened DeploymentSafety
  import opened DeploymentWork
  import opened DeploymentProgress
  import opened DeploymentCompletion

  /** The plan deploys the graph: the same resources and links. */
  ghost predicate Deploys(p: Plan, g: map<string, ScheduledResource>)
    reads g.Values
  {
    && p.needs == RequiresGraph(g) && p.neededBy == RequiredByGraph(g)
    && Distinct(p.keys) && Elements(p.keys) == g.Keys == p.attempts.Keys == p.policy.Keys
  }

  /** Everything that the results about deployments ask of a plan's graph. */
  ghost predicate Deployable(p: Plan) {
    ValidPlan(p) && Workable(p) && Acyclic(p.needs)
  }

  lemma RequirementsAcyclic(needs: Graph, neededBy: Graph)
    requires MutualLinks(needs, neededBy) && Acyclic(neededBy)
    ensures Acyclic(needs)
  {
    var rank := (k: string) => -(Rank(neededBy, k) as int);
    forall a, b | Edge(needs, a, b) ensures rank(b) < rank(a) {
      RankDrops(neededBy, b, a);
    }
    AcyclicByRank(needs, rank);
  }

  /** What was compiled from checked dependencies meets every assumption the deployment makes about its graph if and only if
      no circle of steps changes template at one of its keys. */
  lemma CompiledPlanIsSound(deps: seq<Dependency>, resDefs: map<string, ResourceDefinition>, w: Walk, resolve: Resolver,
                            replicas: set<string>, g: map<string, ScheduledResource>, p: Plan)
    requires NoCycles(deps, resDefs) && WalkOver(w, deps, resDefs) && !DefaultFlowLoops(w)
    requires Compiled(w, resolve, replicas, g) && Deploys(p, g)
    ensures ValidPlan(p) && (Deployable(p) <==> !SeamedCircle(w, resolve, replicas))
  {
    hide NoCycles;
    hide WalkOver;
    hide DefaultFlowLoops;
    hide Terminates;
    hide SeamedCircle;
    hide Exact;
    hide Acyclic;
    CheckedWalkEndsUnlessDefaultFlowLoops(w, deps, resDefs);
    CompiledLinksAreMutual(w, resolve, replicas, g);
    CyclicIffCircle(w, resolve, replicas, g);
    if Acyclic(p.neededBy) { RequirementsAcyclic(p.needs, p.neededBy); }
    if Acyclic(p.needs) { RequirementsAcyclic(p.neededBy, p.needs); }
  }

  /** In particular when every key comes from one template. */
  lemma OneTemplatePlanIsSound(deps: seq<Dependency>, resDefs: map<string, ResourceDefinition>, w: Walk,
                               resolve: Resolver,
                               replicas: set<string>, templateOf: map<string, string>,
                               g: map<string, ScheduledResource>,
                               p: Plan)
    requires NoCycles(deps, resDefs) && WalkOver(w, deps, resDefs) && !DefaultFlowLoops(w)
    requires Compiled(w, resolve, replicas, g) && OneTemplatePerKey(w, resolve, replicas, templateOf) && Deploys(p, g)
    ensures Deployable(p)
  {
    hide NoCycles;
    hide WalkOver;
    hide DefaultFlowLoops;
    hide OneTemplatePerKey;
    hide SeamedCircle;
    hide Compiled;
    OneTemplateNoSeam(w, resolve, replicas, templateOf);
    CompiledPlanIsSound(deps, resDefs, w, resolve, replicas, g, p);
  }

  /** A deployment of such a graph never gets stuck, works a bounded number of steps, reaches its finalizer only after every
      resource of the graph has finished, and can be brought to its end as long as nothing is lost, in every interleaving. */
  lemma CheckedDependenciesDeploy(deps: seq<Dependency>, resDefs: map<string, ResourceDefinition>, w: Walk,
                                  resolve: Resolver,
                                  replicas: set<string>, g: map<string, ScheduledResource>,
                                  p: Plan, states: seq<State>, events: seq<Event>, i: nat)
    requires NoCycles(deps, resDefs) && WalkOver(w, deps, resDefs) && !DefaultFlowLoops(w)
    requires Compiled(w, resolve, replicas, g) && !SeamedCircle(w, resolve, replicas) && Deploys(p, g)
    requires Startable(p)
    requires IsRun(p, states, events) && i < |states|
    ensures !states[i].finalized ==> CanGoOn(p, states[i], false)
    ensures Workable(p) && (i <= |events| ==> WorkingSteps(p, states, events, i) <= Work(p, Init(p)))
    ensures states[i].finalized ==> forall k :: k in g ==> k in states[i].res && DeploymentSafety.Reported(states[i].res[k])
    ensures p.onErrorEdges == {} && Finishable(p, states[i]) ==>
      exists more: seq<State>, rest: seq<Event> :: Continues(p, states[i], more, rest) && more[|rest|].finalized
  {
    hide NoCycles;
    hide WalkOver;
    hide DefaultFlowLoops;
    hide SeamedCircle;
    hide Compiled;
    hide Acyclic;
    hide CanGoOn;
    hide Work;
    hide WorkingSteps;
    hide IsRun;
    hide Startable;
    CompiledPlanIsSound(deps, resDefs, w, resolve, replicas, g, p);
    if !states[i].finalized { RunsNeverStuck(p, states, events, i); }
    if i <= |events| { WorkIsBounded(p, states, events, i); }
    InvInRun(p, states, events, i);
    if states[i].finalized { AllReceived(p, states[i]); }
    if p.onErrorEdges == {} && Finishable(p, states[i]) {
      var more, rest := EveryRunCanFinish(p, states, events, i);
    }
  }

  /** Building from any dependencies whose default flow is entered or not led to: building ends, and what it builds can be
      deployed if and only if no circle of steps changes template at one of its keys. */
  method BuildForDeployment(deps: seq<Dependency>, resDefs: map<string, ResourceDefinition>, o: GraphOptions,
                            resolve: Resolver, store: R.Store)
    returns (refusal: Option<Refusal>, b: Build, ghost w: Walk)
    requires WellKeyed(resDefs) && ResolverFits(resDefs, resolve) && store.Valid() && DefaultFlowIsEntered(deps)
    modifies store
    ensures store.Valid() && (Verdict(deps, resDefs, o).Some? ==> refusal == Verdict(deps, resDefs, o))
    ensures refusal.None? ==> w.resDefs == resDefs && FlowToBuild(resDefs, o.flowName) == Some(w.flow)
    ensures refusal.None? ==> w.useDestructionSelector == (b.deleteReplicas != []) && WalkOver(w, deps, resDefs)
    ensures refusal.None? ==> forall p :: Deploys(p, b.graph) ==>
      (Deployable(p) <==> !SeamedCircle(w, resolve, Elements(Names(b.replicas + b.deleteReplicas))))
  {
    hide NoCycles;
    hide WalkOver;
    hide Terminates;
    hide WalksEnd;
    hide FlowToBuild;
    hide SeamedCircle;
    hide Compiled;
    hide Deploys;
    hide ResolverFits;
    hide R.AllocationStep;
    hide R.Leaves;
    hide Selects;
    hide CanCreateAll;
    if Verdict(deps, resDefs, o).None? {
      CheckedMeansWalksEnd(deps, resDefs, FlowToBuild(resDefs, o.flowName).value);
    }
    ghost var dependencies, chosen, clean;
    refusal, b, dependencies, chosen, clean := BuildDependencyGraph(deps, resDefs, o, resolve, store);
    w := Walk(map[], resDefs, DefaultFlow(), false);
    if refusal.None? {
      w := Walk(dependencies, resDefs, FlowToBuild(resDefs, o.flowName).value, b.deleteReplicas != []);
      OneListIsEmpty(old(store.records), o, chosen, b.replicas, b.deleteReplicas);
      assert b.replicas + b.deleteReplicas == if b.deleteReplicas == [] then b.replicas else b.deleteReplicas;
      CheckedWalksTerminate(w, deps, resDefs);
      CheckedWalkEndsUnlessDefaultFlowLoops(w, deps, resDefs);
      ghost var replicas := Elements(Names(b.replicas + b.deleteReplicas));
      forall p | Deploys(p, b.graph)
        ensures Deployable(p) <==> !SeamedCircle(w, resolve, replicas)
      {
        CompiledPlanIsSound(deps, resDefs, w, resolve, replicas, b.graph, p);
      }
    }
  }
}
