/** Inputs on which a property that one might expect fails. Each shows that a condition of a theorem cannot be dropped. */
module Limits {
  import opened Dependencies
  import opened Graphs
  import opened Grouping
  import opened CycleDetection
  import opened GraphWalk
  import R = ReplicaAllocation

  // ---------- groups that are not strongly connected components ----------

  const FORK: Graph := map["u" := ["v", "w"], "v" := ["u"], "w" := []]

  lemma ForkReach()
    ensures ReachSet(FORK, "v") == {"v", "u", "w"} && !Reach(FORK, "w", "v")
  {
    var g := FORK;
    ReachByEdge(g, "v", "u");
    ReachByEdge(g, "u", "w");
    ReachSelf(g, "v");
    ReachTransitive(g, "v", "u", "w");
    assert ClosedSet(g, {"w"});
    if Reach(g, "w", "v") { ReachStaysInside(g, {"w"}, "w", "v"); }
  }

  lemma ForkFinishes()
    ensures FinishOrdered(FORK, ["v", "w", "u"])
  {
    ReachByEdge(FORK, "u", "v");
    var order := ["v", "w", "u"];
    assert order[..2] == ["v", "w"];
  }

  /** Visiting `u` first finishes `v`, `w`, `u` in that order, and the first group then swallows `w`, which leads nowhere:
      phase two walks the same graph as phase one, not its transpose. */
  lemma GroupNeedNotBeStronglyConnected()
    ensures Analysed(FORK, ["v", "w", "u"], map["v" := ["v", "u", "w"]])
    ensures !Reach(FORK, "w", "v")
  {
    var g, order := FORK, ["v", "w", "u"];
    ForkReach();
    ForkFinishes();
    hide Reach;
    assert Covered(g, order, 0) == {};
    assert GroupAt(g, order, 0) == {"v", "u", "w"};
    assert order[0] == "v" && order[1] == "w" && order[2] == "u";
    assert "v" in Covered(g, order, 1) && "w" in Covered(g, order, 1) && "u" in Covered(g, order, 2);
  }

  // ---------- a checked walk that does not end ----------

  const APP := "flow/app"
  const APP_FLOW := Flow("app", map[], map[], true, map[])
  /** A default flow with a construction selector that nothing below carries. */
  const LABELLED_DEFAULT := Flow(DEFAULT_FLOW_NAME, map["x" := "y"], map[], true, map[])
  const LOOP_DEFS: map<string, ResourceDefinition> :=
    map[APP := ResourceDefinition(Some(APP_FLOW)), DEFAULT_FLOW_KEY := ResourceDefinition(Some(LABELLED_DEFAULT))]

  const APP_TO_A := Dependency("1", APP, "pod/a", map[], map[])
  const B_TO_A := Dependency("2", "pod/b", "pod/a", map[], map[])
  const A_TO_DEFAULT := Dependency("3", "pod/a", DEFAULT_FLOW_KEY, map[], map[])
  const LOOP_DEPS := [APP_TO_A, B_TO_A, A_TO_DEFAULT]

  function LoopHeight(name: string): int {
    if name == APP then 3 else if name == "pod/b" then 2 else if name == "pod/a" then 1 else 0
  }

  lemma LoopEdgesDescend(flows: map<string, Flow>, flow: Flow, b: bool, u: string, v: string)
    requires Names(LOOP_DEPS, flows, flow, b, u, v)
    ensures LoopHeight(v) < LoopHeight(u)
  {
    var d :| d in LOOP_DEPS && d.parent == u && d.child == v;
    assert d == APP_TO_A || d == B_TO_A || d == A_TO_DEFAULT;
  }

  lemma LoopIsNotDetected()
    ensures NoCycles(LOOP_DEPS, LOOP_DEFS)
  {
    hide GroupedGraph;
    hide LoopHeight;
    hide LOOP_DEPS;
    hide LOOP_DEFS;
    var flows := FlowsToCheck(LOOP_DEFS);
    forall k, b | k in flows ensures Acyclic(GroupedGraph(LOOP_DEPS, flows, flows[k], b)) {
      var g := GroupedGraph(LOOP_DEPS, flows, flows[k], b);
      GroupedEdges(LOOP_DEPS, flows, flows[k], b);
      forall u, v | Edge(g, u, v) ensures LoopHeight(v) < LoopHeight(u) {
        assert Names(LOOP_DEPS, flows, flows[k], b, u, v);
        LoopEdgesDescend(flows, flows[k], b, u, v);
      }
      AcyclicByRank(g, LoopHeight);
    }
  }

  lemma LoopWalkFollows(grouped: DependencyMap, d: Dependency)
    requires GroupedByParent(LOOP_DEPS, LOOP_DEFS, grouped)
    requires d in LOOP_DEPS && (d.parent == "pod/a" || d.parent == "pod/b")
    ensures Edge(TemplateGraph(Walk(grouped, LOOP_DEFS, APP_FLOW, false)), d.parent, d.child)
  {
    var w := Walk(grouped, LOOP_DEFS, APP_FLOW, false);
    WithParentContents(LOOP_DEPS, d.parent);
    assert HasParent(LOOP_DEPS, d.parent);
    assert d in grouped[d.parent];
    FilteredContents(grouped[d.parent], APP_FLOW, false);
    assert d in Followed(w, d.parent, false);
    TemplateEdges(w, d.parent, d.child);
  }

  /** Nothing starts at the default flow, so it adopts the pod that nothing leads to. */
  lemma LoopWalkAdopts(grouped: DependencyMap)
    requires GroupedByParent(LOOP_DEPS, LOOP_DEFS, grouped)
    ensures Edge(TemplateGraph(Walk(grouped, LOOP_DEFS, APP_FLOW, false)), DEFAULT_FLOW_KEY, "pod/b")
  {
    hide DefinitionKey;
    hide TemplateGraph;
    var w, d := Walk(grouped, LOOP_DEFS, APP_FLOW, false), DefaultDependency("pod/b");
    DefaultFlowKeyHasNoSuffix();
    DefaultFlowAdoptsB(grouped);
    assert LabelOf(d, "x") != "y" && "x" in LABELLED_DEFAULT.construction;
    assert !Delegated(d, LOOP_DEFS);
    assert CanBelong(d, APP_FLOW, false);
    hide GroupedByParent;
    hide Delegated;
    hide CanBelong;
    FilteredContents(grouped[DEFAULT_FLOW_KEY], APP_FLOW, false);
    NotDelegatedContents(FilteredAt(w, DEFAULT_FLOW_KEY), LOOP_DEFS);
    assert d in Followed(w, DEFAULT_FLOW_KEY, false);
    TemplateEdges(w, DEFAULT_FLOW_KEY, "pod/b");
  }

  lemma DefaultFlowAdoptsB(grouped: DependencyMap)
    requires GroupedByParent(LOOP_DEPS, LOOP_DEFS, grouped)
    ensures DEFAULT_FLOW_KEY in grouped && DefaultDependency("pod/b") in grouped[DEFAULT_FLOW_KEY]
  {
    assert B_TO_A in LOOP_DEPS;
    assert HasParent(LOOP_DEPS, "pod/b");
    assert !HasParent(LOOP_DEPS, DEFAULT_FLOW_KEY) && Adopted(LOOP_DEPS, LOOP_DEFS, "pod/b");
  }

  lemma AppEntersA(grouped: DependencyMap)
    requires GroupedByParent(LOOP_DEPS, LOOP_DEFS, grouped)
    ensures Visited(Walk(grouped, LOOP_DEFS, APP_FLOW, false), "pod/a")
  {
    hide TemplateGraph;
    var w := Walk(grouped, LOOP_DEFS, APP_FLOW, false);
    assert FlowKey(APP_FLOW) == APP;
    WithParentContents(LOOP_DEPS, APP);
    assert APP_TO_A in LOOP_DEPS;
    assert HasParent(LOOP_DEPS, APP);
    assert APP_TO_A in grouped[APP];
    assert CanBelong(APP_TO_A, APP_FLOW, false);
    FilteredContents(grouped[APP], APP_FLOW, false);
    assert APP_TO_A in Followed(w, APP, true);
    ReachSelf(TemplateGraph(w), "pod/a");
  }

  lemma LoopWalkIsOver(grouped: DependencyMap)
    requires GroupedByParent(LOOP_DEPS, LOOP_DEFS, grouped)
    ensures WalkOver(Walk(grouped, LOOP_DEFS, APP_FLOW, false), LOOP_DEPS, LOOP_DEFS)
  {
    hide GroupedByParent;
    assert FlowKey(APP_FLOW) == APP && FlowKey(LABELLED_DEFAULT) == DEFAULT_FLOW_KEY;
    assert WellKeyed(LOOP_DEFS);
  }

  /** These dependencies pass the cycle check, yet the walk for the flow `app` makes blocks for ever. */
  lemma CheckedWalkNeedNotEnd(grouped: DependencyMap)
    requires GroupedByParent(LOOP_DEPS, LOOP_DEFS, grouped)
    ensures var w := Walk(grouped, LOOP_DEFS, APP_FLOW, false);
      NoCycles(LOOP_DEPS, LOOP_DEFS) && WalkOver(w, LOOP_DEPS, LOOP_DEFS) && !Terminates(w)
  {
    hide GroupedByParent;
    hide TemplateGraph;
    hide NoCycles;
    hide WalkOver;
    hide Terminates;
    hide Reach;
    hide Followed;
    hide APP;
    hide APP_FLOW;
    var w := Walk(grouped, LOOP_DEFS, APP_FLOW, false);
    var g := TemplateGraph(w);
    LoopIsNotDetected();
    LoopWalkIsOver(grouped);
    LoopWalkFollows(grouped, A_TO_DEFAULT);
    LoopWalkFollows(grouped, B_TO_A);
    LoopWalkAdopts(grouped);
    ReachByEdge(g, "pod/a", DEFAULT_FLOW_KEY);
    ReachAfterEdge(g, "pod/b", "pod/a", DEFAULT_FLOW_KEY);
    AppEntersA(grouped);
    var d :| d in Followed(w, FlowKey(w.flow), true) && Reach(g, d.child, "pod/a");
    ReachTransitive(g, d.child, "pod/a", DEFAULT_FLOW_KEY);
    assert DefaultFlowLoops(w);
    CheckedWalkEndsUnlessDefaultFlowLoops(w, LOOP_DEPS, LOOP_DEFS);
  }

  // ---------- growth that hands out what is deployed ----------

  const EARLIER := R.Replica("a", 1, false)
  const LATER := R.Replica("b", 2, true)
  const ONE_MORE := GraphOptions(DEFAULT_FLOW_NAME, map[], false, true, 1, false, 0, 0, false, "", false)

  /** An undeployed record that is older than a deployed one: growing by one hands out the one already deployed. */
  lemma GrowthCanHandOutDeployed()
    ensures R.DistinctUids({EARLIER, LATER}) && !R.DeployedFirst({EARLIER, LATER})
    ensures R.AllocationStep({EARLIER, LATER}, ONE_MORE, {EARLIER, LATER}, R.Allocated([LATER], []))
  {
    var s, sorted := {EARLIER, LATER}, [EARLIER, LATER];
    assert "a" != "b";
    assert R.Deployed(s) == {LATER};
    assert R.Older(EARLIER, LATER) && !R.Older(LATER, EARLIER);
    assert R.BroughtUpTo(s, 2, s);
    assert R.Lists(sorted, s);
    assert R.TargetCount(ONE_MORE, 1) == 2;
    assert sorted[1..2] == [LATER];
    assert R.HandOut(ONE_MORE, 1, sorted) == R.Allocated([LATER], []);
  }

  // ---------- a target below zero ----------

  const ONE_LESS := GraphOptions(DEFAULT_FLOW_NAME, map[], false, true, -1, false, -1, 0, false, "", false)

  /** One replica less than none, with a minimum below zero: the slice is out of bounds. */
  lemma TargetCanBeNegative()
    ensures R.AllocationStep({}, ONE_LESS, {}, R.OutOfBounds)
  {
    assert R.Deployed({}) == {};
    assert R.TargetCount(ONE_LESS, 0) == -1;
    assert R.BroughtUpTo({}, -1, {});
    assert R.Lists([], {});
    assert R.HandOut(ONE_LESS, 0, []) == R.OutOfBounds;
  }

  // ---------- a leftover that is chosen next time ----------

  const WAITING := R.Replica("u", 1, false)
  const CREATED := R.Replica("w", 2, false)
  /** Created no later than what there was, so not wanted, but its deletion failed. */
  const LEFT_OVER := R.Replica("t", 1, false)
  const TWO_MORE := GraphOptions(DEFAULT_FLOW_NAME, map[], false, true, 2, false, 0, 0, false, "", false)

  lemma LeftoverOrder()
    ensures R.Older(LEFT_OVER, WAITING) && R.Older(WAITING, CREATED) && R.Older(LEFT_OVER, CREATED)
    ensures R.Lists([WAITING, CREATED], {WAITING, CREATED}) && R.Lists([LEFT_OVER, WAITING], {LEFT_OVER, WAITING})
    ensures LEFT_OVER.uid != WAITING.uid && WAITING.uid != CREATED.uid && LEFT_OVER.uid != CREATED.uid
  {
    assert "t"[0] < "u"[0] < "w"[0];
  }

  /** The same growth by two, asked for again before it is acknowledged, hands out other replicas. */
  lemma RepeatCanChooseLeftover()
    ensures R.AllocationStep({WAITING}, TWO_MORE, {WAITING, CREATED}, R.Allocated([WAITING, CREATED], []))
    ensures R.Surplus({WAITING}, {WAITING, CREATED}, {LEFT_OVER})
    ensures R.AllocationStep({WAITING, CREATED} + {LEFT_OVER}, TWO_MORE, {LEFT_OVER, WAITING},
                             R.Allocated([LEFT_OVER, WAITING], []))
  {
    LeftoverOrder();
    hide R.Older;
    hide R.Lists;
    GrowthByTwo({WAITING}, {WAITING, CREATED}, [WAITING, CREATED]);
    GrowthByTwo({WAITING, CREATED} + {LEFT_OVER}, {LEFT_OVER, WAITING}, [LEFT_OVER, WAITING]);
  }

  lemma GrowthByTwo(before: set<R.Replica>, after: set<R.Replica>, sorted: seq<R.Replica>)
    requires R.Deployed(before) == R.Deployed(after) == {} && R.Lists(sorted, after) && |sorted| == 2
    requires R.BroughtUpTo(before, 2, after)
    ensures R.AllocationStep(before, TWO_MORE, after, R.Allocated(sorted, []))
  {
    hide R.BroughtUpTo;
    hide R.Lists;
    assert R.TargetCount(TWO_MORE, 0) == 2;
    assert sorted[0..2] == sorted;
    assert R.HandOut(TWO_MORE, 0, sorted) == R.Allocated(sorted, []);
  }
}
