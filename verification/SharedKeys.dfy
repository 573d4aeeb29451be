/** Dependencies for which one key comes from two templates, so that the graph of a single replica has a cycle. */
module SharedKeys {
  import opened Dependencies
  import opened Graphs
  import opened Grouping
  import opened CycleDetection
  import opened GraphWalk
  import opened GraphBuilder
  import opened GraphBuilding
  import opened Copier
  import opened Naming

  /** Two dependencies on the same template with different arguments, and one below it that hands an argument on. */
  const TEMPLATE_A := "pod/$a"
  const TEMPLATE_B := "pod/$b"
  const TO_P := Dependency("1", DEFAULT_FLOW_KEY, TEMPLATE_A, map[], map["a" := "p", "b" := "q"])
  const TO_Q := Dependency("2", DEFAULT_FLOW_KEY, TEMPLATE_A, map[], map["a" := "q", "b" := "p"])
  const A_TO_B := Dependency("3", TEMPLATE_A, TEMPLATE_B, map[], map["b" := "$b"])
  const SHARED_DEPS := [TO_P, TO_Q, A_TO_B]

  const POD := "pod"
  const NO_OPTIONS := GraphOptions(DEFAULT_FLOW_NAME, map[], false, true, 1, true, 0, 0, false, "", false)
  const PODS := Naming(NO_OPTIONS, DefaultFlow(), {POD}, map[])

  function SharedHeight(name: string): int {
    if name == DEFAULT_FLOW_KEY then 2 else if name == TEMPLATE_A then 1 else 0
  }

  lemma SharedTemplatesDiffer()
    ensures DEFAULT_FLOW_KEY != TEMPLATE_A && DEFAULT_FLOW_KEY != TEMPLATE_B && TEMPLATE_A != TEMPLATE_B
  {
    assert DEFAULT_FLOW_KEY[0] != TEMPLATE_A[0] && TEMPLATE_A[5] != TEMPLATE_B[5];
  }

  lemma SharedPassesCheck()
    ensures NoCycles(SHARED_DEPS, map[])
  {
    hide GroupedGraph;
    SharedTemplatesDiffer();
    var flows := FlowsToCheck(map[]);
    forall k, b | k in flows ensures Acyclic(GroupedGraph(SHARED_DEPS, flows, flows[k], b)) {
      var g := GroupedGraph(SHARED_DEPS, flows, flows[k], b);
      GroupedEdges(SHARED_DEPS, flows, flows[k], b);
      forall u, v | Edge(g, u, v) ensures SharedHeight(v) < SharedHeight(u) {
        assert Grouping.Names(SHARED_DEPS, flows, flows[k], b, u, v);
        var d :| d in SHARED_DEPS && d.parent == u && d.child == v;
        assert d == TO_P || d == TO_Q || d == A_TO_B;
      }
      AcyclicByRank(g, SharedHeight);
    }
  }

  lemma VariableGives(n: Naming, args: Args, word: string, value: string)
    requires IsWord(word) && word != REPLICA_VARIABLE && word != FLOW_VARIABLE && word in args
    requires args[word] == value != ""
    ensures EvaluateString("$" + word, ArgFunc(n, "1", args)) == value
  {
    EvaluateVariable(word, ArgFunc(n, "1", args));
  }

  lemma ShortWord(word: string)
    requires word == "a" || word == "b"
    ensures IsWord(word) && word != REPLICA_VARIABLE && word != FLOW_VARIABLE && '/' !in "$" + word
  {
    assert |REPLICA_VARIABLE| > 1 && |FLOW_VARIABLE| > 1;
  }

  function PodNamed(name: string): string {
    POD + "/" + name
  }

  lemma PodKind()
    ensures '/' !in POD && POD != FLOW_KIND && POD in PODS.kinds
    ensures TEMPLATE_A == PodNamed("$" + "a") && TEMPLATE_B == PodNamed("$" + "b")
  {
    assert POD[0] != FLOW_KIND[0];
  }

  /** A pod named by a variable gets the value the context gives it. */
  lemma PodKey(chain: seq<Dependency>, word: string, value: string)
    requires chain != [] && (word == "a" || word == "b") && chain[|chain| - 1].child == PodNamed("$" + word)
    requires word in ContextArgs(PODS, "1", chain) && ContextArgs(PODS, "1", chain)[word] == value != ""
    ensures KeyAt(KeysGiven(PODS), "1", chain) == PodNamed(value)
  {
    hide ContextArgs;
    hide EvaluateString;
    hide PODS;
    PodKind();
    ShortWord(word);
    hide POD;
    PlainKey(PODS, "1", chain, POD, "$" + word);
    hide KeyFor;
    VariableGives(PODS, ContextArgs(PODS, "1", chain), word, value);
  }

  /** The arguments below the first pod, and below the second. */
  lemma FirstContext(first: Dependency, a: string, b: string)
    requires first.args == map["a" := a, "b" := b] && '$' !in a && '$' !in b
    ensures ContextArgs(PODS, "1", [first]) == map["a" := a, "b" := b]
  {
    assert "a" != "b";
    assert [first][..0] == [];
    var f0 := ArgFunc(PODS, "1", map[]);
    EvaluatePlain(a, f0);
    EvaluatePlain(b, f0);
    hide EvaluateString;
    assert ContextArgs(PODS, "1", []) == map[];
  }

  lemma SharedContexts(first: Dependency, a: string, b: string)
    requires first.args == map["a" := a, "b" := b] && '$' !in a && '$' !in b && b != ""
    ensures ContextArgs(PODS, "1", [first]) == map["a" := a, "b" := b]
    ensures ContextArgs(PODS, "1", [first, A_TO_B]) == map["b" := b]
  {
    hide EvaluateString;
    hide ArgFunc;
    assert "a" != "b";
    FirstContext(first, a, b);
    assert [first, A_TO_B][..1] == [first];
    ShortWord("b");
    VariableGives(PODS, map["a" := a, "b" := b], "b", b);
    assert A_TO_B.args == map["b" := "$b"] && "$b" == "$" + "b";
  }

  lemma SharedKeys(first: Dependency, a: string, b: string)
    requires first.child == TEMPLATE_A && first.args == map["a" := a, "b" := b] && '$' !in a && '$' !in b && a != ""
    requires b != ""
    ensures KeyAt(KeysGiven(PODS), "1", [first]) == PodNamed(a)
    ensures KeyAt(KeysGiven(PODS), "1", [first, A_TO_B]) == PodNamed(b)
  {
    SharedContexts(first, a, b);
    PodKind();
    assert "a" != "b";
    PodKey([first], "a", a);
    PodKey([first, A_TO_B], "b", b);
  }

  lemma SharedFollows(grouped: DependencyMap, d: Dependency, isRoot: bool)
    requires GroupedByParent(SHARED_DEPS, map[], grouped) && d in SHARED_DEPS && (isRoot || d == A_TO_B)
    ensures d in Followed(Walk(grouped, map[], DefaultFlow(), false), d.parent, isRoot)
  {
    WithParentContents(SHARED_DEPS, d.parent);
    assert HasParent(SHARED_DEPS, d.parent);
    assert d in grouped[d.parent];
    FilteredContents(grouped[d.parent], DefaultFlow(), false);
    assert TEMPLATE_A[0] != FLOW_PREFIX[0];
  }

  lemma SharedChain(grouped: DependencyMap, first: Dependency)
    requires GroupedByParent(SHARED_DEPS, map[], grouped) && (first == TO_P || first == TO_Q)
    ensures IsChain(Walk(grouped, map[], DefaultFlow(), false), [first, A_TO_B])
  {
    hide GroupedByParent;
    var w := Walk(grouped, map[], DefaultFlow(), false);
    assert TO_P in SHARED_DEPS && TO_Q in SHARED_DEPS && A_TO_B in SHARED_DEPS;
    SharedFollows(grouped, first, true);
    SharedFollows(grouped, A_TO_B, false);
    hide Followed;
    assert FlowKey(w.flow) == DEFAULT_FLOW_KEY;
    assert first.child == A_TO_B.parent == TEMPLATE_A && first.parent == DEFAULT_FLOW_KEY;
    hide TEMPLATE_A;
    hide FlowKey;
    assert [first][..0] == [] && IsChain(w, [first]);
    assert [first, A_TO_B][..1] == [first];
  }

  lemma SharedWalkEnds(grouped: DependencyMap)
    requires GroupedByParent(SHARED_DEPS, map[], grouped)
    ensures var w := Walk(grouped, map[], DefaultFlow(), false); WalkOver(w, SHARED_DEPS, map[]) && Terminates(w)
  {
    hide GroupedByParent;
    hide NoCycles;
    hide Terminates;
    var w := Walk(grouped, map[], DefaultFlow(), false);
    assert FlowKey(w.flow) == DEFAULT_FLOW_KEY;
    assert WalkOver(w, SHARED_DEPS, map[]);
    SharedPassesCheck();
    assert TO_P in SHARED_DEPS;
    assert DefaultFlowIsEntered(SHARED_DEPS);
    CheckedWalksTerminate(w, SHARED_DEPS, map[]);
  }

  /** Every key of the walk can be made. */
  lemma SharedWalkResolves(grouped: DependencyMap)
    requires GroupedByParent(SHARED_DEPS, map[], grouped)
    ensures AllResolve(Walk(grouped, map[], DefaultFlow(), false), KeysGiven(PODS), "1")
  {
    var w := Walk(grouped, map[], DefaultFlow(), false);
    forall chain | IsChain(w, chain) && chain != [] ensures KeyFor(PODS, "1", chain).Some? {
      var d, front := chain[|chain| - 1], chain[..|chain| - 1];
      assert d in Extensions(w, front);
      FollowedAt(w, TemplateOf(w, front), front == []);
      SharedListed(grouped, TemplateOf(w, front), d);
      TemplatesOfPods(d.child);
    }
  }

  lemma SharedListed(grouped: DependencyMap, u: string, d: Dependency)
    requires GroupedByParent(SHARED_DEPS, map[], grouped) && u in grouped && d in grouped[u]
    ensures d.child == TEMPLATE_A || d.child == TEMPLATE_B
  {
    assert TO_P in SHARED_DEPS;
    assert HasParent(SHARED_DEPS, DEFAULT_FLOW_KEY);
    WithParentContents(SHARED_DEPS, u);
  }

  lemma TemplatesOfPods(template: string)
    requires template == TEMPLATE_A || template == TEMPLATE_B
    ensures PartsOf(template).KeyParts? && PartsOf(template).kind == POD
  {
    PodKind();
    ShortWord("a");
    ShortWord("b");
    TwoParts(POD, "$" + "a");
    TwoParts(POD, "$" + "b");
  }

  /** These dependencies pass the cycle check, their walk ends and all its keys can be made, but in the graph of a single
      replica, with the keys that contexts give, `p` and `q` require each other: both pods are made by either template. */
  lemma SharedKeysCanMakeCycles(grouped: DependencyMap, g: map<string, ScheduledResource>)
    requires GroupedByParent(SHARED_DEPS, map[], grouped)
    requires Exact(Walk(grouped, map[], DefaultFlow(), false), KeysGiven(PODS), {"1"}, g)
    ensures NoCycles(SHARED_DEPS, map[]) && Terminates(Walk(grouped, map[], DefaultFlow(), false))
    ensures AllResolve(Walk(grouped, map[], DefaultFlow(), false), KeysGiven(PODS), "1")
    ensures !Acyclic(RequiredByGraph(g))
  {
    hide GroupedByParent;
    hide NoCycles;
    hide Terminates;
    hide Exact;
    hide KeysGiven;
    hide IsChain;
    hide AllResolve;
    var w := Walk(grouped, map[], DefaultFlow(), false);
    SharedPassesCheck();
    SharedWalkEnds(grouped);
    SharedWalkResolves(grouped);
    SharedChain(grouped, TO_P);
    SharedChain(grouped, TO_Q);
    SharedKeys(TO_P, "p", "q");
    SharedKeys(TO_Q, "q", "p");
    var one, two := Hop("1", [TO_P, A_TO_B]), Hop("1", [TO_Q, A_TO_B]);
    assert Front(one.chain) == [TO_P] && Front(two.chain) == [TO_Q];
    HopLinks(w, KeysGiven(PODS), {"1"}, g, one);
    HopLinks(w, KeysGiven(PODS), {"1"}, g, two);
    var links := RequiredByGraph(g);
    ReachByEdge(links, PodNamed("q"), PodNamed("p"));
    var p := CycleThroughEdge(links, PodNamed("p"), PodNamed("q"));
  }
}
