/** Dependencies, flows and the label matching that decides which path of a flow a dependency is on. */
module Dependencies {
  datatype Option<+T> = None | Some(value: T)

  type Labels = map<string, string>

  type Args = map<string, string>

  datatype Dependency = Dependency(name: string, parent: string, child: string, labels: Labels, args: Args)

  /** A parameter of a flow may have a default. */
  datatype Flow = Flow(
    name: string,
    construction: Labels,
    destruction: Labels,
    exported: bool,
    parameters: map<string, Option<string>>)

  datatype ResourceDefinition = ResourceDefinition(flow: Option<Flow>)

  /** The options a graph is built with. */
  datatype GraphOptions = GraphOptions(
    flowName: string,
    args: Args,
    exportedOnly: bool,
    allowUndeclaredArgs: bool,
    replicaCount: int,
    fixedNumberOfReplicas: bool,
    minReplicaCount: int,
    maxReplicaCount: int,
    allowDeleteExternalResources: bool,
    flowInstanceName: string,
    silent: bool
  )

  const FLOW_PREFIX := "flow/"
  const DEFAULT_FLOW_NAME := "DEFAULT"
  const DEFAULT_FLOW_KEY := "flow/DEFAULT"

  function FlowKey(flow: Flow): string {
    FLOW_PREFIX + flow.name
  }

  predicate IsFlowKey(key: string) {
    FLOW_PREFIX <= key
  }

  function DefaultFlow(): Flow {
    Flow(DEFAULT_FLOW_NAME, map[], map[], true, map[])
  }

  // ---------- the parts of a key ----------

  function FirstSlash(s: string): (n: nat)
    ensures n <= |s| && '/' !in s[..n] && (n < |s| ==> s[n] == '/')
  {
    if s == "" || s[0] == '/' then 0
    else
      var n := FirstSlash(s[1..]);
      assert s[..n + 1] == [s[0]] + s[1..][..n];
      n + 1
  }

  datatype KeyParts = NotAKey | KeyParts(kind: string, name: string, suffix: string)

  /** Kind and name; a third part counts as a suffix when it is the last. */
  function PartsOf(key: string): KeyParts {
    var k := FirstSlash(key);
    if k == |key| then NotAKey
    else
      var rest := key[k + 1..];
      var m := FirstSlash(rest);
      if m == |rest| then KeyParts(key[..k], rest, "")
      else if '/' in rest[m + 1..] then KeyParts(key[..k], rest[..m], "")
      else KeyParts(key[..k], rest[..m], rest[m + 1..])
  }

  /** The key of the definition that a template refers to: suffixes tell copies of one definition apart. */
  function DefinitionKey(template: string): string {
    match PartsOf(template)
    case NotAKey => template
    case KeyParts(kind, name, _) => kind + "/" + name
  }

  lemma {:induction false} FirstSlashAfter(a: string, b: string)
    requires '/' !in a
    ensures FirstSlash(a + b) == |a| + FirstSlash(b)
  {
    if a == "" {
      assert a + b == b;
    } else {
      assert (a + b)[1..] == a[1..] + b;
      FirstSlashAfter(a[1..], b);
    }
  }

  lemma TwoParts(kind: string, name: string)
    requires '/' !in kind && '/' !in name
    ensures PartsOf(kind + "/" + name) == KeyParts(kind, name, "")
  {
    var key := kind + ("/" + name);
    assert key == kind + "/" + name;
    FirstSlashAfter(kind, "/" + name);
    FirstSlashAfter(name, "");
    assert name + "" == name;
    assert key[..|kind|] == kind && key[|kind| + 1..] == name;
  }

  lemma DefaultFlowKeyHasNoSuffix()
    ensures DefinitionKey(DEFAULT_FLOW_KEY) == DEFAULT_FLOW_KEY
  {
    var kind, name := "flow", "DEFAULT";
    assert DEFAULT_FLOW_KEY == kind + "/" + name;
    hide FirstSlash;
    TwoParts(kind, name);
    hide PartsOf;
  }

  /** An absent label reads as the empty string. */
  function LabelOf(dep: Dependency, key: string): string {
    if key in dep.labels then dep.labels[key] else ""
  }

  predicate Matches(dep: Dependency, selector: Labels) {
    forall k :: k in selector ==> LabelOf(dep, k) == selector[k]
  }

  /** The containment test compares keys only. */
  predicate KeysContained(contained: Labels, containing: Labels) {
    forall k :: k in contained ==> k in containing
  }

  predicate CanBelong(dep: Dependency, flow: Flow, useDestructionSelector: bool)
    decreases !useDestructionSelector
  {
    if useDestructionSelector then
      |flow.destruction| != 0 && Matches(dep, flow.destruction)
    else if |flow.destruction| > |flow.construction| && KeysContained(flow.construction, flow.destruction) &&
            CanBelong(dep, flow, true) then
      false
    else
      Matches(dep, flow.construction)
  }

  /** A dependency that belongs to either path of the flow. */
  predicate BelongsToFlow(dep: Dependency, flow: Flow) {
    CanBelong(dep, flow, true) || CanBelong(dep, flow, false)
  }

  /** Every flow definition is stored under its own flow key, and nothing else is stored under such a key. */
  ghost predicate WellKeyed(resDefs: map<string, ResourceDefinition>) {
    forall k :: k in resDefs ==>
      (resDefs[k].flow.Some? <==> IsFlowKey(k)) && (resDefs[k].flow.Some? ==> FlowKey(resDefs[k].flow.value) == k)
  }

  /** A flow whose destruction selector refines its construction selector has disjoint paths;
      otherwise exactly the dependencies matching both selectors are on both. */
  lemma PathOverlap(dep: Dependency, flow: Flow)
    ensures CanBelong(dep, flow, true) && CanBelong(dep, flow, false) <==>
      |flow.destruction| != 0 && Matches(dep, flow.destruction) && Matches(dep, flow.construction) &&
      !(|flow.destruction| > |flow.construction| && KeysContained(flow.construction, flow.destruction))
  {
  }
}
