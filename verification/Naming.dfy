/** How resources get their keys: contexts hand arguments down the chain of dependencies, and names are evaluated in them. */
module Naming {
  import opened Dependencies
  import opened Copier
  import opened GraphBuilder

  const REPLICA_VARIABLE := "AC_NAME"
  const FLOW_VARIABLE := "AC_FLOW_NAME"
  const FLOW_KIND := "flow"

  /** What all contexts of a graph share: the options, the flow, the kinds there are and the definitions. */
  datatype Naming = Naming(o: GraphOptions, flow: Flow, kinds: set<string>, resDefs: map<string, ResourceDefinition>)

  /** The value of a variable in the context of a replica with these arguments: arguments come before options, and options
      before defaults. */
  function ArgOf(n: Naming, replica: string, args: Args, name: string): string {
    if name == REPLICA_VARIABLE then replica
    else if name == FLOW_VARIABLE then n.flow.name
    else if name in args then args[name]
    else if name in n.o.args then n.o.args[name]
    else if name in n.flow.parameters && n.flow.parameters[name].Some? then n.flow.parameters[name].value
    else ""
  }

  /** A variable without a value stands for itself. */
  function ArgFunc(n: Naming, replica: string, args: Args): string -> string {
    p => if ArgOf(n, replica, args, p) == "" then "$" + p else ArgOf(n, replica, args, p)
  }

  /** The arguments of the context a chain leads to: those of its last dependency, evaluated in the context before. */
  function ContextArgs(n: Naming, replica: string, chain: seq<Dependency>): Args {
    if chain == [] then map[]
    else
      var d, before := chain[|chain| - 1], ContextArgs(n, replica, chain[..|chain| - 1]);
      map k | k in d.args :: EvaluateString(d.args[k], ArgFunc(n, replica, before))
  }

  /** The key of a new resource: name and suffix are evaluated, the kind must be known, and a flow must have a definition. */
  function KeyFor(n: Naming, replica: string, chain: seq<Dependency>): Option<string> {
    if chain == [] then None
    else
      var child, f := chain[|chain| - 1].child, ArgFunc(n, replica, ContextArgs(n, replica, chain));
      match PartsOf(child)
      case NotAKey => None
      case KeyParts(kind, name, suffix) =>
        if kind !in n.kinds || (kind == FLOW_KIND && DefinitionKey(child) !in n.resDefs) then None
        else
          var key, end := kind + "/" + EvaluateString(name, f), EvaluateString(suffix, f);
          Some(if end == "" then key else key + "/" + end)
  }

  /** All keys, as the expansion asks for them. */
  function KeysGiven(n: Naming): Resolver {
    (replica, chain) => KeyFor(n, replica, chain)
  }

  lemma FlowKeysBegin(rest: string)
    ensures IsFlowKey(FLOW_KIND + "/" + rest)
  {
    assert FLOW_PREFIX == FLOW_KIND + "/";
    assert (FLOW_PREFIX + rest)[..|FLOW_PREFIX|] == FLOW_PREFIX;
  }

  lemma OnlyFlowKeysBegin(kind: string, rest: string)
    requires '/' !in kind && IsFlowKey(kind + "/" + rest)
    ensures kind == FLOW_KIND
  {
    var key := kind + "/" + rest;
    assert FLOW_PREFIX == FLOW_KIND + "/" && '/' !in FLOW_KIND;
    hide FLOW_KIND;
    var end := key[|FLOW_PREFIX|..];
    assert key == FLOW_PREFIX + end;
    hide FLOW_PREFIX;
    assert key == kind + ("/" + rest) && key == FLOW_KIND + ("/" + end);
    FirstSlashAfter(kind, "/" + rest);
    FirstSlashAfter(FLOW_KIND, "/" + end);
    assert key[..|kind|] == kind && key[..|FLOW_KIND|] == FLOW_KIND;
  }

  lemma FlowKeysByKind(kind: string, rest: string)
    requires '/' !in kind
    ensures IsFlowKey(kind + "/" + rest) <==> kind == FLOW_KIND
  {
    hide IsFlowKey;
    hide FLOW_KIND;
    FlowKeysBegin(rest);
    if IsFlowKey(kind + "/" + rest) { OnlyFlowKeysBegin(kind, rest); }
  }

  lemma PartsShowKind(key: string)
    requires PartsOf(key).KeyParts?
    ensures '/' !in PartsOf(key).kind && exists rest :: key == PartsOf(key).kind + "/" + rest
  {
    var k := FirstSlash(key);
    assert key == key[..k] + "/" + key[k + 1..];
  }

  /** Keys made this way fit what the expansion asks of them: a resource of a flow template has a flow key and no other has,
      and a flow without a definition has none. */
  lemma KeysFit(n: Naming)
    ensures ResolverFits(n.resDefs, KeysGiven(n))
  {
    forall r: string, chain: seq<Dependency> | chain != [] && KeyFor(n, r, chain).Some?
      ensures var template := chain[|chain| - 1].child;
        && (IsFlowKey(KeyFor(n, r, chain).value) <==> IsFlowKey(template))
        && !(IsFlowKey(template) && DefinitionKey(template) !in n.resDefs)
    {
      KeyFits(n, r, chain);
    }
  }

  lemma KeyFits(n: Naming, r: string, chain: seq<Dependency>)
    requires chain != [] && KeyFor(n, r, chain).Some?
    ensures var template := chain[|chain| - 1].child;
      && (IsFlowKey(KeyFor(n, r, chain).value) <==> IsFlowKey(template))
      && !(IsFlowKey(template) && DefinitionKey(template) !in n.resDefs)
  {
    hide EvaluateString;
    hide IsFlowKey;
    hide FLOW_KIND;
    hide DefinitionKey;
    var template, f := chain[|chain| - 1].child, ArgFunc(n, r, ContextArgs(n, r, chain));
    PartsShowKind(template);
    var kind := PartsOf(template).kind;
    var rest :| template == kind + "/" + rest;
    FlowKeysByKind(kind, rest);
    var name, end := EvaluateString(PartsOf(template).name, f), EvaluateString(PartsOf(template).suffix, f);
    hide PartsOf;
    FlowKeysByKind(kind, name);
    FlowKeysByKind(kind, name + "/" + end);
    assert kind + "/" + (name + "/" + end) == kind + "/" + name + "/" + end;
  }

  /** The key of a resource of an ordinary kind without a suffix. */
  lemma PlainKey(n: Naming, replica: string, chain: seq<Dependency>, kind: string, name: string)
    requires chain != [] && chain[|chain| - 1].child == kind + "/" + name && '/' !in kind && '/' !in name
    requires kind in n.kinds && kind != FLOW_KIND
    ensures KeyFor(n, replica, chain) ==
      Some(kind + "/" + EvaluateString(name, ArgFunc(n, replica, ContextArgs(n, replica, chain))))
  {
    hide ContextArgs;
    TwoParts(kind, name);
    hide PartsOf;
  }
}
