/** Filling a dependency graph: one walk per replica, all blocks merged by resolved key. */
module GraphBuilder {
  import opened Dependencies
  import opened Graphs
  import opened GraphWalk

  class ScheduledResource {
    const key: string
    var requiredKeys: seq<string>
    var requiredBy: seq<string>
    var usedInReplicas: seq<string>

    constructor (key: string, replica: string)
      ensures this.key == key && requiredKeys == [] && requiredBy == [] && usedInReplicas == [replica]
    {
      this.key := key;
      requiredKeys, requiredBy, usedInReplicas := [], [], [replica];
    }
  }

  class DependencyGraph {
    var graph: map<string, ScheduledResource>

    constructor ()
      ensures graph == map[]
    {
      graph := map[];
    }
  }

  /** The key a new resource gets for a chain of dependencies in a replica, or None when it cannot be created. The context
      of a block, through which names are substituted, is determined by exactly these two. */
  type Resolver = (string, seq<Dependency>) -> Option<string>

  /** Keys show the kind of their template, and a flow without a definition cannot be created. */
  ghost predicate ResolverFits(resDefs: map<string, ResourceDefinition>, resolve: Resolver) {
    forall r, chain: seq<Dependency> :: chain != [] && resolve(r, chain).Some? ==>
      var template := chain[|chain| - 1].child;
      && (IsFlowKey(resolve(r, chain).value) <==> IsFlowKey(template))
      && !(IsFlowKey(template) && DefinitionKey(template) !in resDefs)
  }

  function KeyAt(resolve: Resolver, replica: string, chain: seq<Dependency>): string {
    match resolve(replica, chain)
    case Some(k) => k
    case None => ""
  }

  function ParentKeys(resolve: Resolver, replica: string, chain: seq<Dependency>): seq<string> {
    if |chain| <= 1 then [] else [KeyAt(resolve, replica, chain[..|chain| - 1])]
  }

  function ChildKeys(resolve: Resolver, replica: string, chain: seq<Dependency>, exts: seq<Dependency>): seq<string> {
    seq(|exts|, i requires 0 <= i < |exts| => KeyAt(resolve, replica, chain + [exts[i]]))
  }

  // ---------- what the finished graph must hold ----------

  /** Some replica's walk leads from a block with key `a` straight to a block with key `b`. */
  ghost predicate Linked(w: Walk, resolve: Resolver, replicas: set<string>, a: string, b: string) {
    exists r, chain :: r in replicas && IsChain(w, chain) && |chain| > 1 && LinkedBy(resolve, r, chain, a, b)
  }

  ghost predicate LinkedBy(resolve: Resolver, r: string, chain: seq<Dependency>, a: string, b: string) {
    |chain| > 1 && KeyAt(resolve, r, chain[..|chain| - 1]) == a && KeyAt(resolve, r, chain) == b
  }

  /** The walk of replica `r` makes a block with key `k`. */
  ghost predicate Produced(w: Walk, resolve: Resolver, r: string, k: string) {
    exists chain :: IsChain(w, chain) && chain != [] && KeyAt(resolve, r, chain) == k
  }

  ghost predicate AllResolve(w: Walk, resolve: Resolver, r: string) {
    forall chain :: IsChain(w, chain) && chain != [] ==> resolve(r, chain).Some?
  }

  /** The resource lists exactly the keys it is linked to and from, and the replicas that produce it. */
  ghost predicate ExactAt(w: Walk, resolve: Resolver, replicas: set<string>, o: ScheduledResource)
    reads o
  {
    && (forall a :: a in o.requiredKeys <==> Linked(w, resolve, replicas, a, o.key))
    && (forall b :: b in o.requiredBy <==> Linked(w, resolve, replicas, o.key, b))
    && (forall r :: r in o.usedInReplicas <==> r in replicas && Produced(w, resolve, r, o.key))
  }

  ghost predicate Exact(w: Walk, resolve: Resolver, replicas: set<string>, g: map<string, ScheduledResource>)
    reads g.Values
  {
    && (forall k :: k in g <==> exists r :: r in replicas && Produced(w, resolve, r, k))
    && (forall k :: k in g ==> g[k].key == k && ExactAt(w, resolve, replicas, g[k]))
  }

  // ---------- one replica's walk ----------

  datatype Block = Block(replica: string, chain: seq<Dependency>, resource: ScheduledResource?)

  /** A block whose resource was made for its chain; its dependants are listed up to the first `n` extensions. */
  ghost predicate Made(w: Walk, resolve: Resolver, b: Block, exts: seq<Dependency>)
    reads b.resource
  {
    && b.resource != null && b.chain != [] && IsChain(w, b.chain) && resolve(b.replica, b.chain).Some?
    && b.resource.key == KeyAt(resolve, b.replica, b.chain)
    && b.resource.requiredKeys == ParentKeys(resolve, b.replica, b.chain)
    && b.resource.requiredBy == ChildKeys(resolve, b.replica, b.chain, exts)
    && b.resource.usedInReplicas == [b.replica]
  }

  /** The worklist with its first `i` blocks expanded; `objs` holds the resources made for it. */
  ghost predicate Expanded(w: Walk, resolve: Resolver, replica: string, queue: seq<Block>, i: nat,
                           objs: set<ScheduledResource>)
    reads objs
  {
    && RootFirst(queue, replica)
    && MadeUpTo(w, resolve, queue, i, objs)
    && OwnResources(queue)
    && QueuedUpTo(w, queue, i)
  }

  ghost predicate RootFirst(queue: seq<Block>, replica: string) {
    queue != [] && queue[0] == Block(replica, [], null) && forall j :: 0 <= j < |queue| ==> queue[j].replica == replica
  }

  ghost predicate MadeUpTo(w: Walk, resolve: Resolver, queue: seq<Block>, i: nat, objs: set<ScheduledResource>)
    reads objs
  {
    forall j :: 1 <= j < |queue| ==>
      queue[j].resource in objs &&
      Made(w, resolve, queue[j], if j < i then Extensions(w, queue[j].chain) else [])
  }

  ghost predicate OwnResources(queue: seq<Block>) {
    forall j, k :: 1 <= j < k < |queue| ==> queue[j].resource != queue[k].resource
  }

  ghost predicate QueuedUpTo(w: Walk, queue: seq<Block>, i: nat) {
    forall j, d :: 0 <= j < i && j < |queue| && d in Extensions(w, queue[j].chain) ==> Queued(queue, queue[j].chain + [d])
  }

  ghost predicate Queued(queue: seq<Block>, chain: seq<Dependency>) {
    exists j :: 0 <= j < |queue| && queue[j].chain == chain
  }

  lemma {:induction false} EveryChainQueued(w: Walk, replica: string, queue: seq<Block>, chain: seq<Dependency>)
    requires RootFirst(queue, replica) && QueuedUpTo(w, queue, |queue|) && IsChain(w, chain)
    ensures Queued(queue, chain)
  {
    hide Followed;
    if chain == [] {
      assert queue[0].chain == chain;
    } else {
      var front, d := chain[..|chain| - 1], chain[|chain| - 1];
      assert chain == front + [d];
      EveryChainQueued(w, replica, queue, front);
      ExtensionQueued(w, queue, front, d);
    }
  }

  lemma ExtensionQueued(w: Walk, queue: seq<Block>, front: seq<Dependency>, d: Dependency)
    requires QueuedUpTo(w, queue, |queue|) && Queued(queue, front) && d in Extensions(w, front)
    ensures Queued(queue, front + [d])
  {
    var j :| 0 <= j < |queue| && queue[j].chain == front;
  }

  // ---------- the measure of a walk ----------

  /** The paths below all pending blocks, each of which is still to be expanded. */
  ghost function Pending(w: Walk, queue: seq<Block>): nat
    requires Terminates(w)
  {
    if queue == [] then 0
    else
      LiveGraphClosed(w);
      Pending(w, queue[..|queue| - 1]) + PathCount(LiveGraph(w), TemplateOf(w, queue[|queue| - 1].chain))
  }

  lemma {:induction false} PendingSplit(w: Walk, a: seq<Block>, b: seq<Block>)
    requires Terminates(w)
    ensures Pending(w, a + b) == Pending(w, a) + Pending(w, b)
    decreases |b|
  {
    hide TemplateOf;
    if b == [] {
      assert a + b == a;
    } else {
      PendingSplit(w, a, b[..|b| - 1]);
      assert (a + b)[..|a + b| - 1] == a + b[..|b| - 1];
    }
  }

  /** The new blocks of an expansion, in order. */
  ghost predicate ExtendsBy(chain: seq<Dependency>, exts: seq<Dependency>, added: seq<Block>) {
    |added| == |exts| && forall k :: 0 <= k < |exts| ==> added[k].chain == chain + [exts[k]]
  }

  lemma {:induction false} PendingOfExpansion(w: Walk, chain: seq<Dependency>, k: nat, added: seq<Block>)
    requires Terminates(w) && Closed(LiveGraph(w)) && IsChain(w, chain) && chain != []
    requires TemplateOf(w, chain) in LiveGraph(w)
    requires k <= |Extensions(w, chain)| && ExtendsBy(chain, Extensions(w, chain)[..k], added)
    requires LiveGraph(w)[TemplateOf(w, chain)] == Children(Extensions(w, chain))
    ensures Pending(w, added) == PathCountUpTo(LiveGraph(w), TemplateOf(w, chain), k)
  {
    if k > 0 {
      var exts := Extensions(w, chain);
      var fewer, first := added[..k - 1], exts[..k - 1];
      forall m | 0 <= m < k - 1 ensures fewer[m].chain == chain + [first[m]] {
        assert added[m].chain == chain + [exts[..k][m]];
      }
      PendingOfExpansion(w, chain, k - 1, fewer);
      assert added[k - 1].chain == chain + [exts[..k][k - 1]];
      assert Children(exts)[k - 1] == exts[k - 1].child;
    }
  }

  /** Expanding a block other than the root takes one path off the count. */
  lemma ExpansionShrinks(w: Walk, chain: seq<Dependency>, added: seq<Block>)
    requires Terminates(w) && Closed(LiveGraph(w)) && IsChain(w, chain) && chain != []
    requires ExtendsBy(chain, Extensions(w, chain), added)
    ensures PathCount(LiveGraph(w), TemplateOf(w, chain)) == 1 + Pending(w, added)
  {
    ChainTemplateLive(w, chain);
    var exts := Extensions(w, chain);
    assert exts[..|exts|] == exts;
    PendingOfExpansion(w, chain, |exts|, added);
  }

  // ---------- walking ----------

  /** The part of a filtered list that is followed from a template. */
  function FollowedOf(w: Walk, template: string, isRoot: bool, list: seq<Dependency>): seq<Dependency> {
    if !isRoot && IsFlowKey(template) then NotDelegated(list, w.resDefs) else list
  }

  lemma {:induction false} FollowedOfPrefix(w: Walk, template: string, isRoot: bool, list: seq<Dependency>, m: nat)
    requires m <= |list|
    ensures FollowedOf(w, template, isRoot, list[..m]) <= FollowedOf(w, template, isRoot, list)
  {
    if m == |list| {
      assert list[..m] == list;
    } else {
      FollowedOfPrefix(w, template, isRoot, list[..|list| - 1], m);
      assert list[..|list| - 1][..m] == list[..m];
    }
  }

  lemma FollowedOfNothing(w: Walk, template: string, isRoot: bool)
    ensures FollowedOf(w, template, isRoot, []) == []
  {
  }

  lemma FollowedStep(w: Walk, template: string, isRoot: bool, list: seq<Dependency>, m: nat)
    requires m < |list|
    ensures
      var done := FollowedOf(w, template, isRoot, list[..m]);
      var skipped := !isRoot && IsFlowKey(template) && Delegated(list[m], w.resDefs);
      && FollowedOf(w, template, isRoot, list[..m + 1]) == (if skipped then done else done + [list[m]])
      && (skipped || list[m] in FollowedOf(w, template, isRoot, list))
  {
    assert list[..m + 1][..m] == list[..m];
    FollowedOfPrefix(w, template, isRoot, list, m + 1);
    var done := FollowedOf(w, template, isRoot, list[..m]);
    assert FollowedOf(w, template, isRoot, list[..m + 1]) == done + [list[m]] ==> (done + [list[m]])[|done|] == list[m];
  }

  /** Fresh blocks for the extensions `exts` of `chain`. */
  ghost predicate NewBlocks(w: Walk, resolve: Resolver, replica: string, chain: seq<Dependency>, exts: seq<Dependency>,
                            added: seq<Block>, objs: set<ScheduledResource>)
    reads objs
  {
    && ExtendsBy(chain, exts, added)
    && (forall k :: 0 <= k < |added| ==>
          added[k].replica == replica && added[k].resource in objs && Made(w, resolve, added[k], []))
    && (forall j, k :: 0 <= j < k < |added| ==> added[j].resource != added[k].resource)
  }

  lemma MadeFurther(w: Walk, resolve: Resolver, replica: string, queue: seq<Block>, i: nat,
                    objs: set<ScheduledResource>,
                    exts: seq<Dependency>, added: seq<Block>, more: set<ScheduledResource>)
    requires i < |queue| && MadeUpTo(w, resolve, queue, i + 1, objs)
    requires NewBlocks(w, resolve, replica, queue[i].chain, exts, added, more)
    ensures MadeUpTo(w, resolve, queue + added, i + 1, objs + more)
  {
  }

  lemma OwnFurther(queue: seq<Block>, objs: set<ScheduledResource>, added: seq<Block>, more: set<ScheduledResource>)
    requires OwnResources(queue) && objs !! more
    requires forall j :: 1 <= j < |queue| ==> queue[j].resource in objs
    requires forall j :: 0 <= j < |added| ==> added[j].resource in more
    requires forall j, k :: 0 <= j < k < |added| ==> added[j].resource != added[k].resource
    ensures OwnResources(queue + added)
  {
  }

  lemma QueuedFurther(w: Walk, queue: seq<Block>, i: nat, added: seq<Block>)
    requires i < |queue| && QueuedUpTo(w, queue, i)
    requires ExtendsBy(queue[i].chain, Extensions(w, queue[i].chain), added)
    ensures QueuedUpTo(w, queue + added, i + 1)
  {
    var q := queue + added;
    forall j, d | 0 <= j < i + 1 && j < |q| && d in Extensions(w, q[j].chain) ensures Queued(q, q[j].chain + [d]) {
      if j < i {
        assert q[j] == queue[j];
        assert Queued(queue, queue[j].chain + [d]);
        var n :| 0 <= n < |queue| && queue[n].chain == queue[j].chain + [d];
        assert q[n].chain == q[j].chain + [d];
      } else {
        var n :| 0 <= n < |Extensions(w, queue[i].chain)| && Extensions(w, queue[i].chain)[n] == d;
        assert q[|queue| + n].chain == added[n].chain;
      }
    }
  }

  /** Makes the resource for one more extension of `parent`, linked to the resource of `parent`. */
  method MakeResource(w: Walk, resolve: Resolver, parent: Block, chain: seq<Dependency>, key: string,
                      ghost done: seq<Dependency>)
    returns (sr: ScheduledResource)
    requires chain != [] && IsChain(w, chain) && chain[..|chain| - 1] == parent.chain
    requires resolve(parent.replica, chain) == Some(key)
    requires parent.resource == null <==> parent.chain == []
    requires parent.resource != null ==> Made(w, resolve, parent, done)
    modifies if parent.resource == null then {} else {parent.resource}
    ensures fresh(sr) && Made(w, resolve, Block(parent.replica, chain, sr), [])
    ensures parent.resource != null ==> Made(w, resolve, parent, done + [chain[|chain| - 1]])
  {
    hide Followed;
    hide IsChain;
    sr := new ScheduledResource(key, parent.replica);
    if parent.resource != null {
      sr.requiredKeys := sr.requiredKeys + [parent.resource.key];
      parent.resource.requiredBy := parent.resource.requiredBy + [sr.key];
      assert parent.chain + [chain[|chain| - 1]] == chain;
      assert ChildKeys(resolve, parent.replica, parent.chain, done + [chain[|chain| - 1]]) ==
        ChildKeys(resolve, parent.replica, parent.chain, done) + [key];
    }
  }

  method MakeExtension(w: Walk, resolve: Resolver, parent: Block, dep: Dependency, key: string,
                       ghost done: seq<Dependency>, added: seq<Block>, ghost objs: set<ScheduledResource>)
    returns (sr: ScheduledResource)
    requires IsChain(w, parent.chain) && dep in Extensions(w, parent.chain)
    requires resolve(parent.replica, parent.chain + [dep]) == Some(key)
    requires parent.resource == null <==> parent.chain == []
    requires parent.resource != null ==> Made(w, resolve, parent, done) && parent.resource !in objs
    requires NewBlocks(w, resolve, parent.replica, parent.chain, done, added, objs)
    modifies if parent.resource == null then {} else {parent.resource}
    ensures fresh(sr)
    ensures parent.resource != null ==> Made(w, resolve, parent, done + [dep])
    ensures NewBlocks(w, resolve, parent.replica, parent.chain, done + [dep],
                      added + [Block(parent.replica, parent.chain + [dep], sr)], objs + {sr})
  {
    hide NewBlocks;
    hide Extensions;
    var chain := parent.chain + [dep];
    assert chain[..|chain| - 1] == parent.chain;
    assert IsChain(w, chain);
    hide IsChain;
    sr := MakeResource(w, resolve, parent, chain, key, done);
    NewBlocksMore(w, resolve, parent.replica, parent.chain, done, added, objs, dep, sr);
  }

  /** Expands block `i` of the worklist: one new block for every dependency followed from it. */
  method Expand(w: Walk, resolve: Resolver, replica: string, queue: seq<Block>, i: nat,
                ghost objs: set<ScheduledResource>)
    returns (ok: bool, added: seq<Block>, ghost more: set<ScheduledResource>)
    requires ResolverFits(w.resDefs, resolve) && i < |queue|
    requires Expanded(w, resolve, replica, queue, i, objs)
    modifies if queue[i].resource == null then {} else {queue[i].resource}
    ensures fresh(more)
    ensures ok ==> Expanded(w, resolve, replica, queue + added, i + 1, objs + more)
    ensures ok ==> ExtendsBy(queue[i].chain, Extensions(w, queue[i].chain), added)
    ensures !ok ==> exists d :: d in Extensions(w, queue[i].chain) && resolve(replica, queue[i].chain + [d]).None?
  {
    ok, added, more := MakeExtensions(w, resolve, queue[i]);
    if ok {
      assert MadeUpTo(w, resolve, queue, i + 1, objs) by {
        forall j | 1 <= j < |queue| && j != i ensures queue[j].resource != queue[i].resource { }
      }
      MadeFurther(w, resolve, replica, queue, i, objs, Extensions(w, queue[i].chain), added, more);
      OwnFurther(queue, objs, added, more);
      QueuedFurther(w, queue, i, added);
    }
  }

  /** The blocks made after the first `m` filtered dependencies, and the links from the parent to them. */
  ghost predicate MadeSoFar(w: Walk, resolve: Resolver, parent: Block, m: nat, added: seq<Block>,
                            objs: set<ScheduledResource>)
    requires m <= |FilteredAt(w, TemplateOf(w, parent.chain))|
    reads objs, parent.resource
  {
    var deps := FilteredAt(w, TemplateOf(w, parent.chain));
    var done := FollowedOf(w, TemplateOf(w, parent.chain), parent.chain == [], deps[..m]);
    && NewBlocks(w, resolve, parent.replica, parent.chain, done, added, objs)
    && (parent.resource != null ==> Made(w, resolve, parent, done) && parent.resource !in objs)
  }

  ghost predicate FitsParent(w: Walk, resolve: Resolver, parent: Block) {
    && ResolverFits(w.resDefs, resolve) && IsChain(w, parent.chain)
    && (parent.resource == null <==> parent.chain == [])
    && (parent.resource != null ==> resolve(parent.replica, parent.chain) == Some(parent.resource.key))
  }

  /** Looks at filtered dependency `m` of the parent. */
  method TryExtension(w: Walk, resolve: Resolver, parent: Block, deps: seq<Dependency>, m: nat, added: seq<Block>,
                      ghost objs: set<ScheduledResource>)
    returns (ok: bool, sr: ScheduledResource?)
    requires FitsParent(w, resolve, parent) && deps == FilteredAt(w, TemplateOf(w, parent.chain)) && m < |deps|
    requires MadeSoFar(w, resolve, parent, m, added, objs)
    modifies if parent.resource == null then {} else {parent.resource}
    ensures sr != null ==> fresh(sr)
    ensures ok ==>
      MadeSoFar(w, resolve, parent, m + 1,
                if sr == null then added else added + [Block(parent.replica, parent.chain + [deps[m]], sr)],
                if sr == null then objs else objs + {sr})
    ensures !ok ==> deps[m] in Extensions(w, parent.chain) && resolve(parent.replica, parent.chain + [deps[m]]).None?
  {
    hide IsChain;
    hide Made;
    ghost var template := TemplateOf(w, parent.chain);
    FollowedStep(w, template, parent.chain == [], deps, m);
    ok, sr := true, null;
    if parent.resource != null && IsFlowKey(parent.resource.key) && Delegated(deps[m], w.resDefs) {
      return;
    }
    assert deps[m] in Extensions(w, parent.chain);
    match resolve(parent.replica, parent.chain + [deps[m]]) {
      case None =>
        ok := false;
      case Some(key) =>
        ghost var done := FollowedOf(w, template, parent.chain == [], deps[..m]);
        sr := MakeExtension(w, resolve, parent, deps[m], key, done, added, objs);
    }
  }

  method MakeExtensions(w: Walk, resolve: Resolver, parent: Block)
    returns (ok: bool, added: seq<Block>, ghost objs: set<ScheduledResource>)
    requires FitsParent(w, resolve, parent)
    requires parent.resource != null ==> Made(w, resolve, parent, [])
    modifies if parent.resource == null then {} else {parent.resource}
    ensures fresh(objs)
    ensures ok ==> NewBlocks(w, resolve, parent.replica, parent.chain, Extensions(w, parent.chain), added, objs)
    ensures ok && parent.resource != null ==> Made(w, resolve, parent, Extensions(w, parent.chain))
    ensures !ok ==> exists d :: d in Extensions(w, parent.chain) && resolve(parent.replica, parent.chain + [d]).None?
  {
    hide IsChain;
    hide Filtered;
    hide NotDelegated;
    hide Made;
    ok, added, objs := true, [], {};
    var deps := FilteredAt(w, TemplateOf(w, parent.chain));
    FollowedOfNothing(w, TemplateOf(w, parent.chain), parent.chain == []);
    for m := 0 to |deps|
      invariant MadeSoFar(w, resolve, parent, m, added, objs)
      invariant fresh(objs)
    {
      var sr;
      ok, sr := TryExtension(w, resolve, parent, deps, m, added, objs);
      if !ok {
        return;
      }
      if sr != null {
        added, objs := added + [Block(parent.replica, parent.chain + [deps[m]], sr)], objs + {sr};
      }
    }
    assert deps[..|deps|] == deps;
    assert Extensions(w, parent.chain) == FollowedOf(w, TemplateOf(w, parent.chain), parent.chain == [], deps);
  }

  lemma NewBlocksMore(w: Walk, resolve: Resolver, replica: string, chain: seq<Dependency>, done: seq<Dependency>,
                      added: seq<Block>, objs: set<ScheduledResource>, dep: Dependency, sr: ScheduledResource)
    requires NewBlocks(w, resolve, replica, chain, done, added, objs) && sr !in objs
    requires Made(w, resolve, Block(replica, chain + [dep], sr), [])
    ensures NewBlocks(w, resolve, replica, chain, done + [dep], added + [Block(replica, chain + [dep], sr)], objs + {sr})
  {
    hide Made;
    hide IsChain;
    hide Followed;
  }

  /** What is left of the walk: the paths below the blocks not yet taken. */
  ghost function Remaining(w: Walk, queue: seq<Block>, i: nat): nat
    requires Terminates(w) && i <= |queue|
  {
    Pending(w, queue[i..])
  }

  lemma RemainingShrinks(w: Walk, queue: seq<Block>, i: nat, added: seq<Block>)
    requires Terminates(w) && i < |queue| && IsChain(w, queue[i].chain) && queue[i].chain != []
    requires ExtendsBy(queue[i].chain, Extensions(w, queue[i].chain), added)
    ensures Remaining(w, queue + added, i + 1) < Remaining(w, queue, i)
  {
    hide IsChain;
    hide Terminates;
    hide Pending;
    hide PathCount;
    hide LiveGraph;
    hide Followed;
    LiveGraphClosed(w);
    PendingSplit(w, queue[i + 1..], added);
    assert (queue + added)[i + 1..] == queue[i + 1..] + added;
    PendingSplit(w, [queue[i]], queue[i + 1..]);
    assert [queue[i]] + queue[i + 1..] == queue[i..];
    PendingOne(w, queue[i]);
    ExpansionShrinks(w, queue[i].chain, added);
  }

  lemma PendingOne(w: Walk, b: Block)
    requires Terminates(w) && Closed(LiveGraph(w))
    ensures Pending(w, [b]) == PathCount(LiveGraph(w), TemplateOf(w, b.chain))
  {
    assert [b][..0] == [];
    assert Pending(w, []) == 0;
  }

  lemma NotAllResolve(w: Walk, resolve: Resolver, replica: string, chain: seq<Dependency>)
    requires IsChain(w, chain)
    requires exists d :: d in Extensions(w, chain) && resolve(replica, chain + [d]).None?
    ensures !AllResolve(w, resolve, replica)
  {
    var d :| d in Extensions(w, chain) && resolve(replica, chain + [d]).None?;
    assert (chain + [d])[..|chain|] == chain;
    assert IsChain(w, chain + [d]);
  }

  lemma WalkedResolves(w: Walk, resolve: Resolver, replica: string, queue: seq<Block>, objs: set<ScheduledResource>)
    requires Walked(w, resolve, replica, queue, objs)
    ensures AllResolve(w, resolve, replica)
  {
    hide IsChain;
    hide Followed;
    forall chain | IsChain(w, chain) && chain != [] ensures resolve(replica, chain).Some? {
      EveryChainQueued(w, replica, queue, chain);
      var j :| 0 <= j < |queue| && queue[j].chain == chain;
    }
  }

  /** The finished worklist of one replica: one block for every chain, each with its own resource. */
  ghost predicate Walked(w: Walk, resolve: Resolver, replica: string, queue: seq<Block>, objs: set<ScheduledResource>)
    reads objs
  {
    Expanded(w, resolve, replica, queue, |queue|, objs)
  }

  /** Walks the dependencies of one replica. The worklist is a path count that shrinks with every block taken. */
  method WalkReplica(w: Walk, resolve: Resolver, replica: string)
    returns (ok: bool, queue: seq<Block>, ghost objs: set<ScheduledResource>)
    requires ResolverFits(w.resDefs, resolve) && Terminates(w)
    ensures fresh(objs)
    ensures ok <==> AllResolve(w, resolve, replica)
    ensures ok ==> Walked(w, resolve, replica, queue, objs)
  {
    hide Terminates;
    hide Followed;
    hide Remaining;
    ok, queue, objs := true, [Block(replica, [], null)], {};
    var i := 0;
    while i < |queue|
      invariant i <= |queue| && fresh(objs)
      invariant Expanded(w, resolve, replica, queue, i, objs)
      decreases if i == 0 then 1 else 0, Remaining(w, queue, i)
    {
      ghost var last, before := queue, Remaining(w, queue, i);
      var added;
      ghost var more;
      ok, added, more := Expand(w, resolve, replica, queue, i, objs);
      if !ok {
        NotAllResolve(w, resolve, replica, queue[i].chain);
        return;
      }
      queue, objs := queue + added, objs + more;
      if i > 0 {
        RemainingShrinks(w, last, i, added);
      }
      i := i + 1;
    }
    WalkedResolves(w, resolve, replica, queue, objs);
  }

  // ---------- merging ----------

  /** Everything listed in a resource comes from some walk over `replicas`. */
  ghost predicate Bounded(w: Walk, resolve: Resolver, replicas: set<string>, o: ScheduledResource)
    reads o
  {
    && (forall a :: a in o.requiredKeys ==> Linked(w, resolve, replicas, a, o.key))
    && (forall b :: b in o.requiredBy ==> Linked(w, resolve, replicas, o.key, b))
    && (forall r :: r in o.usedInReplicas ==> r in replicas && Produced(w, resolve, r, o.key))
  }

  /** The three lists of a resource as a value. */
  datatype Lists = Lists(requiredKeys: seq<string>, requiredBy: seq<string>, usedInReplicas: seq<string>)

  function ListsOf(o: ScheduledResource): Lists
    reads o
  {
    Lists(o.requiredKeys, o.requiredBy, o.usedInReplicas)
  }

  ghost predicate Within(a: Lists, b: Lists) {
    && (forall x :: x in a.requiredKeys ==> x in b.requiredKeys)
    && (forall x :: x in a.requiredBy ==> x in b.requiredBy)
    && (forall x :: x in a.usedInReplicas ==> x in b.usedInReplicas)
  }

  /** What the walk of a replica contributes at the end of a chain. */
  ghost function Share(w: Walk, resolve: Resolver, replica: string, chain: seq<Dependency>): Lists {
    Lists(ParentKeys(resolve, replica, chain), ChildKeys(resolve, replica, chain, Extensions(w, chain)), [replica])
  }

  lemma WithinTransitive(a: Lists, b: Lists, c: Lists)
    requires Within(a, b) && Within(b, c)
    ensures Within(a, c)
  {
  }

  /** A resource lists everything the block `b` contributes. */
  ghost predicate Carries(w: Walk, resolve: Resolver, o: ScheduledResource, b: Block)
    reads o
  {
    o.key == KeyAt(resolve, b.replica, b.chain) && Within(Share(w, resolve, b.replica, b.chain), ListsOf(o))
  }

  /** Blocks filed by the child name of their last dependency, as they were made. */
  type Filed = map<string, seq<Block>>

  /** `filed` lists exactly the blocks in the file. */
  ghost predicate FileOf(blocks: Filed, filed: seq<Block>) {
    && (forall t, b :: t in blocks && b in blocks[t] ==> b in filed)
    && (forall b :: b in filed ==>
          b.chain != [] && b.chain[|b.chain| - 1].child in blocks && b in blocks[b.chain[|b.chain| - 1].child])
  }

  ghost predicate AllBounded(w: Walk, resolve: Resolver, replicas: set<string>, objs: set<ScheduledResource>)
    reads objs
  {
    forall o :: o in objs ==> Bounded(w, resolve, replicas, o)
  }

  ghost predicate Keyed(g: map<string, ScheduledResource>, objs: set<ScheduledResource>) {
    forall k :: k in g ==> g[k] in objs && g[k].key == k
  }

  /** The graph has a resource under the key of `b`, and it carries `b`. */
  ghost predicate Holds(w: Walk, resolve: Resolver, g: map<string, ScheduledResource>, objs: set<ScheduledResource>,
                        b: Block)
    reads objs
  {
    && KeyAt(resolve, b.replica, b.chain) in g
    && g[KeyAt(resolve, b.replica, b.chain)] in objs
    && Carries(w, resolve, g[KeyAt(resolve, b.replica, b.chain)], b)
  }

  ghost predicate Extends(g0: map<string, ScheduledResource>, g1: map<string, ScheduledResource>) {
    forall k :: k in g0 ==> k in g1 && g1[k] == g0[k]
  }

  /** The graph holds every block of a list. */
  ghost predicate HoldsAll(w: Walk, resolve: Resolver, g: map<string, ScheduledResource>, objs: set<ScheduledResource>,
                           list: seq<Block>)
    reads objs
  {
    forall j :: 0 <= j < |list| ==> Holds(w, resolve, g, objs, list[j])
  }

  /** Every block of a list has a resource that carries it. */
  ghost predicate CarriedAll(w: Walk, resolve: Resolver, objs: set<ScheduledResource>, list: seq<Block>)
    reads objs
  {
    forall j :: 0 <= j < |list| ==> list[j].resource in objs && Carries(w, resolve, list[j].resource, list[j])
  }

  /** Adds a block's resource under its key, or joins it to the one already there. What the graph held before, and what
      the resources of filed blocks carried, stays. */
  method MergeEntry(w: Walk, resolve: Resolver, depGraph: DependencyGraph, entry: Block,
                    ghost replicas: set<string>, ghost objs: set<ScheduledResource>,
                    ghost held: seq<Block>, ghost filed: seq<Block>)
    requires entry.resource != null && entry.resource in objs && Carries(w, resolve, entry.resource, entry)
    requires Keyed(depGraph.graph, objs) && AllBounded(w, resolve, replicas, objs)
    requires HoldsAll(w, resolve, depGraph.graph, objs, held) && CarriedAll(w, resolve, objs, filed)
    modifies depGraph, objs
    ensures Keyed(depGraph.graph, objs) && AllBounded(w, resolve, replicas, objs)
    ensures HoldsAll(w, resolve, depGraph.graph, objs, held + [entry]) && CarriedAll(w, resolve, objs, filed)
    ensures depGraph.graph.Keys == old(depGraph.graph.Keys) + {entry.resource.key}
  {
    hide Share;
    hide Bounded;
    Join(w, resolve, depGraph, entry.resource, replicas, objs);
    forall j | 0 <= j < |held| ensures Holds(w, resolve, depGraph.graph, objs, held[j]) {
      var b, o := held[j], old(depGraph.graph)[KeyAt(resolve, held[j].replica, held[j].chain)];
      WithinTransitive(Share(w, resolve, b.replica, b.chain), old(ListsOf(o)), ListsOf(o));
    }
    forall j | 0 <= j < |filed| ensures Carries(w, resolve, filed[j].resource, filed[j]) {
      var b := filed[j];
      WithinTransitive(Share(w, resolve, b.replica, b.chain), old(ListsOf(b.resource)), ListsOf(b.resource));
    }
    var o := depGraph.graph[entry.resource.key];
    WithinTransitive(Share(w, resolve, entry.replica, entry.chain), old(ListsOf(entry.resource)), ListsOf(o));
  }

  method Join(w: Walk, resolve: Resolver, depGraph: DependencyGraph, sr: ScheduledResource,
              ghost replicas: set<string>, ghost objs: set<ScheduledResource>)
    requires sr in objs && Keyed(depGraph.graph, objs) && AllBounded(w, resolve, replicas, objs)
    modifies depGraph, objs
    ensures Keyed(depGraph.graph, objs) && AllBounded(w, resolve, replicas, objs)
    ensures forall o :: o in objs ==> Within(old(ListsOf(o)), ListsOf(o))
    ensures Extends(old(depGraph.graph), depGraph.graph)
    ensures depGraph.graph.Keys == old(depGraph.graph.Keys) + {sr.key}
    ensures Within(old(ListsOf(sr)), ListsOf(depGraph.graph[sr.key]))
  {
    hide Linked;
    hide Produced;
    if sr.key !in depGraph.graph {
      depGraph.graph := depGraph.graph[sr.key := sr];
    } else {
      var existing := depGraph.graph[sr.key];
      existing.requiredKeys := existing.requiredKeys + sr.requiredKeys;
      existing.requiredBy := existing.requiredBy + sr.requiredBy;
      existing.usedInReplicas := existing.usedInReplicas + sr.usedInReplicas;
    }
  }

  ghost predicate ListsKey(resolve: Resolver, list: seq<Block>, k: string) {
    exists j :: 0 <= j < |list| && KeyAt(resolve, list[j].replica, list[j].chain) == k
  }

  method MergeList(w: Walk, resolve: Resolver, depGraph: DependencyGraph, list: seq<Block>,
                   ghost replicas: set<string>, ghost objs: set<ScheduledResource>,
                   ghost held: seq<Block>, ghost filed: seq<Block>)
    requires forall b :: b in list ==> b in filed
    requires Keyed(depGraph.graph, objs) && AllBounded(w, resolve, replicas, objs)
    requires HoldsAll(w, resolve, depGraph.graph, objs, held) && CarriedAll(w, resolve, objs, filed)
    requires forall k :: k in depGraph.graph ==> ListsKey(resolve, filed, k)
    modifies depGraph, objs
    ensures Keyed(depGraph.graph, objs) && AllBounded(w, resolve, replicas, objs)
    ensures HoldsAll(w, resolve, depGraph.graph, objs, held + list) && CarriedAll(w, resolve, objs, filed)
    ensures forall k :: k in depGraph.graph ==> ListsKey(resolve, filed, k)
  {
    hide AllBounded;
    hide HoldsAll;
    hide Share;
    assert held + list[..0] == held;
    for j := 0 to |list|
      invariant Keyed(depGraph.graph, objs) && AllBounded(w, resolve, replicas, objs)
      invariant HoldsAll(w, resolve, depGraph.graph, objs, held + list[..j]) && CarriedAll(w, resolve, objs, filed)
      invariant forall k :: k in depGraph.graph ==> ListsKey(resolve, filed, k)
    {
      var entry := list[j];
      assert entry in list && entry in filed;
      MergeEntry(w, resolve, depGraph, entry, replicas, objs, held + list[..j], filed);
      assert held + list[..j] + [entry] == held + list[..j + 1];
    }
    assert list[..|list|] == list;
  }

  /** Merges the whole file, template by template in any order. */
  method MergeAll(w: Walk, resolve: Resolver, depGraph: DependencyGraph, blocks: Filed,
                  ghost replicas: set<string>, ghost objs: set<ScheduledResource>, ghost filed: seq<Block>)
    requires FileOf(blocks, filed)
    requires Keyed(depGraph.graph, objs) && AllBounded(w, resolve, replicas, objs)
    requires CarriedAll(w, resolve, objs, filed)
    requires forall k :: k in depGraph.graph ==> ListsKey(resolve, filed, k)
    modifies depGraph, objs
    ensures Keyed(depGraph.graph, objs) && AllBounded(w, resolve, replicas, objs)
    ensures HoldsAll(w, resolve, depGraph.graph, objs, filed) && CarriedAll(w, resolve, objs, filed)
    ensures forall k :: k in depGraph.graph ==> ListsKey(resolve, filed, k)
  {
    hide AllBounded;
    hide CarriedAll;
    hide Holds;
    var todo := blocks.Keys;
    ghost var held: seq<Block> := [];
    while todo != {}
      invariant todo <= blocks.Keys
      invariant Keyed(depGraph.graph, objs) && AllBounded(w, resolve, replicas, objs)
      invariant HoldsAll(w, resolve, depGraph.graph, objs, held) && CarriedAll(w, resolve, objs, filed)
      invariant forall k :: k in depGraph.graph ==> ListsKey(resolve, filed, k)
      invariant forall t, b :: t in blocks.Keys - todo && b in blocks[t] ==> b in held
      decreases todo
    {
      var template :| template in todo;
      MergeList(w, resolve, depGraph, blocks[template], replicas, objs, held, filed);
      held := held + blocks[template];
      todo := todo - {template};
    }
    forall j | 0 <= j < |filed| ensures Holds(w, resolve, depGraph.graph, objs, filed[j]) {
      assert filed[j] in filed && filed[j] in held;
    }
  }

  /** Files the blocks of a worklist, all but the root. */
  method FileBlocks(blocks: Filed, queue: seq<Block>, ghost filed: seq<Block>) returns (blocks': Filed)
    requires FileOf(blocks, filed) && queue != [] && forall j :: 1 <= j < |queue| ==> queue[j].chain != []
    ensures FileOf(blocks', filed + queue[1..])
  {
    blocks' := blocks;
    assert filed + queue[1..1] == filed;
    for j := 1 to |queue|
      invariant FileOf(blocks', filed + queue[1..j])
    {
      var t := queue[j].chain[|queue[j].chain| - 1].child;
      blocks' := blocks'[t := (if t in blocks' then blocks'[t] else []) + [queue[j]]];
      assert filed + queue[1..j + 1] == filed + queue[1..j] + [queue[j]];
    }
    assert queue[1..|queue|] == queue[1..];
  }

  // ---------- all replicas ----------

  /** `filed` lists a block for every chain of every replica, and nothing else. */
  ghost predicate FiledExactly(w: Walk, replicas: set<string>, filed: seq<Block>) {
    && (forall b :: b in filed ==> b.replica in replicas && b.chain != [] && IsChain(w, b.chain))
    && (forall r, chain :: r in replicas && IsChain(w, chain) && chain != [] ==> FiledFor(filed, r, chain))
  }

  ghost predicate FiledFor(filed: seq<Block>, r: string, chain: seq<Dependency>) {
    exists j :: 0 <= j < |filed| && filed[j].replica == r && filed[j].chain == chain
  }

  lemma FiledMore(w: Walk, replicas: set<string>, filed: seq<Block>, replica: string, queue: seq<Block>)
    requires FiledExactly(w, replicas, filed)
    requires RootFirst(queue, replica) && QueuedUpTo(w, queue, |queue|)
    requires forall j :: 1 <= j < |queue| ==> queue[j].chain != [] && IsChain(w, queue[j].chain)
    ensures FiledExactly(w, replicas + {replica}, filed + queue[1..])
  {
    hide IsChain;
    hide Followed;
    var all := filed + queue[1..];
    forall r, chain | r in replicas + {replica} && IsChain(w, chain) && chain != [] ensures FiledFor(all, r, chain) {
      if r in replicas {
        var j :| 0 <= j < |filed| && filed[j].replica == r && filed[j].chain == chain;
        assert all[j] == filed[j];
      } else {
        EveryChainQueued(w, replica, queue, chain);
        var j :| 0 <= j < |queue| && queue[j].chain == chain;
        assert all[|filed| + j - 1] == queue[j];
      }
    }
  }

  lemma LinkedMore(w: Walk, resolve: Resolver, replicas: set<string>, more: set<string>, a: string, b: string)
    requires replicas <= more && Linked(w, resolve, replicas, a, b)
    ensures Linked(w, resolve, more, a, b)
  {
    var r, chain :| r in replicas && IsChain(w, chain) && |chain| > 1 && LinkedBy(resolve, r, chain, a, b);
  }

  lemma AllBoundedMore(w: Walk, resolve: Resolver, replicas: set<string>, more: set<string>,
                       objs: set<ScheduledResource>)
    requires replicas <= more && AllBounded(w, resolve, replicas, objs)
    ensures AllBounded(w, resolve, more, objs)
  {
    hide Linked;
    hide Produced;
    forall o | o in objs ensures Bounded(w, resolve, more, o) {
      assert Bounded(w, resolve, replicas, o);
      forall a | a in o.requiredKeys ensures Linked(w, resolve, more, a, o.key) {
        LinkedMore(w, resolve, replicas, more, a, o.key);
      }
      forall b | b in o.requiredBy ensures Linked(w, resolve, more, o.key, b) {
        LinkedMore(w, resolve, replicas, more, o.key, b);
      }
    }
  }

  /** A freshly made resource lists its own block's share and nothing else. */
  lemma MadeIsBounded(w: Walk, resolve: Resolver, replicas: set<string>, b: Block)
    requires b.replica in replicas && Made(w, resolve, b, Extensions(w, b.chain))
    ensures Bounded(w, resolve, replicas, b.resource) && Carries(w, resolve, b.resource, b)
  {
    hide Followed;
    var o, r, chain := b.resource, b.replica, b.chain;
    forall a | a in o.requiredKeys ensures Linked(w, resolve, replicas, a, o.key) {
      assert LinkedBy(resolve, r, chain, a, o.key);
    }
    forall c | c in o.requiredBy ensures Linked(w, resolve, replicas, o.key, c) {
      var i :| 0 <= i < |Extensions(w, chain)| && c == KeyAt(resolve, r, chain + [Extensions(w, chain)[i]]);
      var longer := chain + [Extensions(w, chain)[i]];
      assert longer[..|longer| - 1] == chain;
      assert LinkedBy(resolve, r, longer, o.key, c);
    }
  }

  /** The resources of a worklist, without any left over from elsewhere. */
  lemma WorklistResources(w: Walk, resolve: Resolver, replica: string, queue: seq<Block>, objs: set<ScheduledResource>,
                          replicas: set<string>) returns (mine: set<ScheduledResource>)
    requires Walked(w, resolve, replica, queue, objs) && replica in replicas
    ensures mine <= objs && AllBounded(w, resolve, replicas, mine) && CarriedAll(w, resolve, mine, queue[1..])
    ensures forall j :: 1 <= j < |queue| ==> queue[j].chain != [] && IsChain(w, queue[j].chain)
  {
    hide Bounded;
    hide Carries;
    hide Followed;
    hide IsChain;
    mine := set o | o in objs && Bounded(w, resolve, replicas, o);
    forall n | 1 <= n < |queue| ensures queue[n].resource in mine && Carries(w, resolve, queue[n].resource, queue[n]) {
      MadeIsBounded(w, resolve, replicas, queue[n]);
    }
  }

  lemma CarriedTogether(w: Walk, resolve: Resolver, objs: set<ScheduledResource>, filed: seq<Block>,
                        mine: set<ScheduledResource>, more: seq<Block>)
    requires CarriedAll(w, resolve, objs, filed) && CarriedAll(w, resolve, mine, more)
    ensures CarriedAll(w, resolve, objs + mine, filed + more)
  {
    hide Carries;
  }

  lemma GraphIsExact(w: Walk, resolve: Resolver, replicas: set<string>, g: map<string, ScheduledResource>,
                     objs: set<ScheduledResource>, filed: seq<Block>)
    requires Keyed(g, objs) && AllBounded(w, resolve, replicas, objs)
    requires FiledExactly(w, replicas, filed) && HoldsAll(w, resolve, g, objs, filed)
    requires forall k :: k in g ==> ListsKey(resolve, filed, k)
    ensures Exact(w, resolve, replicas, g)
  {
    hide IsChain;
    hide Followed;
    hide Linked;
    hide Produced;
    hide AllBounded;
    hide HoldsAll;
    hide ListsKey;
    forall k, r | r in replicas && Produced(w, resolve, r, k) ensures k in g {
      UseHeld(w, resolve, replicas, g, objs, filed, r, k);
    }
    forall k | k in g ensures exists r :: r in replicas && Produced(w, resolve, r, k) {
      KeyProduced(w, resolve, replicas, filed, k);
    }
    forall k | k in g ensures ExactAt(w, resolve, replicas, g[k]) {
      ResourceIsExact(w, resolve, replicas, g, objs, filed, k);
    }
  }

  lemma ResourceIsExact(w: Walk, resolve: Resolver, replicas: set<string>, g: map<string, ScheduledResource>,
                        objs: set<ScheduledResource>, filed: seq<Block>, k: string)
    requires Keyed(g, objs) && AllBounded(w, resolve, replicas, objs) && k in g
    requires FiledExactly(w, replicas, filed) && HoldsAll(w, resolve, g, objs, filed)
    ensures ExactAt(w, resolve, replicas, g[k])
  {
    hide Linked;
    hide Produced;
    hide HoldsAll;
    hide FiledExactly;
    assert Bounded(w, resolve, replicas, g[k]);
    forall a | Linked(w, resolve, replicas, a, k) ensures a in g[k].requiredKeys {
      LinkHeld(w, resolve, replicas, g, objs, filed, a, k);
    }
    forall b | Linked(w, resolve, replicas, k, b) ensures b in g[k].requiredBy {
      LinkHeld(w, resolve, replicas, g, objs, filed, k, b);
    }
    forall r | r in replicas && Produced(w, resolve, r, k) ensures r in g[k].usedInReplicas {
      UseHeld(w, resolve, replicas, g, objs, filed, r, k);
    }
  }

  lemma KeyProduced(w: Walk, resolve: Resolver, replicas: set<string>, filed: seq<Block>, k: string)
    requires FiledExactly(w, replicas, filed) && ListsKey(resolve, filed, k)
    ensures exists r :: r in replicas && Produced(w, resolve, r, k)
  {
    hide IsChain;
    var j :| 0 <= j < |filed| && KeyAt(resolve, filed[j].replica, filed[j].chain) == k;
    assert filed[j] in filed;
    assert Produced(w, resolve, filed[j].replica, k);
  }

  lemma UseHeld(w: Walk, resolve: Resolver, replicas: set<string>, g: map<string, ScheduledResource>,
                objs: set<ScheduledResource>, filed: seq<Block>, r: string, k: string)
    requires FiledExactly(w, replicas, filed) && HoldsAll(w, resolve, g, objs, filed)
    requires r in replicas && Produced(w, resolve, r, k)
    ensures k in g && r in g[k].usedInReplicas
  {
    hide IsChain;
    hide Followed;
    var chain :| IsChain(w, chain) && chain != [] && KeyAt(resolve, r, chain) == k;
    assert FiledFor(filed, r, chain);
    var j :| 0 <= j < |filed| && filed[j].replica == r && filed[j].chain == chain;
    assert Holds(w, resolve, g, objs, filed[j]);
    assert r in Share(w, resolve, r, chain).usedInReplicas;
  }

  lemma LinkHeld(w: Walk, resolve: Resolver, replicas: set<string>, g: map<string, ScheduledResource>,
                 objs: set<ScheduledResource>, filed: seq<Block>, a: string, b: string)
    requires FiledExactly(w, replicas, filed) && HoldsAll(w, resolve, g, objs, filed)
    requires Linked(w, resolve, replicas, a, b)
    ensures a in g && b in g && a in g[b].requiredKeys && b in g[a].requiredBy
  {
    hide Followed;
    hide FiledExactly;
    hide HoldsAll;
    var r, chain :| r in replicas && IsChain(w, chain) && |chain| > 1 && LinkedBy(resolve, r, chain, a, b);
    var front, d := chain[..|chain| - 1], chain[|chain| - 1];
    ShareHeld(w, resolve, replicas, g, objs, filed, r, chain);
    ShareHeld(w, resolve, replicas, g, objs, filed, r, front);
    assert a in Share(w, resolve, r, chain).requiredKeys;
    assert front + [d] == chain;
    ChildInShare(resolve, r, front, Extensions(w, front), d);
  }

  lemma ChildInShare(resolve: Resolver, r: string, front: seq<Dependency>, exts: seq<Dependency>, d: Dependency)
    requires d in exts
    ensures KeyAt(resolve, r, front + [d]) in ChildKeys(resolve, r, front, exts)
  {
    var n :| 0 <= n < |exts| && exts[n] == d;
    assert ChildKeys(resolve, r, front, exts)[n] == KeyAt(resolve, r, front + [d]);
  }

  lemma ShareHeld(w: Walk, resolve: Resolver, replicas: set<string>, g: map<string, ScheduledResource>,
                  objs: set<ScheduledResource>, filed: seq<Block>, r: string, chain: seq<Dependency>)
    requires FiledExactly(w, replicas, filed) && HoldsAll(w, resolve, g, objs, filed)
    requires r in replicas && IsChain(w, chain) && chain != []
    ensures KeyAt(resolve, r, chain) in g && Within(Share(w, resolve, r, chain), ListsOf(g[KeyAt(resolve, r, chain)]))
  {
    hide IsChain;
    hide Share;
    assert FiledFor(filed, r, chain);
    var j :| 0 <= j < |filed| && filed[j].replica == r && filed[j].chain == chain;
    assert Holds(w, resolve, g, objs, filed[j]);
  }

  /** Fills an empty graph from the walks of all replicas. The file of blocks is shared by the replicas, so the blocks of
      earlier replicas are merged again after every later one. */
  method FillDependencyGraph(depGraph: DependencyGraph, w: Walk, resolve: Resolver,
                             replicaNames: seq<string>) returns (ok: bool)
    requires depGraph.graph == map[] || replicaNames == []
    requires ResolverFits(w.resDefs, resolve) && Terminates(w)
    modifies depGraph
    ensures ok <==> forall r :: r in replicaNames ==> AllResolve(w, resolve, r)
    ensures ok && replicaNames != [] ==> Exact(w, resolve, Elements(replicaNames), depGraph.graph)
    ensures ok && replicaNames != [] ==> forall k :: k in depGraph.graph ==> fresh(depGraph.graph[k])
    ensures replicaNames == [] ==> depGraph.graph == old(depGraph.graph)
  {
    hide Terminates;
    hide AllResolve;
    hide FileOf;
    hide Merged;
    ok := true;
    if replicaNames == [] {
      return;
    }
    var blocks: Filed := map[];
    ghost var done, filed: seq<Block>, objs: set<ScheduledResource> := {}, [], {};
    NothingMerged(w, resolve);
    for n := 0 to |replicaNames|
      invariant fresh(objs) && FileOf(blocks, filed)
      invariant Merged(w, resolve, done, depGraph.graph, objs, filed)
      invariant forall r :: r in done <==> r in replicaNames[..n]
      invariant forall r :: r in done ==> AllResolve(w, resolve, r)
    {
      assert replicaNames[..n + 1] == replicaNames[..n] + [replicaNames[n]];
      ok, blocks, filed, objs := AddReplica(depGraph, w, resolve, replicaNames[n], blocks, done, filed, objs);
      if !ok {
        assert replicaNames[n] in replicaNames;
        return;
      }
      done := done + {replicaNames[n]};
    }
    assert replicaNames[..|replicaNames|] == replicaNames;
    assert done == Elements(replicaNames);
    MergedIsExact(w, resolve, done, depGraph.graph, objs, filed);
  }

  lemma NothingMerged(w: Walk, resolve: Resolver)
    ensures FileOf(map[], []) && Merged(w, resolve, {}, map[], {}, [])
  {
  }

  lemma MergedIsExact(w: Walk, resolve: Resolver, replicas: set<string>, g: map<string, ScheduledResource>,
                      objs: set<ScheduledResource>, filed: seq<Block>)
    requires Merged(w, resolve, replicas, g, objs, filed)
    ensures Exact(w, resolve, replicas, g) && forall k :: k in g ==> g[k] in objs
  {
    hide AllBounded;
    hide FiledExactly;
    hide HoldsAll;
    hide CarriedAll;
    hide Exact;
    GraphIsExact(w, resolve, replicas, g, objs, filed);
  }

  /** The state between two replicas: everything filed so far has been merged. */
  ghost predicate Merged(w: Walk, resolve: Resolver, replicas: set<string>, g: map<string, ScheduledResource>,
                         objs: set<ScheduledResource>, filed: seq<Block>)
    reads objs
  {
    && Keyed(g, objs) && AllBounded(w, resolve, replicas, objs)
    && FiledExactly(w, replicas, filed)
    && HoldsAll(w, resolve, g, objs, filed) && CarriedAll(w, resolve, objs, filed)
    && (forall k :: k in g ==> ListsKey(resolve, filed, k))
  }

  method AddReplica(depGraph: DependencyGraph, w: Walk, resolve: Resolver, replica: string, blocks: Filed,
                    ghost replicas: set<string>, ghost filed: seq<Block>, ghost objs: set<ScheduledResource>)
    returns (ok: bool, blocks': Filed, ghost filed': seq<Block>, ghost objs': set<ScheduledResource>)
    requires ResolverFits(w.resDefs, resolve) && Terminates(w) && FileOf(blocks, filed)
    requires Merged(w, resolve, replicas, depGraph.graph, objs, filed)
    modifies depGraph, objs
    ensures ok <==> AllResolve(w, resolve, replica)
    ensures FileOf(blocks', filed')
    ensures ok ==> Merged(w, resolve, replicas + {replica}, depGraph.graph, objs', filed')
    ensures objs <= objs' && fresh(objs' - objs)
  {
    hide Followed;
    hide IsChain;
    hide Bounded;
    hide Carries;
    hide Terminates;
    var queue;
    ghost var made;
    ok, queue, made := WalkReplica(w, resolve, replica);
    blocks', filed', objs' := blocks, filed, objs;
    if !ok {
      return;
    }
    ghost var more := replicas + {replica};
    ghost var mine := WorklistResources(w, resolve, replica, queue, made, more);
    AllBoundedMore(w, resolve, replicas, more, objs);
    CarriedTogether(w, resolve, objs, filed, mine, queue[1..]);
    FiledMore(w, replicas, filed, replica, queue);
    ListsKeyMore(resolve, filed, queue[1..], depGraph.graph.Keys);
    blocks' := FileBlocks(blocks, queue, filed);
    filed', objs' := filed + queue[1..], objs + mine;
    MergeAll(w, resolve, depGraph, blocks', more, objs', filed');
  }

  lemma ListsKeyMore(resolve: Resolver, filed: seq<Block>, more: seq<Block>, keys: set<string>)
    requires forall k :: k in keys ==> ListsKey(resolve, filed, k)
    ensures forall k :: k in keys ==> ListsKey(resolve, filed + more, k)
  {
    forall k | k in keys ensures ListsKey(resolve, filed + more, k) {
      var j :| 0 <= j < |filed| && KeyAt(resolve, filed[j].replica, filed[j].chain) == k;
      assert (filed + more)[j] == filed[j];
    }
  }
}
