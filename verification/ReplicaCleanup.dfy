/** Cleaning up after replicas: which resources are deleted, and which replica records may go. */
module ReplicaCleanup {
  import opened Graphs
  import opened GraphWalk
  import opened GraphBuilder
  import opened ReplicaAllocation
  import Runner = ConcurrentRunner

  // ---------- destructors ----------

  /** Nothing but replicas being removed uses the resource. */
  ghost predicate OnlyUsedBy(o: ScheduledResource, doomed: set<string>)
    reads o
  {
    forall name :: name in o.usedInReplicas ==> name in doomed
  }

  /** `list` has one destructor for each resource of the graph that only replicas being removed use. */
  ghost predicate DestructorsOf(g: map<string, ScheduledResource>, doomed: set<string>, list: seq<ScheduledResource>)
    reads g.Values
  {
    && Distinct(list)
    && (forall o :: o in list ==> o in g.Values && OnlyUsedBy(o, doomed))
    && (forall k :: k in g && OnlyUsedBy(g[k], doomed) ==> g[k] in list)
  }

  method CanBeDeleted(resource: ScheduledResource, replicaMap: map<string, Replica>) returns (can: bool)
    ensures can <==> OnlyUsedBy(resource, replicaMap.Keys)
  {
    can := true;
    for i := 0 to |resource.usedInReplicas|
      invariant can && forall j :: 0 <= j < i ==> resource.usedInReplicas[j] in replicaMap
    {
      if resource.usedInReplicas[i] !in replicaMap {
        return false;
      }
    }
  }

  method DestructorsFor(g: map<string, ScheduledResource>,
                        replicaMap: map<string, Replica>) returns (list: seq<ScheduledResource>)
    requires forall k :: k in g ==> g[k].key == k
    ensures DestructorsOf(g, replicaMap.Keys, list)
  {
    list := [];
    var todo := g.Keys;
    while todo != {}
      invariant todo <= g.Keys
      invariant Distinct(list)
      invariant forall o :: o in list ==> o in g.Values && o.key in g && o.key !in todo && OnlyUsedBy(o, replicaMap.Keys)
      invariant forall k :: k in g && k !in todo && OnlyUsedBy(g[k], replicaMap.Keys) ==> g[k] in list
      decreases todo
    {
      var k :| k in todo;
      var can := CanBeDeleted(g[k], replicaMap);
      if can {
        assert g[k] !in list;
        DistinctAppend(list, g[k]);
        list := list + [g[k]];
      }
      todo := todo - {k};
    }
  }

  /** The destructors from both graphs, those of the construction graph first. */
  method GetResourceDestructors(construction: map<string, ScheduledResource>,
                                destruction: map<string, ScheduledResource>,
                                replicaMap: map<string, Replica>) returns (destructors: seq<ScheduledResource>,
                                fromConstruction: nat)
    requires forall k :: k in construction ==> construction[k].key == k
    requires forall k :: k in destruction ==> destruction[k].key == k
    ensures fromConstruction <= |destructors|
    ensures DestructorsOf(construction, replicaMap.Keys, destructors[..fromConstruction])
    ensures DestructorsOf(destruction, replicaMap.Keys, destructors[fromConstruction..])
  {
    var first := DestructorsFor(construction, replicaMap);
    var second := DestructorsFor(destruction, replicaMap);
    destructors, fromConstruction := first + second, |first|;
    assert destructors[..|first|] == first && destructors[|first|..] == second;
  }

  /** In the graph of all replicas a resource has a destructor just when every replica whose walk leads to it is being
      removed, so what a surviving replica shares is never deleted on account of that graph. */
  lemma SharedResourcesSurvive(w: Walk, resolve: Resolver, all: set<string>, g: map<string, ScheduledResource>,
                               doomed: set<string>, list: seq<ScheduledResource>, k: string)
    requires Exact(w, resolve, all, g) && DestructorsOf(g, doomed, list) && k in g
    ensures g[k] in list <==> forall r :: r in all && Produced(w, resolve, r, k) ==> r in doomed
  {
    hide Produced;
    assert g[k] in g.Values;
    assert ExactAt(w, resolve, all, g[k]);
  }

  /** What the destruction walk of the removed replicas leads to always has a destructor. */
  lemma DestructionPathIsDeleted(w: Walk, resolve: Resolver, doomed: set<string>, g: map<string, ScheduledResource>,
                                 list: seq<ScheduledResource>)
    requires Exact(w, resolve, doomed, g) && DestructorsOf(g, doomed, list)
    ensures forall k :: k in g ==> g[k] in list
  {
    hide Produced;
    hide Linked;
    forall k | k in g ensures g[k] in list {
      assert g[k] in g.Values;
      assert ExactAt(w, resolve, doomed, g[k]);
    }
  }

  /** A key is up for deletion exactly when the destruction path names it or no surviving replica leads to it. */
  lemma DeletedKeys(construct: Walk, destruct: Walk, resolve: Resolver, all: set<string>, doomed: set<string>,
                    construction: map<string, ScheduledResource>, destruction: map<string, ScheduledResource>,
                    first: seq<ScheduledResource>, second: seq<ScheduledResource>, k: string)
    requires Exact(construct, resolve, all, construction) && Exact(destruct, resolve, doomed, destruction)
    requires DestructorsOf(construction, doomed, first) && DestructorsOf(destruction, doomed, second)
    ensures (exists o :: o in first + second && o.key == k) <==>
      || (exists r :: r in doomed && Produced(destruct, resolve, r, k))
      || ((exists r :: r in all && Produced(construct, resolve, r, k)) &&
          forall r :: r in all - doomed ==> !Produced(construct, resolve, r, k))
  {
    hide ExactAt;
    hide Produced;
    DestructionPathIsDeleted(destruct, resolve, doomed, destruction, second);
    if k in construction { SharedResourcesSurvive(construct, resolve, all, construction, doomed, first, k); }
    if k in destruction { assert destruction[k] in first + second; }
    if k in construction && construction[k] in first { assert construction[k] in first + second; }
    if o :| o in first + second && o.key == k {
      assert o in first || o in second;
    }
  }

  // ---------- deleting one resource ----------

  /** What a destructor works on: the key of the cluster object, the replicas using it, and whether the object was there
      before the deployment. */
  datatype Target = Target(key: string, usedIn: seq<string>, existing: bool)

  /** An error says nothing about whether the object is gone all the same. */
  datatype Answer = Deleted | NotFound | Failed(gone: bool)

  predicate Protected(t: Target, allowExternal: bool) {
    t.existing && !allowExternal
  }

  /** The objects left and whether deletion counts as done: objects from outside are kept, missing ones are fine. */
  function DeleteResource(t: Target, allowExternal: bool, objects: set<string>, a: Answer): (r: (set<string>, bool))
    requires a == NotFound ==> t.key !in objects
    ensures r.1 ==> t.key !in r.0 || Protected(t, allowExternal)
    ensures r.0 <= objects && objects - r.0 <= {t.key}
    ensures Protected(t, allowExternal) ==> r == (objects, true)
    ensures !r.1 ==> a.Failed?
  {
    if !t.existing || allowExternal then
      match a
      case Deleted => (objects - {t.key}, true)
      case NotFound => (objects, true)
      case Failed(gone) => (if gone then objects - {t.key} else objects, false)
    else (objects, true)
  }

  // ---------- the whole cleanup ----------

  /** Running the destructors on the cluster: the API answers as each destructor ends, and nothing else changes the objects. */
  ghost predicate IsCleanup(targets: seq<Target>, allowExternal: bool, concurrency: int,
                            steps: seq<Runner.Step>, states: seq<Runner.State>, objects: seq<set<string>>) {
    && Runner.IsRun(|targets|, Runner.Capacity(|targets|, concurrency), steps, states)
    && |objects| == |states|
    && forall k :: 0 <= k < |steps| ==> ObjectsStep(targets, allowExternal, steps[k], objects[k], objects[k + 1])
  }

  ghost predicate ObjectsStep(targets: seq<Target>, allowExternal: bool, e: Runner.Step, before: set<string>,
                              after: set<string>) {
    if e.End? && e.i < |targets| then
      exists a: Answer :: (a == NotFound ==> targets[e.i].key !in before) &&
        DeleteResource(targets[e.i], allowExternal, before, a) == (after, e.ok)
    else after == before
  }

  predicate Succeeded(w: Runner.Worker) {
    (w.Ended? || w.Recorded? || w.Released?) && w.ok
  }

  /** A destructor that reported success has left no object behind, unless the object is protected. */
  lemma {:induction false} SuccessMeansGone(targets: seq<Target>, allowExternal: bool, concurrency: int,
                                            steps: seq<Runner.Step>,
                                            states: seq<Runner.State>, objects: seq<set<string>>, k: nat)
    requires IsCleanup(targets, allowExternal, concurrency, steps, states, objects) && k < |states|
    ensures |states[k].workers| == |targets|
    ensures forall i :: 0 <= i < |targets| && Succeeded(states[k].workers[i]) && !Protected(targets[i], allowExternal) ==>
      targets[i].key !in objects[k]
  {
    hide DeleteResource;
    hide Protected;
    hide Runner.Enabled;
    hide Runner.Apply;
    hide Runner.PermitsCounted;
    if k > 0 {
      SuccessMeansGone(targets, allowExternal, concurrency, steps, states, objects, k - 1);
      Runner.InvInRun(|targets|, concurrency, steps, states, k - 1);
      var s, t, e := states[k - 1], states[k], steps[k - 1];
      assert ObjectsStep(targets, allowExternal, e, objects[k - 1], objects[k]);
      ObjectsShrink(targets, allowExternal, e, objects[k - 1], objects[k]);
      forall i | 0 <= i < |targets| && Succeeded(t.workers[i]) && !Protected(targets[i], allowExternal)
        ensures targets[i].key !in objects[k]
      {
        NewSuccess(s, Runner.Capacity(|targets|, concurrency), e, i);
      }
    }
  }

  lemma ObjectsShrink(targets: seq<Target>, allowExternal: bool, e: Runner.Step, before: set<string>,
                      after: set<string>)
    requires ObjectsStep(targets, allowExternal, e, before, after)
    ensures after <= before
    ensures e.End? && e.ok && e.i < |targets| ==> targets[e.i].key !in after || Protected(targets[e.i], allowExternal)
  {
  }

  lemma NewSuccess(s: Runner.State, cap: nat, e: Runner.Step, i: nat)
    requires Runner.WorkersInStep(s, |s.workers|) && Runner.Enabled(s, cap, e) && i < |s.workers|
    requires Succeeded(Runner.Apply(s, cap, e).workers[i])
    ensures Succeeded(s.workers[i]) || e == Runner.End(i, true)
  {
  }

  /** Some failed destructor works on a resource that the replica uses. */
  ghost predicate SomeResourceFailed(targets: seq<Target>, failed: seq<nat>, name: string) {
    exists i :: i in failed && i < |targets| && name in targets[i].usedIn
  }

  /** Empties the channel of failures. */
  method FailedReplicas(targets: seq<Target>, failed: seq<nat>) returns (names: set<string>)
    requires forall i :: i in failed ==> i < |targets|
    ensures forall name :: name in names <==> SomeResourceFailed(targets, failed, name)
  {
    hide SomeResourceFailed;
    names := {};
    var queue := failed;
    ghost var read: seq<nat> := [];
    NothingRead(targets);
    while queue != []
      invariant failed == read + queue
      invariant forall name :: name in names <==> SomeResourceFailed(targets, read, name)
      decreases |queue|
    {
      assert queue[0] in failed;
      ReadOne(targets, read, queue[0]);
      names := names + set name | name in targets[queue[0]].usedIn;
      read, queue := read + [queue[0]], queue[1..];
    }
    assert read == failed;
  }

  lemma NothingRead(targets: seq<Target>)
    ensures forall name :: !SomeResourceFailed(targets, [], name)
  {
  }

  /** The records left when those of removed replicas go, except where a resource failed or deleting the record itself did. */
  ghost function KeptRecords(before: set<Replica>, targets: seq<Target>, failed: seq<nat>, doomed: set<string>,
                             undeleted: set<string>): set<Replica> {
    set r | r in before && (r.uid in doomed ==> SomeResourceFailed(targets, failed, r.uid) || r.uid in undeleted)
  }

  /** Deletes the records of the removed replicas that no failed destructor used, in any order; failed deletions are only
      logged. */
  method DeleteReplicaRecords(store: Store, targets: seq<Target>, failed: seq<nat>, replicaMap: map<string, Replica>)
    returns (ghost undeleted: set<string>)
    requires store.Valid()
    requires forall name :: name in replicaMap ==> replicaMap[name].uid == name
    requires forall i :: i in failed ==> i < |targets|
    modifies store`records
    ensures store.Valid()
    ensures undeleted <= replicaMap.Keys
    ensures store.records == KeptRecords(old(store.records), targets, failed, replicaMap.Keys, undeleted)
  {
    hide SomeResourceFailed;
    var failedReplicas := FailedReplicas(targets, failed);
    ghost var before := store.records;
    var todo := replicaMap.Keys;
    undeleted := {};
    while todo != {}
      invariant todo <= replicaMap.Keys && undeleted <= replicaMap.Keys - todo
      invariant store.Valid()
      invariant store.records == set r | r in before &&
        (r.uid in replicaMap && r.uid !in todo ==> r.uid in failedReplicas || r.uid in undeleted)
      decreases todo
    {
      var name :| name in todo;
      if name !in failedReplicas {
        var deleted := store.Delete(replicaMap[name].uid);
        if !deleted { undeleted := undeleted + {name}; }
      }
      todo := todo - {name};
    }
  }

  lemma ReadOne(targets: seq<Target>, read: seq<nat>, i: nat)
    requires i < |targets|
    ensures forall name :: SomeResourceFailed(targets, read + [i], name) <==>
      SomeResourceFailed(targets, read, name) || name in targets[i].usedIn
  {
    forall name | SomeResourceFailed(targets, read, name) || name in targets[i].usedIn
      ensures SomeResourceFailed(targets, read + [i], name)
    {
      if name in targets[i].usedIn { assert i in read + [i]; }
      if j :| j in read && j < |targets| && name in targets[j].usedIn { assert j in read + [i]; }
    }
  }

  /** Once the destructors have run, in whatever interleaving, the failures read from the channel are exactly the destructors
      that failed, and for each target: it is gone, it is protected, or its destructor failed. */
  lemma CleanupOutcome(targets: seq<Target>, allowExternal: bool, concurrency: int, steps: seq<Runner.Step>,
                       states: seq<Runner.State>, objects: seq<set<string>>)
    requires IsCleanup(targets, allowExternal, concurrency, steps, states, objects) && states[|steps|].returned
    ensures var failed := Runner.Reports(steps);
      && |failed| <= |targets| && Distinct(failed) && (forall i :: i in failed ==> i < |targets|)
      && (forall i: nat :: i < |targets| ==>
            targets[i].key !in objects[|steps|] || Protected(targets[i], allowExternal) || i in failed)
      && (states[|steps|].result <==> failed == [])
  {
    hide Protected;
    hide Runner.Enabled;
    hide Runner.Apply;
    hide ObjectsStep;
    Runner.ReportsAreFailures(|targets|, concurrency, steps, states, |steps|);
    assert steps[..|steps|] == steps;
    Runner.ReturnsAfterAll(|targets|, concurrency, steps, states, |steps|);
    SuccessMeansGone(targets, allowExternal, concurrency, steps, states, objects, |steps|);
    ReportsOfReturned(states[|steps|].workers, Runner.Reports(steps));
  }

  lemma ReportsOfReturned(ws: seq<Runner.Worker>, reports: seq<nat>)
    requires Runner.ReportsMatch(ws, reports) && forall i :: 0 <= i < |ws| ==> ws[i].Released?
    ensures |reports| <= |ws| && forall i :: i in reports ==> i < |ws|
    ensures forall i: nat :: i < |ws| ==> (Succeeded(ws[i]) <==> i !in reports)
    ensures (forall i :: 0 <= i < |ws| ==> ws[i] == Runner.Released(true)) <==> reports == []
  {
    Runner.CountMonotone(ws, Runner.Failed, Runner.Failed);
    assert forall i: nat :: i < |ws| ==> (Succeeded(ws[i]) <==> !Runner.Failed(ws[i]));
    if reports != [] {
      assert reports[0] in reports;
    } else {
      forall i: nat | i < |ws| ensures ws[i] == Runner.Released(true) {
        assert i !in reports;
      }
    }
  }

  // ---------- the cleanup of the two graphs ----------

  /** What the destructors work on, as far as a cleanup is concerned. */
  ghost function TargetsOf(destructors: seq<ScheduledResource>, existing: set<string>): (targets: seq<Target>)
    reads destructors
    ensures |targets| == |destructors|
  {
    seq(|destructors|, i requires 0 <= i < |destructors| reads destructors =>
      Target(destructors[i].key, destructors[i].usedInReplicas, destructors[i].key in existing))
  }

  /** A resource that a cleanup leaves behind still has the records of all replicas that the graph says use it, so a later
      cleanup finds it again. */
  lemma LeftBehindStaysRecorded(destructors: seq<ScheduledResource>, existing: set<string>, allowExternal: bool,
                                concurrency: int,
                                steps: seq<Runner.Step>, states: seq<Runner.State>, objects: seq<set<string>>,
                                before: set<Replica>, doomed: set<string>, undeleted: set<string>,
                                o: ScheduledResource, r: Replica)
    requires IsCleanup(TargetsOf(destructors, existing), allowExternal, concurrency, steps, states, objects)
    requires states[|steps|].returned
    requires o in destructors && o.key in objects[|steps|] && (o.key in existing ==> allowExternal)
    requires r in before && r.uid in o.usedInReplicas
    ensures r in KeptRecords(before, TargetsOf(destructors, existing), Runner.Reports(steps), doomed, undeleted)
  {
    hide IsCleanup;
    var targets := TargetsOf(destructors, existing);
    var i :| 0 <= i < |destructors| && destructors[i] == o;
    assert targets[i] == Target(o.key, o.usedInReplicas, o.key in existing);
    CleanupOutcome(targets, allowExternal, concurrency, steps, states, objects);
    assert i in Runner.Reports(steps);
  }

  /** The same in terms of walks. An object left behind keeps the record of each removed replica whose destruction path names
      it, and, if no surviving replica leads to it, of each replica that leads to it at all. */
  lemma LeftBehindByWalks(construct: Walk, destruct: Walk, resolve: Resolver, all: set<string>, doomed: set<string>,
                          construction: map<string, ScheduledResource>, destruction: map<string, ScheduledResource>,
                          first: seq<ScheduledResource>, second: seq<ScheduledResource>, existing: set<string>,
                          allowExternal: bool,
                          concurrency: int, steps: seq<Runner.Step>, states: seq<Runner.State>,
                          objects: seq<set<string>>,
                          before: set<Replica>, undeleted: set<string>, key: string, r: Replica)
    requires Exact(construct, resolve, all, construction) && Exact(destruct, resolve, doomed, destruction)
    requires DestructorsOf(construction, doomed, first) && DestructorsOf(destruction, doomed, second)
    requires IsCleanup(TargetsOf(first + second, existing), allowExternal, concurrency, steps, states, objects)
    requires states[|steps|].returned
    requires key in objects[|steps|] && (key in existing ==> allowExternal) && r in before
    requires
      || (r.uid in doomed && Produced(destruct, resolve, r.uid, key))
      || (r.uid in all && Produced(construct, resolve, r.uid, key) &&
          forall n :: n in all && Produced(construct, resolve, n, key) ==> n in doomed)
    ensures r in KeptRecords(before, TargetsOf(first + second, existing), Runner.Reports(steps), doomed, undeleted)
  {
    hide IsCleanup;
    hide KeptRecords;
    var o := UserOf(construct, destruct, resolve, all, doomed, construction, destruction, first, second, key, r.uid);
    LeftBehindStaysRecorded(first + second, existing, allowExternal, concurrency, steps, states, objects, before, doomed,
                            undeleted, o, r);
  }

  lemma UserOf(construct: Walk, destruct: Walk, resolve: Resolver, all: set<string>, doomed: set<string>,
               construction: map<string, ScheduledResource>, destruction: map<string, ScheduledResource>,
               first: seq<ScheduledResource>, second: seq<ScheduledResource>, key: string, name: string)
    returns (o: ScheduledResource)
    requires Exact(construct, resolve, all, construction) && Exact(destruct, resolve, doomed, destruction)
    requires DestructorsOf(construction, doomed, first) && DestructorsOf(destruction, doomed, second)
    requires
      || (name in doomed && Produced(destruct, resolve, name, key))
      || (name in all && Produced(construct, resolve, name, key) &&
          forall n :: n in all && Produced(construct, resolve, n, key) ==> n in doomed)
    ensures o in first + second && o.key == key && name in o.usedInReplicas
  {
    hide Produced;
    hide Linked;
    if name in doomed && Produced(destruct, resolve, name, key) {
      DestructionPathIsDeleted(destruct, resolve, doomed, destruction, second);
      o := destruction[key];
      assert ExactAt(destruct, resolve, doomed, o);
    } else {
      SharedResourcesSurvive(construct, resolve, all, construction, doomed, first, key);
      o := construction[key];
      assert ExactAt(construct, resolve, all, o);
    }
  }
}
