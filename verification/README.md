# Verified model of the scheduler

This project models the scheduler of the application controller and proves properties of the model with Dafny 4.11.
`dafny verify dfyconfig.toml` checks everything.

The scheduler takes dependencies between resource templates, checks them for cycles, expands them into one dependency
graph over all replicas of a flow, deploys that graph concurrently against a cluster, and afterwards either acknowledges
the new replicas or cleans up the removed ones. The results are joined by one chain of reasoning:

1. **Cycle analysis** (`Grouping`, `CycleDetection`). The two-phase traversal walks the same graph in both phases, in
   finishing order from the front, so its groups are not strongly connected components in general
   (`Limits.GroupNeedNotBeStronglyConnected`). The check is exact all the same.
2. **Expansion** (`GraphWalk`, `GraphBuilder`, `GraphBuilding`, `Naming`, `FlowBuilding`). The worklist makes one block
   per *path*. It ends because the check passed: its measure is the number of paths that pending blocks still open up. The
   finished graph holds exactly the links and replica uses of the walks, although earlier replicas' blocks are merged again
   and again, and `Requires`/`RequiredBy` are exact inverses. `Naming` says how contexts give resources their keys;
   `FlowBuilding` is the whole build, from the options to graph and destructors, with every refusal in its order.
3. **Deployment** (`Deployment*`, `ResourceRequests`). Workers, the dispatcher, pollers, the semaphore, both channels and
   the locks held while requirements are read form a transition system whose steps interleave arbitrarily; the cluster
   answers arbitrarily. From the exact inverse and acyclicity follows freedom from deadlock. A resource that timed out in
   its last attempt, and is neither ignored nor can become so, has failed for good. A run can be completed from wherever it
   is if nothing still to be started requires such a resource, unless a request that got past it is about to succeed; and
   only then, apart from requests that got past it and still wait for something else.
4. **Replicas** (`ReplicaAllocation`, `ConcurrentRunner`, `ReplicaCleanup`). Target arithmetic, reuse, creation and removal
   against a store; the concurrent runner in every interleaving; and the rule that a record goes only when everything that
   used it went.
5. **Two transformations** (`Copier`, `Config`). Path-directed copying with substitution, and saving and reading options.

`EndToEnd` puts 1 to 3 together. `Limits`, `SharedKeys` and `DeploymentLimits` hold concrete inputs on which a property fails
that one might expect; each shows that the condition of a theorem is needed.

## Where the code does less than one may expect

- The cycle check does not see the dependencies that are made up for the default flow when none starts at it. If such a
  list can be entered from inside and leads back to itself, building a graph never ends although the check passed
  (`Limits.CheckedWalkNeedNotEnd`). `GraphWalk.CheckedWalkEndsUnlessDefaultFlowLoops` shows that this is the only way it
  can fail; `GraphWalk.CheckedWalksTerminate` gives a condition that is easy to check beforehand.
- A merged graph can be cyclic over acyclic templates when one key comes from different templates, even for a single
  replica: contexts can give the pods of two templates each other's names (`SharedKeys.SharedKeysCanMakeCycles`). Sharing
  alone does no harm. A graph has a cycle if and only if steps of walks can be strung together into a circle that changes
  template at one of its keys (`GraphBuilding.CyclicIffCircle`), so every cycle passes a shared key
  (`GraphBuilding.CyclesShareKeys`), and a walk that comes to one key twice closes one
  (`GraphBuilding.RepeatedKeyMakesCycle`). Without such a circle, and only then, what was built can be deployed
  (`EndToEnd.CompiledPlanIsSound`). One template for each key suffices (`GraphBuilding.CompiledGraphAcyclic`).
- Pollers start inside the first attempt. A resource all of whose requirements have retry counts below one is never
  requested, and the deployment cannot end (`DeploymentProgress.StrandedNeverFinishes`,
  `DeploymentLimits.UntriedRequirementsStrand`). The condition is exact (`DeploymentCompletion.FinishesIffStartable`).
- A resource whose last attempt timed out, and which is neither ignored nor can become so, keeps everything that requires it
  from starting, except where a request had got past it before, and then the deployment never ends
  (`DeploymentDeadEnds.HeldUpNeverFinishes`, `DeploymentLimits.TimeoutIsFinal`). Such failures do no harm where nothing
  unstarted requires them (`DeploymentDeadEnds.CanFinishIff`). A failing creation or an error status in the last attempt is
  not final: the status is asked for again.
- Allocation slices below zero, and so stops the program, just when the minimum is negative and the wanted count is too
  (`ReplicaAllocation.InBoundsIffTargetNotNegative`, `Limits.TargetCanBeNegative`). Relative growth hands out exactly the
  undeployed replicas if and only if, before the call, no undeployed record is older than a deployed one
  (`ReplicaAllocation.GrowthHandsOutUndeployed`); on the store of `Limits.GrowthCanHandOutDeployed` it hands out what is
  deployed already.
- Errors of deleting unused records are dropped. Repeating an allocation then changes nothing if and only if no record that
  was left over is older than an undeployed one that was chosen (`ReplicaAllocation.RepeatIsIdempotent`); a record created
  too early, with the timestamp of one that is waiting, can be such a leftover (`Limits.RepeatCanChooseLeftover`).
- Reading saved options puts the flag for undeclared arguments into the field for deleting external resources, which is
  overwritten afterwards (pkg/scheduler/frontend.go:81 and 86), so that flag is lost. `Config.OptionsRoundTrip` says
  exactly when options survive.
- A comment at pkg/scheduler/dependency_analyzer.go:29-32 and the variable names there speak of strongly connected
  components; the model follows the code.

## Assumptions

- Resource definitions are stored under the key of their kind and name, so flows sit under `flow/` keys and nothing else
  does (`Dependencies.WellKeyed`).
- `Resource.Key()` is a fixed value for a chain of dependencies in a replica, a parameter of the expansion
  (`GraphBuilder.Resolver`). It keeps the kind of its template and fails for an undefined flow. The keys that contexts give
  are such a parameter (`Naming.KeysFit`).
- Map iteration takes keys in any order. `log.Fatal` is a result that ends the operation.
- Timestamps are integers, the store's clock never goes back and moves on across a sleep, and new ids are unused ones.
  Creating, deleting and updating a record may each fail; then it leaves the records as they are.
- Deployments: the links are exact inverses and acyclic, as for every graph whose circles of steps never change template.
  The order of creations (`DeploymentOrder`) is stated for clusters that report ready only what was created, and without
  on-error edges. That a deployment is never stuck asks that everything with requirements has one with a retry count of at
  least one (`DeploymentProgress.Startable`); that it can be completed or held up for good (`DeploymentCompletion`,
  `DeploymentDeadEnds`), that there are no on-error edges as well.
- Label selectors are printed and parsed by their own library, a parameter of `Config`.

## Model

| member | source | states |
|---|---|---|
| Dependencies.PathOverlap | pkg/scheduler/dependency_graph.go:216-253 | A dependency is on both paths of a flow just when it matches both selectors and the destruction selector does not extend the construction selector. |
| Grouping.SearchStrings | pkg/scheduler/dependency_analyzer.go:111 | The index found splits a sorted list at the value. |
| Grouping.InsertUnique | pkg/scheduler/dependency_analyzer.go:110-119 | The list stays sorted and gains exactly the value, which is not repeated. |
| Grouping.GroupedEdges | pkg/scheduler/dependency_analyzer.go:82-108 | The grouped graph is closed, its lists are sorted, and its edges are exactly the selected dependencies. |
| Grouping.GroupDependentResources | pkg/scheduler/dependency_analyzer.go:82-108 | The loop computes that graph. |
| CycleDetection.Traversal.VisitVertex | pkg/scheduler/dependency_analyzer.go:121-129 | Visiting keeps the finishing order: whatever an edge leads to finished earlier or leads back. No vertex stays open that was not before. |
| CycleDetection.Traversal.AssignVertex | pkg/scheduler/dependency_analyzer.go:131-148 | A root gains a repetition-free list of new vertices, all reached from it, whose edges end in assigned vertices. |
| CycleDetection.OrderVertices | pkg/scheduler/dependency_analyzer.go:54-56 | Phase one lists every vertex once in finishing order, for any order of iteration. |
| CycleDetection.AssignComponents | pkg/scheduler/dependency_analyzer.go:58-61 | Each group is what its root reaches minus what earlier roots reach, and only uncovered vertices become roots. |
| CycleDetection.GroupsPartition | pkg/scheduler/dependency_analyzer.go:58-61 | The groups partition the vertices. |
| CycleDetection.MutuallyReachableTogether | pkg/scheduler/dependency_analyzer.go:58-61 | Every strongly connected component lies whole inside one group. |
| CycleDetection.RootOnCycle | pkg/scheduler/dependency_analyzer.go:63-69 | A group of several vertices has its root on a directed cycle inside the group. |
| CycleDetection.CycleIsReported | pkg/scheduler/dependency_analyzer.go:63-79 | Every directed cycle, self-loops included, lies inside something reported. |
| CycleDetection.DetectCycles | pkg/scheduler/dependency_analyzer.go:33-80 | The list is empty exactly for an acyclic grouped graph; each entry starts on a genuine cycle inside it; no cycle is missed. |
| CycleDetection.EnsureNoCycles | pkg/scheduler/dependency_analyzer.go:151-181 | The check passes exactly when the grouped graphs of both paths of every flow are acyclic. |
| Limits.GroupNeedNotBeStronglyConnected | pkg/scheduler/dependency_analyzer.go:58-61 | A concrete outcome of both phases whose group is not strongly connected. |
| GraphWalk.GroupDependencies | pkg/scheduler/dependency_graph.go:140-176 | Lists by parent; without one for the default flow, a list that adopts each parentless non-flow name once, in any order. |
| GraphWalk.TerminatesIffChainsBounded | pkg/scheduler/dependency_graph.go:680-725 | The walk ends exactly when the chains of dependencies it follows cannot grow for ever, which is acyclicity of the templates it gets to. |
| GraphWalk.FollowedWasChecked | pkg/scheduler/dependency_graph.go:680-694 | Every edge the walk follows was seen by the cycle check or is made up for the default flow. |
| GraphWalk.CheckedWalksTerminate | pkg/scheduler/dependency_graph.go:600-604 | After a passed check every walk ends, for every flow and path, if some dependency starts at the default flow or none leads to it. |
| GraphWalk.CheckedWalkEndsUnlessDefaultFlowLoops | pkg/scheduler/dependency_graph.go:600-604 | After a passed check a walk ends if and only if the default flow's made-up list does not loop. |
| Limits.CheckedWalkNeedNotEnd | pkg/scheduler/dependency_graph.go:157-174 | Concrete dependencies that pass the check and make blocks for ever. |
| GraphBuilder.WalkReplica | pkg/scheduler/dependency_graph.go:677-725 | The worklist ends; it holds one block for every chain, with the keys of its parent and of all its extensions, or some chain cannot be resolved. |
| GraphBuilder.MergeEntry | pkg/scheduler/dependency_graph.go:726-745 | Merging a block, even again, loses nothing and adds only what some walk links. |
| GraphBuilder.ResourceIsExact | pkg/scheduler/dependency_graph.go:718-746 | A merged resource lists exactly the keys that walks link it to and from, and exactly the replicas whose walk produced it. |
| GraphBuilder.GraphIsExact | pkg/scheduler/dependency_graph.go:718-746 | The merged graph holds exactly the produced keys, each with exact lists. |
| GraphBuilder.FillDependencyGraph | pkg/scheduler/dependency_graph.go:664-748 | Succeeds exactly when all chains of all replicas resolve, and then the graph is exact for any number of replicas. |
| GraphBuilding.Unique | pkg/scheduler/dependency_graph.go:384-394 | First occurrences in order: same elements, no repetition. |
| GraphBuilding.RemoveRepetitions | pkg/scheduler/dependency_graph.go:628-632 | Keeps the graph exact and rids all three lists of repetitions. |
| GraphBuilding.CompileGraph | pkg/scheduler/dependency_graph.go:619-632 | Succeeds if and only if every chain of every replica resolves, and then the graph is exact and repetition-free for the walk of the chosen path. |
| GraphBuilding.CompiledLinksAreMutual | pkg/scheduler/dependency_graph.go:718-722 | `Requires` and `RequiredBy` are exact inverses, closed in the graph, and duplicate-free. |
| GraphBuilding.CyclicIffCircle | pkg/scheduler/dependency_graph.go:718-746 | The merged graph of any number of replicas has a cycle if and only if steps of walks form a circle that changes template at one of its keys. |
| GraphBuilding.CyclesShareKeys | pkg/scheduler/dependency_graph.go:718-746 | Every cycle of the merged graph passes through a key that two different live templates have. |
| GraphBuilding.RepeatedKeyMakesCycle | pkg/scheduler/dependency_graph.go:718-746 | A single walk that comes to the same key twice makes the graph cyclic. |
| GraphBuilding.CompiledGraphAcyclic | pkg/scheduler/dependency_graph.go:718-746 | If each key comes from one template, the merged multi-replica graph is acyclic. |
| SharedKeys.SharedKeysCanMakeCycles | pkg/scheduler/dependency_graph.go:329-345 | Concrete dependencies and arguments that pass the check, whose walk ends and resolves, and whose graph for one replica is cyclic. |
| Naming.KeysFit | pkg/scheduler/dependency_graph.go:254-345 | The keys that contexts give keep the kind of their template, and a flow without a definition has none. |
| FlowBuilding.CheckArgs | pkg/scheduler/dependency_graph.go:366-382 | Arguments are accepted exactly when they are declared, or need not be, and none without a default is missing. |
| FlowBuilding.RunChecks | pkg/scheduler/dependency_graph.go:557-602 | Flow, export, arguments and cycles are checked in this order, and the first that fails decides the refusal. |
| FlowBuilding.BuildDependencyGraph | pkg/scheduler/dependency_graph.go:556-662 | Which refusal is given when, resources that cannot be created included, in both directions; what happens to the records; otherwise the exact graph of the chosen path and, for removals, destructors for exactly what removed replicas alone use. |
| ResourceRequests.LiveResource.Status | pkg/scheduler/scheduler.go:142-153 | The cached status or error comes first; only a clean ready is cached. |
| ResourceRequests.LiveResource.ResetStatus | pkg/scheduler/scheduler.go:181-186 | Error and cached status are cleared. |
| ResourceRequests.LiveResource.IsBlocked | pkg/scheduler/scheduler.go:157-178 | True if and only if some requirement blocks; requirements are read in order up to the first that does. |
| ResourceRequests.LiveResource.RequestCreation | pkg/scheduler/scheduler.go:67-85 | Returns true exactly when started before or not blocked, and queues the resource exactly when it starts it. |
| ResourceRequests.RequestInOneGo | pkg/scheduler/scheduler.go:67-85 | An undisturbed request is a path of the deployment's steps with the same outcome. |
| DeploymentSafety.InvInRun | pkg/scheduler/scheduler.go:188-359 | Shape, channels, semaphore and start order hold in every state of every run. |
| DeploymentSafety.RunsAreSafe | pkg/scheduler/scheduler.go:188-359 | No second start; no start before that of a direct requirement; never more workers than permits; each resource queued and reported at most once. |
| DeploymentSafety.SendsNeverBlock | pkg/scheduler/scheduler.go:323-342 | Whenever something is sent, the channel has room and the finalizer has not run, so it is not closed. |
| DeploymentSafety.AllReceived | pkg/scheduler/scheduler.go:345-357 | The finalizer runs only after every resource of the graph has finished. |
| DeploymentOrder.CreatedAfterRequirements | pkg/scheduler/scheduler.go:157-178 | With an honest cluster and no on-error edges each creation comes after that of every direct requirement not ignored. |
| DeploymentOrder.CreationsFollowTheGraph | pkg/scheduler/scheduler.go:188-297 | Under the same conditions, if nothing is ignored, each creation comes after that of all transitive requirements. |
| DeploymentIgnore.Flags.IgnoreAll | pkg/scheduler/scheduler.go:299-310 | Ends on an acyclic graph and marks exactly the resource and all its descendants. |
| DeploymentIgnore.MarkingIsExact | pkg/scheduler/scheduler.go:283-310 | In every interleaving, everything below a resource that failed with ignore-all is marked once its worker is through, and nothing else is marked but by policy ignore. |
| DeploymentIgnore.NeverCreatedOnceIgnored | pkg/scheduler/scheduler.go:251-258 | A marked resource whose creation is not under way is never created in the rest of the run. |
| DeploymentRetries.RetryCountIsRespected | pkg/scheduler/scheduler.go:205-266 | No resource is created more often than its retry count, and it is deleted only before a later attempt and only if it may be. |
| DeploymentWork.WorkShrinks | pkg/scheduler/scheduler.go:188-297 | No step adds work and every working step takes some away. |
| DeploymentWork.WorkIsBounded | pkg/scheduler/scheduler.go:188-359 | Every run takes a bounded number of working steps. |
| DeploymentProgress.LockMoves | pkg/scheduler/scheduler.go:67-85 | Locks held while requirements are read, and waited for at each of the two looks at a requirement, cannot deadlock on an acyclic graph. |
| DeploymentProgress.RunsNeverStuck | pkg/scheduler/scheduler.go:318-359 | In every state before the end some useful step is possible that counts on no bad answer, if everything with requirements has one that is attempted. |
| DeploymentProgress.RequestSucceeds | pkg/scheduler/scheduler.go:67-85 | A request that meets only finished requirements from here on, none timed out for good, goes on until the resource starts, whatever happens in between. |
| DeploymentProgress.StrandedNeverFinishes | pkg/scheduler/scheduler.go:205-241 | A resource none of whose requirements is attempted never starts, and the deployment never ends. |
| DeploymentCompletion.UsefulLeadsOn | pkg/scheduler/scheduler.go:188-359 | Every strictly useful and fair step takes work away, or adds none and brings a request further. |
| DeploymentCompletion.EveryRunCanFinish | pkg/scheduler/scheduler.go:318-359 | A run can be continued to its end from wherever it is if whatever is still to be started requires nothing that timed out for good, or is about to be started by a request that got past it. |
| DeploymentCompletion.GuidedRunsEnd | pkg/scheduler/scheduler.go:318-359 | From such a state no order of strictly useful, fair and purposeful steps goes on for ever: their number is bounded, and where no more is possible the deployment has ended. |
| DeploymentDeadEnds.HeldUpNeverFinishes | pkg/scheduler/scheduler.go:157-178 | A resource that requires one that timed out for good, and whose request, if any, has not got past it, never starts, and no continuation of the run ends. |
| DeploymentDeadEnds.CanFinishIff | pkg/scheduler/scheduler.go:318-359 | Where each request over a requirement that timed out for good is either held up or meets only finished requirements from here on: some continuation ends if and only if whatever is still to be started requires nothing that timed out for good, or is about to be started all the same. |
| DeploymentDeadEnds.UnrequestedCanFinishIff | pkg/scheduler/scheduler.go:318-359 | Where nobody is just being requested over a requirement that timed out for good: some continuation ends if and only if nothing still to be started has such a requirement. |
| DeploymentLimits.UntriedRequirementsStrand | pkg/scheduler/scheduler.go:205-241 | Two resources, nothing tried: no run ends. |
| DeploymentLimits.TimeoutIsFinal | pkg/scheduler/scheduler.go:268-297 | Two resources, one attempt each: a run in which the first times out, after which no continuation ends. |
| DeploymentCompletion.FinishesIffStartable | pkg/scheduler/scheduler.go:318-359 | Some run ends if and only if everything with requirements has one with a retry count of at least one. |
| EndToEnd.CompiledPlanIsSound | pkg/scheduler/dependency_graph.go:600-632 | What is compiled from checked dependencies meets every assumption of the deployment about its graph if and only if no circle of steps changes template at one of its keys. |
| EndToEnd.OneTemplatePlanIsSound | pkg/scheduler/dependency_graph.go:600-632 | In particular if every key comes from one template. |
| EndToEnd.CheckedDependenciesDeploy | pkg/scheduler/scheduler.go:318-359 | From the cycle check to a finished deployment, if no circle of steps changes template: never stuck, bounded work, everything finished before the finalizer; and without on-error edges it can be completed while nothing is held up. |
| EndToEnd.BuildForDeployment | pkg/scheduler/dependency_graph.go:556-662 | Building from a record store ends for all dependencies whose default flow is entered or not led to, and what it builds can be deployed if and only if no circle of steps changes template. |
| ReplicaAllocation.SortByAgeSorts | pkg/scheduler/dependency_graph.go:396-416 | Sorting by timestamp and UID is strict and keeps the elements. |
| ReplicaAllocation.ListingUnique | pkg/scheduler/dependency_graph.go:396-416 | A set of records has only one listing by age. |
| ReplicaAllocation.CreateReplicas | pkg/scheduler/dependency_graph.go:496-553 | Ends; keeps the deployed records; reuses undeployed ones oldest first before creating; created ones are later than all there was; whatever else remains are records whose deletion failed. |
| ReplicaAllocation.CreateLater | pkg/scheduler/dependency_graph.go:522-543 | A record created too early is never handed out: it is taken back, or is among the leftovers if that failed; and the clock has moved on. |
| ReplicaAllocation.AllocateReplicas | pkg/scheduler/dependency_graph.go:449-493 | One allocation step from the old records to the chosen ones and the result, beyond which only failed deletions remain; or a failed creation that loses nothing deployed. |
| ReplicaAllocation.SelectReplicas | pkg/scheduler/dependency_graph.go:609-614 | A fixed negative count stands for all replicas, by age, and changes nothing. |
| ReplicaAllocation.InBoundsIffTargetNotNegative | pkg/scheduler/dependency_graph.go:469-492 | All slices are in bounds exactly when the target is not negative, for which a non-negative minimum suffices. |
| ReplicaAllocation.AllocationSizes | pkg/scheduler/dependency_graph.go:469-492 | The sizes of the store and of both lists, in terms of deployed count and clamped target. |
| ReplicaAllocation.RemovedAreNewest | pkg/scheduler/dependency_graph.go:486-488 | What is removed is deployed and newer than everything that stays. |
| ReplicaAllocation.DeployedFirstIsKept | pkg/scheduler/dependency_graph.go:496-553 | Adjusting a store never puts an undeployed replica before a deployed one. |
| ReplicaAllocation.DeployedFirstBefore | pkg/scheduler/dependency_graph.go:496-553 | If growing leaves no undeployed replica before a deployed one, there was none before it. |
| ReplicaAllocation.GrowthHandsOutUndeployed | pkg/scheduler/dependency_graph.go:489-491 | Relative growth hands out exactly the undeployed replicas if and only if, in the store before it, no undeployed record is older than a deployed one. |
| Limits.GrowthCanHandOutDeployed | pkg/scheduler/dependency_graph.go:489-491 | A concrete store for which growing by one hands out the replica that is deployed already. |
| ReplicaAllocation.RepeatIsIdempotent | pkg/scheduler/dependency_graph.go:449-493 | Repeating an allocation before it is acknowledged gives the same list and changes nothing, if and only if no leftover of a failed deletion is older than a chosen undeployed record. |
| ReplicaAllocation.ScaleUpThenDown | pkg/scheduler/dependency_graph.go:449-493 | Growing by n a store without undeployed records before deployed ones, acknowledging and shrinking by n removes exactly those n and drops what failed deletions had left over. |
| Limits.TargetCanBeNegative | pkg/scheduler/dependency_graph.go:469-488 | Options for which an empty store is sliced out of bounds. |
| Limits.RepeatCanChooseLeftover | pkg/scheduler/dependency_graph.go:533-553 | Three records and a growth by two whose repetition hands out a leftover. |
| ReplicaAllocation.Acknowledge | pkg/scheduler/dependency_graph.go:841-866 | The replicas whose update succeeded are marked as deployed, nothing else changes, and success means all of them are. |
| ConcurrentRunner.LimitIsRespected | pkg/scheduler/scheduler.go:421-438 | Never more functions at a time than the limit, and none called twice, in every interleaving. |
| ConcurrentRunner.ReturnsAfterAll | pkg/scheduler/scheduler.go:428-444 | The caller returns only after every function was called exactly once and its worker finished; the result is whether all returned true. |
| ConcurrentRunner.NeverStuck | pkg/scheduler/scheduler.go:421-445 | Before the return some step is always possible. |
| ConcurrentRunner.RunsAreBounded | pkg/scheduler/scheduler.go:421-445 | No interleaving goes on for ever. |
| ConcurrentRunner.ReportsAreFailures | pkg/scheduler/dependency_graph.go:771-780 | What is in the failure channel is one report of each failed worker. |
| ConcurrentRunner.ReportNeverBlocks | pkg/scheduler/dependency_graph.go:771-785 | Reporting a failure never blocks. |
| ReplicaCleanup.GetResourceDestructors | pkg/scheduler/dependency_graph.go:751-769 | One destructor for each resource of either graph that only removed replicas use. |
| ReplicaCleanup.SharedResourcesSurvive | pkg/scheduler/dependency_graph.go:751-769 | In the graph of all replicas a key has a destructor if and only if every replica whose walk leads to it is removed. |
| ReplicaCleanup.DeletedKeys | pkg/scheduler/dependency_graph.go:751-769 | A key is up for deletion exactly when the destruction path names it or no surviving replica leads to it. |
| ReplicaCleanup.DeleteResource | pkg/scheduler/scheduler.go:447-462 | Success means the object is gone or protected; only a failing answer is a failure, which may still have removed the object; no other object is touched. |
| ReplicaCleanup.DeleteReplicaRecords | pkg/scheduler/dependency_graph.go:783-824 | Exactly those records go that belong to removed replicas none of whose resources failed and whose own deletion did not fail. |
| ReplicaCleanup.CleanupOutcome | pkg/scheduler/dependency_graph.go:783-805 | After any interleaving each target is gone, protected, or its destructor is among the failures read. |
| ReplicaCleanup.LeftBehindStaysRecorded | pkg/scheduler/dependency_graph.go:783-824 | A resource with a destructor that is left behind keeps the records of all replicas in its own list of uses. |
| ReplicaCleanup.LeftBehindByWalks | pkg/scheduler/dependency_graph.go:751-824 | In terms of walks: an object left behind keeps the record of each removed replica whose destruction path names it and, if no surviving replica leads to it, of each replica that does. |
| Copier.EvaluateIdentity | pkg/copier/copier.go:176-181 | Replacing each variable by itself is the identity on every string. |
| Copier.EvaluatePlain | pkg/copier/copier.go:176-181 | Text without a dollar sign is kept. |
| Copier.EvaluateVariable | pkg/copier/copier.go:176-181 | A lone variable becomes its value. |
| Copier.EvaluateConcat | pkg/copier/copier.go:176-181 | Evaluation goes piece by piece wherever a word does not continue. |
| Copier.AddToPath | pkg/copier/copier.go:161-174 | The dotted path, and whether it or everything is listed. |
| Copier.CopyRecursive | pkg/copier/copier.go:64-159 | The copy evaluates strings exactly at covered paths and keeps everything else, hidden fields excepted. |
| Copier.CopyWithReplacements | pkg/copier/copier.go:38-60 | The same from the root, where an empty listed path covers everything; without colliding keys the result is the one value computed by `CopyOf`. |
| Copier.Copy | pkg/copier/copier.go:32-36 | The plain copy equals its source if and only if unexported fields hold zero values. |
| Copier.ExactCopy | pkg/copier/copier.go:64-159 | Where copies of map keys do not collide, the copy relation allows exactly one value, map entries included. |
| Copier.StringsAt | pkg/copier/copier.go:148-155 | A string anywhere inside, map keys and values included, is evaluated if and only if everything, its path, or a component-wise prefix of it is listed. |
| Copier.KeptAsIs | pkg/copier/copier.go:64-159 | With nothing listed, or with variables standing for themselves, the copy equals its source; no map entry is lost. |
| Copier.CopiesHideNothing | pkg/copier/copier.go:98-104 | A copy holds zero values in all unexported fields. |
| Config.IntRoundTrip | pkg/scheduler/frontend.go:109-117 | A printed integer is read back, and one outside the machine range is refused. |
| Config.Serialize | pkg/scheduler/frontend.go:49-68 | Ten named entries, one for each argument, and nothing else. |
| Config.FromConfig | pkg/scheduler/frontend.go:71-107 | Succeeds exactly when every entry can be read, and what it then returns. |
| Config.OptionsRoundTrip | pkg/scheduler/frontend.go:49-107 | Saved settings are always readable, and equal the original if and only if the flow name is set and the three things not kept are unset. |
| Config.SaveAndRead | pkg/scheduler/frontend.go:49-107 | Saving and reading restores everything else, the argument map included. |

## Left out

- Stopped deployments: `Deploy` closes the creation channel while pollers may still be live, so the runs modelled are those without stop.
- Dependency metadata: it is stored under template keys and read under resolved keys, so the model has an abstract set of on-error edges instead.
- Controller tasks (pkg/scheduler/controller.go): aborted tasks can overlap their successors and share unsynchronised state.
- Cluster clients, informers, the command line, reports, graph rendering and the status functions of the resource kinds; the cluster is an arbitrary answer.
- `updateContext` and the graphs that flow resources build for themselves: a merged resource's arguments change after all keys have been evaluated, and matter only to those.
- The listing of replicas by label: a store holds the records of one replica space.
- A replica's name and UID are one value, and the name of a replica in a graph is that value.
- FlowBuilding.BuildDependencyGraph: asks for walks that end, because the code itself runs for ever otherwise; and failing list requests, which only pass their error on.
- GraphBuilding.CompileGraph: asks for walks that end, for the same reason.
- GraphBuilder.FillDependencyGraph: starts from an empty graph, as both callers do.
- DeploymentDeadEnds.CanFinishIff: leaves out states in which a request has got past a requirement that then timed out for good, while it still meets an unfinished requirement, one that may yet be ignored, or an error of one that is not ignored; whether it succeeds depends on the order in which workers mark below them, one of which may wait for its lock.
- Deployment steps: starting all pollers of a worker is one step, and a timer tick that finds its target started is one step; locks around single field writes are part of the step that writes.
- ReplicaAllocation.CreateReplicas: a failing `Create` ends an allocation without a claim about records created before it, other than that nothing is lost.
- ReplicaCleanup.DeleteReplicaRecords: runs after the interleaved destructors as a plain loop, since each deletion touches its own record.
- ReplicaAllocation.Acknowledge: runs as a plain loop, since each update touches its own record.
- Copier: pointer identity and aliasing, slice capacity, and values other than strings inside kinds that are copied as a whole.
- Config: the nil selector of a new scheduler, and the difference between a missing and an empty argument map.
