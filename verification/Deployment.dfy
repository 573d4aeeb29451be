/** The deployment of a dependency graph as a transition system: resource workers, the dispatcher, the pollers that request
    dependants, the semaphore and the two channels, in every interleaving. The cluster answers arbitrarily. */
module Deployment {
  import opened Dependencies
  import opened Graphs
  import opened GraphBuilding

  /** What a resource does when its last attempt fails. */
  datatype Policy = Fail | Ignore | IgnoreAll

  datatype Plan = Plan(
    keys: seq<string>,
    needs: Graph,
    neededBy: Graph,
    attempts: map<string, int>,
    policy: map<string, Policy>,
    deletable: set<string>,
    onErrorEdges: set<(string, string)>,
    concurrency: int)

  ghost predicate ValidPlan(p: Plan) {
    && MutualLinks(p.needs, p.neededBy)
    && Distinct(p.keys) && Elements(p.keys) == p.needs.Keys == p.attempts.Keys == p.policy.Keys
  }

  /** Capacity of the semaphore. */
  function Limit(p: Plan): nat {
    if 0 < p.concurrency < |p.keys| then p.concurrency else |p.keys|
  }

  /** Where the worker of a resource is. A number is the current attempt. */
  datatype Phase =
    | Idle
    | Queued
    | Waiting
    | Resetting(n: int)
    | Spawning
    | Deleting(n: int)
    | Checking(n: int)
    | Creating(n: int)
    | Polling(n: int)
    | Marking(todo: seq<string>)
    | Reporting
    | Releasing
    | Gone

  /** What a status request returns: whether the status is "ready", and whether there is an error. */
  datatype Answer = Answer(ready: bool, err: bool)

  /** A creation request in progress: it holds the resource's lock while it goes through the requirements. */
  datatype Check = Check(parent: string, next: nat, seen: Option<Answer>)

  datatype Res = Res(phase: Phase, started: bool, ignored: bool, failed: bool, ready: bool, lock: Option<Check>, spread: bool)

  datatype State = State(
    res: map<string, Res>,
    toCreate: seq<string>,
    created: seq<string>,
    received: seq<string>,
    permits: nat,
    pollers: set<(string, string)>,
    rootTodo: set<string>,
    finalized: bool,
    starts: seq<string>,
    creates: seq<string>)

  /** What a worker does within an attempt, touching only its own resource. */
  datatype Action =
    | ResetStatus
    | DeleteBeforeRetry
    | ReadIgnored
    | Create(ok: bool)
    | Poll(answer: Answer)
    | Timeout

  datatype Event =
    | RootVisit(k: string)
    | Dispatch
    | Acquire(k: string)
    | Attempt(k: string, action: Action)
    | SpawnPollers(k: string)
    | Mark(k: string)
    | Report(k: string)
    | Release(k: string)
    | BeginCheck(parent: string, k: string)
    | CheckStatus(k: string, answer: Answer)
    | CheckVerdict(k: string)
    | StartChecked(k: string)
    | PollerDone(parent: string, k: string)
    | Observe(k: string, answer: Answer)
    | Receive
    | Finalize

  const FRESH_RES := Res(Idle, false, false, false, false, None, false)

  function Init(p: Plan): State {
    State(map k | k in p.needs :: FRESH_RES, [], [], [], 0, {}, p.needs.Keys, false, [], [])
  }

  // ---------- pieces of the code ----------

  /** The status of a resource, from its cache when that is set. */
  function Seen(r: Res, answer: Answer): Answer {
    if r.ready || r.failed then Answer(r.ready, r.failed) else answer
  }

  /** Only a clean "ready" is cached. */
  function Cached(r: Res, answer: Answer): Res {
    if !r.ready && !r.failed && answer.ready && !answer.err then r.(ready := true) else r
  }

  /** Whether one requirement blocks creation. */
  predicate Blocks(onError: bool, seen: Answer, ignored: bool) {
    if seen.err && !onError && !ignored then true
    else if seen.ready && onError then true
    else !seen.err && !seen.ready
  }

  function NextAttempt(p: Plan, k: string, n: int): Phase
    requires k in p.attempts
  {
    if n + 1 <= p.attempts[k] then Resetting(n + 1) else Reporting
  }

  /** After a failed wait: the policy applies on the last attempt only. */
  function AfterFailure(p: Plan, k: string, r: Res, n: int): Res
    requires k in p.attempts && k in p.policy
  {
    if n < p.attempts[k] then r.(phase := Resetting(n + 1))
    else match p.policy[k]
      case Fail => r.(phase := Reporting)
      case Ignore => r.(phase := Reporting, ignored := true)
      case IgnoreAll => r.(phase := Marking([k]), spread := true)
  }

  function Set(s: State, k: string, r: Res): State {
    s.(res := s.res[k := r])
  }

  predicate Unlocked(s: State, k: string) {
    k in s.res && s.res[k].lock.None?
  }

  // ---------- the worker's own steps ----------

  predicate CanAct(r: Res, a: Action) {
    match a
    case ResetStatus => r.phase.Resetting?
    case DeleteBeforeRetry => r.phase.Deleting?
    case ReadIgnored => r.phase.Checking?
    case Create(_) => r.phase.Creating?
    case Poll(_) => r.phase.Polling?
    case Timeout => r.phase.Polling?
  }

  function Act(p: Plan, k: string, r: Res, a: Action): Res
    requires k in p.attempts && k in p.policy && CanAct(r, a)
  {
    match a
    case ResetStatus =>
      r.(failed := false, ready := false,
         phase := if r.phase.n == 1 then Spawning else if k in p.deletable then Deleting(r.phase.n) else Checking(r.phase.n))
    case DeleteBeforeRetry =>
      r.(phase := Checking(r.phase.n))
    case ReadIgnored =>
      r.(phase := if r.ignored then Reporting else Creating(r.phase.n))
    case Create(ok) =>
      r.(phase := if ok then Polling(r.phase.n) else NextAttempt(p, k, r.phase.n))
    case Poll(answer) =>
      if Seen(r, answer).err then AfterFailure(p, k, Cached(r, answer), r.phase.n)
      else if Seen(r, answer).ready then Cached(r, answer).(phase := Reporting)
      else r
    case Timeout =>
      AfterFailure(p, k, r.(failed := true), r.phase.n)
  }

  // ---------- the steps of the whole deployment ----------

  predicate Known(p: Plan, s: State, k: string) {
    k in s.res && k in p.needs && k in p.neededBy && k in p.attempts && k in p.policy
  }

  /** The requirement a check in progress looks at next. */
  predicate LooksAt(p: Plan, s: State, k: string) {
    Known(p, s, k) && s.res[k].lock.Some? && s.res[k].lock.value.next < |p.needs[k]| &&
    p.needs[k][s.res[k].lock.value.next] != k && p.needs[k][s.res[k].lock.value.next] in s.res
  }

  function Target(p: Plan, s: State, k: string): string
    requires LooksAt(p, s, k)
  {
    p.needs[k][s.res[k].lock.value.next]
  }

  predicate CanMark(p: Plan, s: State, k: string) {
    Known(p, s, k) && s.res[k].phase.Marking? && s.res[k].phase.todo != [] &&
    Known(p, s, s.res[k].phase.todo[0]) && Unlocked(s, s.res[k].phase.todo[0])
  }

  predicate Enabled(p: Plan, s: State, e: Event) {
    match e
    case RootVisit(k) => k in s.rootTodo && Known(p, s, k)
    case Dispatch => s.toCreate != [] && s.toCreate[0] in s.res
    case Acquire(k) => Known(p, s, k) && s.res[k].phase.Waiting? && s.permits < Limit(p)
    case Attempt(k, a) => Known(p, s, k) && CanAct(s.res[k], a)
    case SpawnPollers(k) => Known(p, s, k) && s.res[k].phase.Spawning?
    case Mark(k) => CanMark(p, s, k)
    case Report(k) => Known(p, s, k) && s.res[k].phase.Reporting?
    case Release(k) => Known(p, s, k) && s.res[k].phase.Releasing? && s.permits > 0
    case BeginCheck(parent, k) => (parent, k) in s.pollers && Known(p, s, k) && Unlocked(s, k) && !s.res[k].started
    case CheckStatus(k, _) => LooksAt(p, s, k) && s.res[k].lock.value.seen.None? && Unlocked(s, Target(p, s, k))
    case CheckVerdict(k) => LooksAt(p, s, k) && s.res[k].lock.value.seen.Some? && Unlocked(s, Target(p, s, k))
    case StartChecked(k) => Known(p, s, k) && s.res[k].lock.Some? && s.res[k].lock.value.next == |p.needs[k]|
    case PollerDone(parent, k) => (parent, k) in s.pollers && k in s.res && s.res[k].started
    case Observe(k, _) => Unlocked(s, k)
    case Receive => s.rootTodo == {} && s.created != [] && !s.finalized && |s.received| < |p.keys|
    case Finalize => s.rootTodo == {} && !s.finalized && |s.received| == |p.keys|
  }

  function StartOf(s: State, k: string, r: Res): State {
    Set(s, k, r.(started := true, lock := None, phase := Queued)).(toCreate := s.toCreate + [k], starts := s.starts + [k])
  }

  /** The root loop asks for every resource without requirements; nothing blocks those. */
  function DoRootVisit(p: Plan, s: State, k: string): State
    requires k in s.rootTodo && Known(p, s, k)
  {
    if p.needs[k] == [] && !s.res[k].started then StartOf(s.(rootTodo := s.rootTodo - {k}), k, s.res[k])
    else s.(rootTodo := s.rootTodo - {k})
  }

  function DoDispatch(s: State): State
    requires s.toCreate != [] && s.toCreate[0] in s.res
  {
    Set(s, s.toCreate[0], s.res[s.toCreate[0]].(phase := Waiting)).(toCreate := s.toCreate[1..])
  }

  function DoAcquire(p: Plan, s: State, k: string): State
    requires Known(p, s, k)
  {
    Set(s, k, s.res[k].(phase := if p.attempts[k] >= 1 then Resetting(1) else Reporting)).(permits := s.permits + 1)
  }

  function DoAttempt(p: Plan, s: State, k: string, a: Action): State
    requires Known(p, s, k) && CanAct(s.res[k], a)
  {
    Set(s, k, Act(p, k, s.res[k], a)).(creates := if a.Create? then s.creates + [k] else s.creates)
  }

  function DoSpawn(p: Plan, s: State, k: string): State
    requires Known(p, s, k)
  {
    Set(s, k, s.res[k].(phase := Checking(1))).(pollers := s.pollers + set c | c in p.neededBy[k] :: (k, c))
  }

  /** One step of marking everything below a failed resource, depth first. */
  function DoMark(p: Plan, s: State, k: string): State
    requires CanMark(p, s, k)
  {
    var h := s.res[k].phase.todo[0];
    var todo := p.neededBy[h] + s.res[k].phase.todo[1..];
    var s1 := Set(s, h, s.res[h].(ignored := true));
    Set(s1, k, s1.res[k].(phase := if todo == [] then Reporting else Marking(todo)))
  }

  function DoReport(s: State, k: string): State
    requires k in s.res
  {
    Set(s, k, s.res[k].(phase := Releasing)).(created := s.created + [k])
  }

  function DoRelease(s: State, k: string): State
    requires k in s.res && s.permits > 0
  {
    Set(s, k, s.res[k].(phase := Gone)).(permits := s.permits - 1)
  }

  function DoBeginCheck(s: State, parent: string, k: string): State
    requires k in s.res
  {
    Set(s, k, s.res[k].(lock := Some(Check(parent, 0, None))))
  }

  function DoCheckStatus(p: Plan, s: State, k: string, answer: Answer): State
    requires LooksAt(p, s, k)
  {
    var q := Target(p, s, k);
    Set(Set(s, q, Cached(s.res[q], answer)), k,
        s.res[k].(lock := Some(s.res[k].lock.value.(seen := Some(Seen(s.res[q], answer))))))
  }

  function DoCheckVerdict(p: Plan, s: State, k: string): State
    requires LooksAt(p, s, k) && s.res[k].lock.value.seen.Some?
  {
    var c, q := s.res[k].lock.value, Target(p, s, k);
    Set(s, k, s.res[k].(lock := if Blocks((k, q) in p.onErrorEdges, c.seen.value, s.res[q].ignored) then None
                                else Some(Check(c.parent, c.next + 1, None))))
  }

  function DoStartChecked(s: State, k: string): State
    requires k in s.res && s.res[k].lock.Some?
  {
    StartOf(s, k, s.res[k]).(pollers := s.pollers - {(s.res[k].lock.value.parent, k)})
  }

  function DoReceive(s: State): State
    requires s.created != []
  {
    s.(received := s.received + [s.created[0]], created := s.created[1..])
  }

  function Apply(p: Plan, s: State, e: Event): State
    requires Enabled(p, s, e)
  {
    match e
    case RootVisit(k) => DoRootVisit(p, s, k)
    case Dispatch => DoDispatch(s)
    case Acquire(k) => DoAcquire(p, s, k)
    case Attempt(k, a) => DoAttempt(p, s, k, a)
    case SpawnPollers(k) => DoSpawn(p, s, k)
    case Mark(k) => DoMark(p, s, k)
    case Report(k) => DoReport(s, k)
    case Release(k) => DoRelease(s, k)
    case BeginCheck(parent, k) => DoBeginCheck(s, parent, k)
    case CheckStatus(k, answer) => DoCheckStatus(p, s, k, answer)
    case CheckVerdict(k) => DoCheckVerdict(p, s, k)
    case StartChecked(k) => DoStartChecked(s, k)
    case PollerDone(parent, k) => s.(pollers := s.pollers - {(parent, k)})
    case Observe(k, answer) => Set(s, k, Cached(s.res[k], answer))
    case Receive => DoReceive(s)
    case Finalize => s.(finalized := true)
  }

  // ---------- runs ----------

  /** A run without stop: states and the events between them. */
  ghost predicate IsRun(p: Plan, states: seq<State>, events: seq<Event>) {
    && |states| == |events| + 1
    && states[0] == Init(p)
    && forall i :: 0 <= i < |events| ==> Enabled(p, states[i], events[i]) && states[i + 1] == Apply(p, states[i], events[i])
  }
}
