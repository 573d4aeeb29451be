/** A deployment does only a bounded amount of work. */
module DeploymentWork {
  import opened Graphs
  import opened Deployment
  import opened DeploymentSafety

  // ---------- a bound on the work of a run ----------

  lemma ReverseAcyclic(p: Plan)
    requires ValidPlan(p) && Acyclic(p.needs)
    ensures Acyclic(p.neededBy)
  {
    var rank := (k: string) => -(Rank(p.needs, k) as int);
    forall a, b | Edge(p.neededBy, a, b) ensures rank(b) < rank(a) {
      RankDrops(p.needs, b, a);
    }
    AcyclicByRank(p.neededBy, rank);
  }

  ghost predicate Workable(p: Plan) {
    Acyclic(p.neededBy) && Closed(p.neededBy)
  }

  ghost function PathCounts(p: Plan, todo: seq<string>): nat
    requires Workable(p)
  {
    if todo == [] then 0 else PathCounts(p, todo[..|todo| - 1]) + PathCount(p.neededBy, todo[|todo| - 1])
  }

  function Left(p: Plan, k: string, n: int): nat {
    if k in p.attempts && p.attempts[k] > n then p.attempts[k] - n else 0
  }

  /** How many steps a worker may still take from a phase on. */
  ghost function PhaseWork(p: Plan, k: string, phase: Phase): nat
    requires Workable(p)
  {
    var tail := 4 + PathCount(p.neededBy, k);
    match phase
    case Idle => tail + 6 * Left(p, k, 1) + 7
    case Queued => tail + 6 * Left(p, k, 1) + 6
    case Waiting => tail + 6 * Left(p, k, 1) + 5
    case Resetting(n) => tail + 6 * Left(p, k, n) + 4
    case Spawning => tail + 6 * Left(p, k, 1) + 3
    case Deleting(n) => tail + 6 * Left(p, k, n) + 3
    case Checking(n) => tail + 6 * Left(p, k, n) + 2
    case Creating(n) => tail + 6 * Left(p, k, n) + 1
    case Polling(n) => tail + 6 * Left(p, k, n)
    case Marking(todo) => 3 + PathCounts(p, todo)
    case Reporting => 3
    case Releasing => 1
    case Gone => 0
  }

  ghost function TotalWork(p: Plan, keys: seq<string>, res: map<string, Res>): nat
    requires Workable(p)
  {
    if keys == [] then 0
    else TotalWork(p, keys[..|keys| - 1], res) +
         (if keys[|keys| - 1] in res then PhaseWork(p, keys[|keys| - 1], res[keys[|keys| - 1]].phase) else 0)
  }

  /** An upper bound on the working steps a run can still take. */
  ghost function Work(p: Plan, s: State): nat
    requires Workable(p)
  {
    TotalWork(p, p.keys, s.res) + |s.rootTodo| + |s.created| + if s.finalized then 0 else 1
  }

  /** Steps that get a deployment on. The others are requests that read and release, pollers that end, and status reads
      that find nothing. */
  predicate Works(p: Plan, s: State, e: Event)
    requires Enabled(p, s, e)
  {
    match e
    case Attempt(k, Poll(answer)) => Seen(s.res[k], answer).err || Seen(s.res[k], answer).ready
    case BeginCheck(_, _) => false
    case CheckStatus(_, _) => false
    case CheckVerdict(_) => false
    case PollerDone(_, _) => false
    case Observe(_, _) => false
    case _ => true
  }

  lemma {:induction false} TotalOneChanged(p: Plan, keys: seq<string>, res: map<string, Res>, res': map<string, Res>,
                                           k: string)
    requires Workable(p) && Distinct(keys) && k in res && k in res' && res' == res[k := res'[k]]
    ensures TotalWork(p, keys, res') ==
      TotalWork(p, keys, res) + if k in keys then PhaseWork(p, k, res'[k].phase) - PhaseWork(p, k, res[k].phase) else 0
  {
    hide PhaseWork;
    if keys != [] {
      TotalOneChanged(p, keys[..|keys| - 1], res, res', k);
      assert keys == keys[..|keys| - 1] + [keys[|keys| - 1]];
    }
  }

  lemma OnePhaseChanged(p: Plan, s: State, s': State, k: string)
    requires Workable(p) && Distinct(p.keys) && k in p.keys && k in s.res && k in s'.res
    requires s'.res == s.res[k := s'.res[k]]
    requires PhaseWork(p, k, s'.res[k].phase) + |s'.rootTodo| + |s'.created| <=
      PhaseWork(p, k, s.res[k].phase) + |s.rootTodo| + |s.created|
    requires s'.finalized == s.finalized
    ensures Work(p, s') <= Work(p, s)
    ensures PhaseWork(p, k, s'.res[k].phase) + |s'.rootTodo| + |s'.created| <
      PhaseWork(p, k, s.res[k].phase) + |s.rootTodo| + |s.created|
      ==> Work(p, s') < Work(p, s)
  {
    hide PhaseWork;
    TotalOneChanged(p, p.keys, s.res, s'.res, k);
  }

  lemma FailureWorks(p: Plan, k: string, r: Res, n: int)
    requires Workable(p) && k in p.attempts && k in p.policy
    ensures PhaseWork(p, k, AfterFailure(p, k, r, n).phase) < PhaseWork(p, k, Polling(n))
  {
    assert PathCounts(p, [k]) == PathCount(p.neededBy, k) by {
      assert [k][..0] == [];
      assert PathCounts(p, []) == 0;
    }
    hide PathCounts;
    hide PathCount;
  }

  lemma ActWorks(p: Plan, k: string, r: Res, a: Action)
    requires Workable(p) && k in p.attempts && k in p.policy && CanAct(r, a)
    ensures PhaseWork(p, k, Act(p, k, r, a).phase) <= PhaseWork(p, k, r.phase)
    ensures !(a.Poll? && !Seen(r, a.answer).err && !Seen(r, a.answer).ready) ==>
      PhaseWork(p, k, Act(p, k, r, a).phase) < PhaseWork(p, k, r.phase)
  {
    hide Workable;
    hide PhaseWork;
    hide Act;
    if a.Poll? {
      PollWorks(p, k, r, a.answer);
    } else if a.Timeout? {
      TimeoutWorks(p, k, r);
    } else if a.Create? {
      CreateWorks(p, k, r, a.ok);
    } else {
      OtherActWorks(p, k, r, a);
    }
  }

  lemma PollWorks(p: Plan, k: string, r: Res, answer: Answer)
    requires Workable(p) && k in p.attempts && k in p.policy && CanAct(r, Poll(answer))
    ensures
      if !Seen(r, answer).err && !Seen(r, answer).ready then Act(p, k, r, Poll(answer)) == r
      else PhaseWork(p, k, Act(p, k, r, Poll(answer)).phase) < PhaseWork(p, k, r.phase)
  {
    hide PathCounts;
    hide PathCount;
    hide AfterFailure;
    hide Workable;
    FailureWorks(p, k, Cached(r, answer), r.phase.n);
  }

  lemma TimeoutWorks(p: Plan, k: string, r: Res)
    requires Workable(p) && k in p.attempts && k in p.policy && CanAct(r, Timeout)
    ensures PhaseWork(p, k, Act(p, k, r, Timeout).phase) < PhaseWork(p, k, r.phase)
  {
    hide PathCounts;
    hide PathCount;
    hide AfterFailure;
    hide Workable;
    FailureWorks(p, k, r.(failed := true), r.phase.n);
  }

  lemma CreateWorks(p: Plan, k: string, r: Res, ok: bool)
    requires Workable(p) && k in p.attempts && k in p.policy && CanAct(r, Create(ok))
    ensures PhaseWork(p, k, Act(p, k, r, Create(ok)).phase) < PhaseWork(p, k, r.phase)
  {
    hide PathCounts;
    hide PathCount;
    hide AfterFailure;
    hide Workable;
    var n := r.phase.n;
    assert NextAttempt(p, k, n) == Reporting || (NextAttempt(p, k, n) == Resetting(n + 1) && Left(p, k, n + 1) < Left(p, k, n));
  }

  lemma OtherActWorks(p: Plan, k: string, r: Res, a: Action)
    requires Workable(p) && k in p.attempts && k in p.policy && CanAct(r, a)
    requires a.ResetStatus? || a.DeleteBeforeRetry? || a.ReadIgnored?
    ensures PhaseWork(p, k, Act(p, k, r, a).phase) < PhaseWork(p, k, r.phase)
  {
    hide PathCounts;
    hide PathCount;
    hide AfterFailure;
    hide NextAttempt;
    hide Workable;
  }

  lemma {:induction false} PathCountsJoin(p: Plan, a: seq<string>, b: seq<string>)
    requires Workable(p)
    ensures PathCounts(p, a + b) == PathCounts(p, a) + PathCounts(p, b)
    decreases |b|
  {
    if b == [] {
      assert a + b == a;
    } else {
      PathCountsJoin(p, a, b[..|b| - 1]);
      assert (a + b)[..|a + b| - 1] == a + b[..|b| - 1];
    }
  }

  lemma {:induction false} PathCountsOfDependants(p: Plan, h: string, n: nat)
    requires Workable(p) && h in p.neededBy && n <= |p.neededBy[h]|
    ensures PathCounts(p, p.neededBy[h][..n]) == PathCountUpTo(p.neededBy, h, n)
  {
    if n > 0 {
      PathCountsOfDependants(p, h, n - 1);
      assert p.neededBy[h][..n][..n - 1] == p.neededBy[h][..n - 1];
    }
  }

  /** Marking one vertex takes one path off what is ahead. */
  lemma MarkShrinks(p: Plan, h: string, rest: seq<string>)
    requires Workable(p) && h in p.neededBy
    ensures PathCounts(p, p.neededBy[h] + rest) < PathCounts(p, [h] + rest)
  {
    PathCountsJoin(p, p.neededBy[h], rest);
    PathCountsJoin(p, [h], rest);
    PathCountsOfDependants(p, h, |p.neededBy[h]|);
    assert p.neededBy[h][..|p.neededBy[h]|] == p.neededBy[h];
    assert [h][..0] == [];
    assert PathCounts(p, []) == 0;
  }

  lemma MarkPhaseWork(p: Plan, k: string, h: string, rest: seq<string>)
    requires Workable(p) && h in p.neededBy
    ensures var todo := p.neededBy[h] + rest;
      PhaseWork(p, k, if todo == [] then Reporting else Marking(todo)) < PhaseWork(p, k, Marking([h] + rest))
  {
    MarkShrinks(p, h, rest);
  }

  lemma MarkWorks(p: Plan, s: State, k: string)
    requires ValidPlan(p) && Workable(p) && CanMark(p, s, k)
    ensures Work(p, DoMark(p, s, k)) < Work(p, s)
  {
    hide PathCounts;
    var h, rest := s.res[k].phase.todo[0], s.res[k].phase.todo[1..];
    var s1 := Set(s, h, s.res[h].(ignored := true));
    assert h in Elements(p.keys) && k in Elements(p.keys);
    assert Distinct(p.keys);
    hide ValidPlan;
    hide PhaseWork;
    OnePhaseChanged(p, s, s1, h);
    MarkShrinks(p, h, rest);
    assert s.res[k].phase.todo == [h] + rest;
    MarkPhaseWork(p, k, h, rest);
    OnePhaseChanged(p, s1, DoMark(p, s, k), k);
  }

  lemma AttemptWorks(p: Plan, s: State, k: string, a: Action)
    requires Workable(p) && Distinct(p.keys) && k in p.keys && Enabled(p, s, Attempt(k, a))
    ensures Work(p, DoAttempt(p, s, k, a)) <= Work(p, s)
    ensures Works(p, s, Attempt(k, a)) ==> Work(p, DoAttempt(p, s, k, a)) < Work(p, s)
  {
    hide Work;
    ActWorks(p, k, s.res[k], a);
    hide Act;
    hide CanAct;
    hide PhaseWork;
    OnePhaseChanged(p, s, DoAttempt(p, s, k, a), k);
  }

  lemma CheckStatusWorks(p: Plan, s: State, k: string, answer: Answer)
    requires Workable(p) && Distinct(p.keys) && k in p.keys && LooksAt(p, s, k) && Target(p, s, k) in p.keys
    ensures Work(p, DoCheckStatus(p, s, k, answer)) <= Work(p, s)
  {
    hide Work;
    hide PhaseWork;
    var q := Target(p, s, k);
    var s1 := Set(s, q, Cached(s.res[q], answer));
    OnePhaseChanged(p, s, s1, q);
    OnePhaseChanged(p, s1, DoCheckStatus(p, s, k, answer), k);
  }

  lemma StartWorks(p: Plan, s: State, s': State, k: string)
    requires Workable(p) && Distinct(p.keys) && k in p.keys && k in s.res && s.res[k].phase.Idle?
    requires s'.res == StartOf(s, k, s.res[k]).res && s'.finalized == s.finalized
    requires |s'.rootTodo| <= |s.rootTodo| && s'.created == s.created
    ensures Work(p, s') < Work(p, s)
  {
    hide Work;
    OnePhaseChanged(p, s, s', k);
  }

  /** Steps that move one resource to its next stage. */
  lemma StageWorks(p: Plan, s: State, e: Event)
    requires Workable(p) && Distinct(p.keys) && Enabled(p, s, e)
    requires (e.Acquire? || e.SpawnPollers? || e.Report? || e.Release?) && e.k in p.keys
    ensures Work(p, Apply(p, s, e)) < Work(p, s)
  {
    hide Work;
    hide PathCounts;
    hide PathCount;
    OnePhaseChanged(p, s, Apply(p, s, e), e.k);
  }

  lemma LockWorks(p: Plan, s: State, s': State, k: string)
    requires Workable(p) && Distinct(p.keys) && k in p.keys
    requires k in s.res && k in s'.res && s'.res == s.res[k := s'.res[k]] && s'.res[k].phase == s.res[k].phase
    requires s'.rootTodo == s.rootTodo && s'.created == s.created && s'.finalized == s.finalized
    ensures Work(p, s') == Work(p, s)
  {
    hide PhaseWork;
    TotalOneChanged(p, p.keys, s.res, s'.res, k);
  }

  lemma RootVisitWorks(p: Plan, s: State, k: string)
    requires Workable(p) && Distinct(p.keys) && k in p.keys && Shape(p, s) && Enabled(p, s, RootVisit(k))
    ensures Work(p, DoRootVisit(p, s, k)) < Work(p, s)
  {
    assert ResourceOk(p, s, k);
    if p.needs[k] == [] && !s.res[k].started {
      StartWorks(p, s, DoRootVisit(p, s, k), k);
    } else {
      SameResourcesWork(p, s, DoRootVisit(p, s, k));
    }
  }

  lemma DispatchWorks(p: Plan, s: State)
    requires Workable(p) && Distinct(p.keys) && Channels(p, s) && Enabled(p, s, Dispatch) && s.toCreate[0] in p.keys
    ensures Work(p, DoDispatch(s)) < Work(p, s)
  {
    hide Work;
    assert s.toCreate[0] in s.toCreate;
    OnePhaseChanged(p, s, DoDispatch(s), s.toCreate[0]);
  }

  lemma StartCheckedWorks(p: Plan, s: State, k: string)
    requires Workable(p) && Distinct(p.keys) && k in p.keys && Shape(p, s) && Enabled(p, s, StartChecked(k))
    ensures Work(p, DoStartChecked(s, k)) < Work(p, s)
  {
    assert ResourceOk(p, s, k);
    StartWorks(p, s, DoStartChecked(s, k), k);
  }

  /** Requests under way and status reads move no worker. */
  lemma RequestsAddNoWork(p: Plan, s: State, e: Event)
    requires Workable(p) && Distinct(p.keys) && Enabled(p, s, e)
    requires (e.BeginCheck? || e.CheckVerdict? || e.Observe? || e.PollerDone?) && e.k in p.keys
    ensures Work(p, Apply(p, s, e)) == Work(p, s)
  {
    hide Work;
    if e.PollerDone? {
      SameResourcesWork(p, s, Apply(p, s, e));
    } else {
      LockWorks(p, s, Apply(p, s, e), e.k);
    }
  }

  lemma LastStepsWork(p: Plan, s: State, e: Event)
    requires Workable(p) && Enabled(p, s, e) && (e.Receive? || e.Finalize?)
    ensures Work(p, Apply(p, s, e)) < Work(p, s)
  {
    SameResourcesWork(p, s, Apply(p, s, e));
  }

  lemma EventKey(p: Plan, s: State, e: Event)
    requires ValidPlan(p) && Inv(p, s) && Enabled(p, s, e)
    ensures Distinct(p.keys)
    ensures !(e.Dispatch? || e.Receive? || e.Finalize?) ==> e.k in p.keys
    ensures e.Dispatch? ==> s.toCreate[0] in p.keys
    ensures e.CheckStatus? ==> Target(p, s, e.k) in p.keys
  {
    assert forall k :: k in s.res ==> k in Elements(p.keys);
  }

  predicate ByWorker(e: Event) {
    e.Attempt? || e.Mark? || e.Acquire? || e.SpawnPollers? || e.Report? || e.Release?
  }

  lemma WorkerStepWorks(p: Plan, s: State, e: Event)
    requires ValidPlan(p) && Workable(p) && Inv(p, s) && Enabled(p, s, e) && ByWorker(e)
    ensures Work(p, Apply(p, s, e)) <= Work(p, s)
    ensures Works(p, s, e) ==> Work(p, Apply(p, s, e)) < Work(p, s)
  {
    EventKey(p, s, e);
    hide Inv;
    hide Work;
    hide DoMark;
    hide DoAttempt;
    hide CanAct;
    hide Distinct;
    if e.Attempt? {
      AttemptWorks(p, s, e.k, e.action);
    } else if e.Mark? {
      MarkWorks(p, s, e.k);
    } else {
      StageWorks(p, s, e);
    }
  }

  lemma RequestStepWorks(p: Plan, s: State, e: Event)
    requires ValidPlan(p) && Workable(p) && Inv(p, s) && Enabled(p, s, e) && !ByWorker(e)
    ensures Work(p, Apply(p, s, e)) <= Work(p, s)
    ensures Works(p, s, e) ==> Work(p, Apply(p, s, e)) < Work(p, s)
  {
    EventKey(p, s, e);
    hide ValidPlan;
    hide Shape;
    hide Channels;
    hide Semaphore;
    hide StartOrder;
    hide Work;
    hide DoCheckStatus;
    hide DoDispatch;
    hide DoRootVisit;
    hide DoStartChecked;
    hide Distinct;
    if e.RootVisit? {
      RootVisitWorks(p, s, e.k);
    } else if e.Dispatch? {
      DispatchWorks(p, s);
    } else if e.StartChecked? {
      StartCheckedWorks(p, s, e.k);
    } else if e.CheckStatus? {
      CheckStatusWorks(p, s, e.k, e.answer);
    } else if e.Receive? || e.Finalize? {
      LastStepsWork(p, s, e);
    } else {
      RequestsAddNoWork(p, s, e);
    }
  }

  /** No step adds work, and every working step takes some away. */
  lemma WorkShrinks(p: Plan, s: State, e: Event)
    requires ValidPlan(p) && Workable(p) && Inv(p, s) && Enabled(p, s, e)
    ensures Work(p, Apply(p, s, e)) <= Work(p, s)
    ensures Works(p, s, e) ==> Work(p, Apply(p, s, e)) < Work(p, s)
  {
    hide ValidPlan;
    hide Inv;
    hide Work;
    hide Apply;
    hide Enabled;
    hide Works;
    if ByWorker(e) {
      WorkerStepWorks(p, s, e);
    } else {
      RequestStepWorks(p, s, e);
    }
  }

  lemma SameResourcesWork(p: Plan, s: State, s': State)
    requires Workable(p) && s'.res == s.res
    ensures Work(p, s') - Work(p, s) ==
      |s'.rootTodo| + |s'.created| + (if s'.finalized then 0 else 1) - |s.rootTodo| - |s.created| - if s.finalized then 0 else 1
  {
  }

  /** The working steps among the first `n` of a run. */
  ghost function WorkingSteps(p: Plan, states: seq<State>, events: seq<Event>, n: nat): nat
    requires IsRun(p, states, events) && n <= |events|
  {
    if n == 0 then 0
    else WorkingSteps(p, states, events, n - 1) + if Works(p, states[n - 1], events[n - 1]) then 1 else 0
  }

  /** In any run, however long and in whatever interleaving, the number of working steps is bounded by the plan. */
  lemma {:induction false} WorkIsBounded(p: Plan, states: seq<State>, events: seq<Event>, n: nat)
    requires ValidPlan(p) && Workable(p) && IsRun(p, states, events) && n <= |events|
    ensures WorkingSteps(p, states, events, n) + Work(p, states[n]) <= Work(p, Init(p))
  {
    hide Work;
    hide Works;
    hide Inv;
    hide ValidPlan;
    if n > 0 {
      WorkIsBounded(p, states, events, n - 1);
      InvInRun(p, states, events, n - 1);
      WorkShrinks(p, states[n - 1], events[n - 1]);
      assert states[n - 1 + 1] == Apply(p, states[n - 1], events[n - 1]);
    }
  }
}
