/** How often a resource is created, and when it is deleted before another attempt. */
module DeploymentRetries {
  import opened Deployment
  import opened DeploymentSafety

  /** How often the creation of a resource was requested so far. */
  function Creations(s: State, k: string): nat {
    multiset(s.creates)[k]
  }

  /** The attempts that can be over in a phase, at most. */
  function Tried(phase: Phase, attempts: int): int {
    match phase
    case Idle => 0
    case Queued => 0
    case Waiting => 0
    case Spawning => 0
    case Resetting(n) => n - 1
    case Deleting(n) => n - 1
    case Checking(n) => n - 1
    case Creating(n) => n - 1
    case Polling(n) => n
    case _ => attempts
  }

  /** The current attempt is one of those allowed, and only later ones are preceded by a deletion. */
  predicate AttemptOk(phase: Phase, attempts: int) {
    match phase
    case Resetting(n) => 1 <= n <= attempts
    case Spawning => 1 <= attempts
    case Deleting(n) => 2 <= n <= attempts
    case Checking(n) => 1 <= n <= attempts
    case Creating(n) => 1 <= n <= attempts
    case Polling(n) => 1 <= n <= attempts
    case _ => true
  }

  predicate RetryOk(p: Plan, k: string, phase: Phase, creations: nat)
    requires k in p.attempts
  {
    && AttemptOk(phase, p.attempts[k])
    && (creations <= Tried(phase, p.attempts[k]) || creations == 0)
    && (phase.Deleting? ==> k in p.deletable)
  }

  ghost predicate RetriesOk(p: Plan, s: State) {
    && s.res.Keys == p.attempts.Keys
    && forall k :: k in s.res ==> RetryOk(p, k, s.res[k].phase, Creations(s, k))
  }

  lemma FailureRetries(p: Plan, k: string, r: Res, n: int, creations: nat)
    requires k in p.attempts && k in p.policy && 1 <= n <= p.attempts[k] && creations <= n
    ensures RetryOk(p, k, AfterFailure(p, k, r, n).phase, creations)
  {
  }

  lemma ActRetries(p: Plan, k: string, r: Res, a: Action, creations: nat)
    requires k in p.attempts && k in p.policy && CanAct(r, a) && RetryOk(p, k, r.phase, creations)
    ensures RetryOk(p, k, Act(p, k, r, a).phase, creations + if a.Create? then 1 else 0)
  {
    hide AfterFailure;
    if a.Poll? {
      FailureRetries(p, k, Cached(r, a.answer), r.phase.n, creations);
    } else if a.Timeout? {
      FailureRetries(p, k, r.(failed := true), r.phase.n, creations);
    }
  }

  lemma AttemptRetries(p: Plan, s: State, k: string, a: Action)
    requires RetriesOk(p, s) && Enabled(p, s, Attempt(k, a))
    ensures RetriesOk(p, DoAttempt(p, s, k, a))
  {
    ActRetries(p, k, s.res[k], a, Creations(s, k));
    hide Act;
    hide CanAct;
    hide RetryOk;
    var s' := DoAttempt(p, s, k, a);
    forall j | j in s'.res ensures RetryOk(p, j, s'.res[j].phase, Creations(s', j)) {
    }
  }

  /** The phase may follow without a creation. */
  predicate MovesOn(p: Plan, k: string, from: Phase, to: Phase)
    requires k in p.attempts
  {
    var attempts := p.attempts[k];
    AttemptOk(to, attempts) && !to.Deleting? && (Tried(from, attempts) == 0 || Tried(from, attempts) <= Tried(to, attempts))
  }

  lemma OneMovesOn(p: Plan, s: State, s': State, k: string)
    requires RetriesOk(p, s) && s'.creates == s.creates && k in s.res && k in s'.res && s'.res == s.res[k := s'.res[k]]
    requires MovesOn(p, k, s.res[k].phase, s'.res[k].phase)
    ensures RetriesOk(p, s')
  {
    forall j | j in s'.res ensures RetryOk(p, j, s'.res[j].phase, Creations(s', j)) {
      assert RetryOk(p, j, s.res[j].phase, Creations(s, j));
    }
  }

  lemma SamePhases(p: Plan, s: State, s': State)
    requires RetriesOk(p, s) && s'.creates == s.creates && s'.res.Keys == s.res.Keys
    requires forall k :: k in s.res ==> s'.res[k].phase == s.res[k].phase
    ensures RetriesOk(p, s')
  {
    forall j | j in s'.res ensures RetryOk(p, j, s'.res[j].phase, Creations(s', j)) {
      assert RetryOk(p, j, s.res[j].phase, Creations(s, j));
    }
  }

  lemma StageRetries(p: Plan, s: State, e: Event)
    requires RetriesOk(p, s) && Enabled(p, s, e) && (e.Acquire? || e.SpawnPollers? || e.Report? || e.Release?)
    ensures RetriesOk(p, Apply(p, s, e))
  {
    assert RetryOk(p, e.k, s.res[e.k].phase, Creations(s, e.k));
    hide RetriesOk;
    OneMovesOn(p, s, Apply(p, s, e), e.k);
  }

  lemma DispatchRetries(p: Plan, s: State)
    requires Channels(p, s) && RetriesOk(p, s) && Enabled(p, s, Dispatch)
    ensures RetriesOk(p, DoDispatch(s))
  {
    assert s.toCreate[0] in s.toCreate;
    assert s.toCreate[0] in p.attempts;
    hide Channels;
    hide RetriesOk;
    OneMovesOn(p, s, DoDispatch(s), s.toCreate[0]);
  }

  lemma StartRetries(p: Plan, s: State, s': State, k: string)
    requires Shape(p, s) && RetriesOk(p, s) && k in s.res && !s.res[k].started && k in s'.res
    requires s'.res == s.res[k := s'.res[k]] && s'.res[k].phase.Queued? && s'.creates == s.creates
    ensures RetriesOk(p, s')
  {
    assert ResourceOk(p, s, k) && k in p.attempts;
    hide Shape;
    hide RetriesOk;
    OneMovesOn(p, s, s', k);
  }

  lemma RootVisitRetries(p: Plan, s: State, k: string)
    requires Shape(p, s) && RetriesOk(p, s) && Enabled(p, s, RootVisit(k))
    ensures RetriesOk(p, DoRootVisit(p, s, k))
  {
    hide RetriesOk;
    if p.needs[k] == [] && !s.res[k].started {
      StartRetries(p, s, DoRootVisit(p, s, k), k);
    } else {
      SamePhases(p, s, DoRootVisit(p, s, k));
    }
  }

  lemma MarkRetries(p: Plan, s: State, k: string)
    requires RetriesOk(p, s) && CanMark(p, s, k)
    ensures RetriesOk(p, DoMark(p, s, k))
  {
    hide RetriesOk;
    var h := s.res[k].phase.todo[0];
    var s1 := Set(s, h, s.res[h].(ignored := true));
    SamePhases(p, s, s1);
    assert k in p.attempts;
    OneMovesOn(p, s1, DoMark(p, s, k), k);
  }

  lemma RetriesKept(p: Plan, s: State, e: Event)
    requires Inv(p, s) && RetriesOk(p, s) && Enabled(p, s, e)
    ensures RetriesOk(p, Apply(p, s, e))
  {
    hide RetriesOk;
    hide Channels;
    hide Semaphore;
    hide StartOrder;
    hide Shape;
    hide CanAct;
    hide DoAttempt;
    hide DoMark;
    hide DoDispatch;
    hide DoRootVisit;
    hide DoStartChecked;
    if e.Attempt? {
      AttemptRetries(p, s, e.k, e.action);
    } else if e.Dispatch? {
      DispatchRetries(p, s);
    } else if e.Mark? {
      MarkRetries(p, s, e.k);
    } else if e.RootVisit? {
      RootVisitRetries(p, s, e.k);
    } else if e.StartChecked? {
      StartCheckedRetries(p, s, e.k);
    } else if e.Acquire? || e.SpawnPollers? || e.Report? || e.Release? {
      StageRetries(p, s, e);
    } else {
      RequestRetries(p, s, e);
    }
  }

  lemma StartCheckedRetries(p: Plan, s: State, k: string)
    requires Shape(p, s) && RetriesOk(p, s) && Enabled(p, s, StartChecked(k))
    ensures RetriesOk(p, DoStartChecked(s, k))
  {
    hide RetriesOk;
    UnstartedWhileLocked(p, s, k);
    StartRetries(p, s, DoStartChecked(s, k), k);
  }

  lemma RequestRetries(p: Plan, s: State, e: Event)
    requires RetriesOk(p, s) && Enabled(p, s, e)
    requires e.BeginCheck? || e.CheckStatus? || e.CheckVerdict? || e.PollerDone? || e.Observe? || e.Receive? || e.Finalize?
    ensures RetriesOk(p, Apply(p, s, e))
  {
    hide RetriesOk;
    SamePhases(p, s, Apply(p, s, e));
  }

  lemma UnstartedWhileLocked(p: Plan, s: State, k: string)
    requires Shape(p, s) && k in s.res && s.res[k].lock.Some?
    ensures !s.res[k].started
  {
    assert ResourceOk(p, s, k);
  }

  lemma NothingCreatedYet(p: Plan)
    requires ValidPlan(p)
    ensures RetriesOk(p, Init(p))
  {
  }

  lemma {:induction false} RetriesInRun(p: Plan, states: seq<State>, events: seq<Event>, i: nat)
    requires ValidPlan(p) && IsRun(p, states, events) && i < |states|
    ensures RetriesOk(p, states[i])
  {
    hide Inv;
    hide ValidPlan;
    hide RetriesOk;
    if i == 0 {
      NothingCreatedYet(p);
    } else {
      RetriesInRun(p, states, events, i - 1);
      InvInRun(p, states, events, i - 1);
      hide Enabled;
      hide Apply;
      RetriesKept(p, states[i - 1], events[i - 1]);
      assert states[i - 1 + 1] == Apply(p, states[i - 1], events[i - 1]);
    }
  }

  /** In every run each resource is created at most as often as its retry count says, and never when that is below one. It
      is deleted only before a later attempt, and only if it may be. */
  lemma RetryCountIsRespected(p: Plan, states: seq<State>, events: seq<Event>, i: nat, k: string)
    requires ValidPlan(p) && IsRun(p, states, events) && i < |states| && k in p.needs
    ensures k in states[i].res && k in p.attempts
    ensures Creations(states[i], k) <= if p.attempts[k] >= 1 then p.attempts[k] else 0
    ensures states[i].res[k].phase.Deleting? ==> k in p.deletable && 2 <= states[i].res[k].phase.n <= p.attempts[k]
  {
    RetriesInRun(p, states, events, i);
    assert RetryOk(p, k, states[i].res[k].phase, Creations(states[i], k));
  }
}
