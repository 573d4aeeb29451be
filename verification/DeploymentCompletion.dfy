/** Deployments in which nothing is failed for good can be completed. */
module DeploymentCompletion {
  import opened Graphs
  import opened Deployment
  import opened DeploymentSafety
  import opened DeploymentWork
  import opened DeploymentProgress
  import opened DeploymentIgnore

  // ---------- failures on the way ----------

  /** A failure is on record only between a timeout and the next attempt, and then after the end of the last one. */
  predicate FailureKept(k: string, r: Res) {
    r.failed ==> !InAttempt(r.phase) && (r.phase.Marking? ==> r.ignored || r.phase.todo == [k])
  }

  predicate InAttempt(phase: Phase) {
    !(phase.Resetting? || phase.Marking? || Over(phase))
  }

  ghost predicate FailuresKept(s: State) {
    forall k :: k in s.res ==> FailureKept(k, s.res[k])
  }

  /** One resource seen across a step; purposeful steps lose nothing. */
  ghost predicate KeepsRecord(k: string, r: Res, r': Res, purposeful: bool) {
    && (FailureKept(k, r) ==> FailureKept(k, r'))
    && (purposeful && FailureKept(k, r) && Lost(r') ==> Lost(r))
  }

  lemma AttemptKeepsRecord(p: Plan, s: State, k: string, a: Action, q: string)
    requires Enabled(p, s, Attempt(k, a)) && q in s.res
    ensures KeepsRecord(q, s.res[q], DoAttempt(p, s, k, a).res[q], Purposeful(p, Attempt(k, a)))
  {
    ActKeepsRecord(p, k, s.res[k], a);
    hide Act;
    hide CanAct;
    hide KeepsRecord;
    SameKeepsRecord(q, s.res[q]);
  }

  lemma SameKeepsRecord(k: string, r: Res)
    ensures KeepsRecord(k, r, r, true) && KeepsRecord(k, r, r, false)
  {
  }

  lemma ActKeepsRecord(p: Plan, k: string, r: Res, a: Action)
    requires k in p.attempts && k in p.policy && CanAct(r, a)
    ensures KeepsRecord(k, r, Act(p, k, r, a), Purposeful(p, Attempt(k, a)))
  {
    if a.Timeout? || a.Poll? {
      hide NextAttempt;
    } else {
      hide AfterFailure;
    }
  }

  lemma StageKeepsRecord(p: Plan, s: State, e: Event, q: string)
    requires Channels(p, s) && Enabled(p, s, e) && q in s.res
    requires e.Dispatch? || e.Acquire? || e.SpawnPollers? || e.Report? || e.Release? || e.Receive? || e.Finalize?
    ensures q in Apply(p, s, e).res && KeepsRecord(q, s.res[q], Apply(p, s, e).res[q], true)
  {
    hide KeepsRecord;
    if e.Dispatch? {
      DispatchKeepsRecord(p, s, q);
    } else if e.Receive? || e.Finalize? {
      SameKeepsRecord(q, s.res[q]);
    } else {
      hide Channels;
      WorkerKeepsRecord(p, s, e, q);
    }
  }

  lemma DispatchKeepsRecord(p: Plan, s: State, q: string)
    requires Channels(p, s) && Enabled(p, s, Dispatch) && q in s.res
    ensures q in DoDispatch(s).res && KeepsRecord(q, s.res[q], DoDispatch(s).res[q], true)
  {
    assert s.toCreate[0] in s.toCreate;
    hide Channels;
  }

  lemma WorkerKeepsRecord(p: Plan, s: State, e: Event, q: string)
    requires Enabled(p, s, e) && q in s.res && (e.Acquire? || e.SpawnPollers? || e.Report? || e.Release?)
    ensures q in Apply(p, s, e).res && KeepsRecord(q, s.res[q], Apply(p, s, e).res[q], true)
  {
  }

  lemma RequestKeepsRecord(p: Plan, s: State, e: Event, q: string)
    requires Shape(p, s) && Enabled(p, s, e) && q in s.res
    requires e.RootVisit? || e.BeginCheck? || e.CheckVerdict? || e.StartChecked? || e.PollerDone? || e.Observe?
    ensures q in Apply(p, s, e).res && KeepsRecord(q, s.res[q], Apply(p, s, e).res[q], true)
  {
    assert ResourceOk(p, s, q);
    hide Shape;
  }

  lemma MarkKeepsRecord(p: Plan, s: State, k: string, q: string)
    requires Enabled(p, s, Mark(k)) && q in s.res
    ensures q in DoMark(p, s, k).res && KeepsRecord(q, s.res[q], DoMark(p, s, k).res[q], true)
  {
  }

  lemma CheckStatusKeepsRecord(p: Plan, s: State, k: string, answer: Answer, q: string)
    requires Enabled(p, s, CheckStatus(k, answer)) && q in s.res
    ensures q in DoCheckStatus(p, s, k, answer).res
    ensures KeepsRecord(q, s.res[q], DoCheckStatus(p, s, k, answer).res[q], true)
  {
  }

  lemma StepKeepsRecord(p: Plan, s: State, e: Event, q: string)
    requires Inv(p, s) && Enabled(p, s, e) && q in s.res
    ensures q in Apply(p, s, e).res && KeepsRecord(q, s.res[q], Apply(p, s, e).res[q], Purposeful(p, e))
  {
    hide Shape;
    hide Channels;
    hide Semaphore;
    hide StartOrder;
    hide KeepsRecord;
    hide CanAct;
    hide DoMark;
    hide DoAttempt;
    hide DoCheckStatus;
    if e.Attempt? {
      AttemptKeepsRecord(p, s, e.k, e.action, q);
      AttemptKeys(p, s, e);
    } else if e.Mark? {
      MarkKeepsRecord(p, s, e.k, q);
    } else if e.CheckStatus? {
      CheckStatusKeepsRecord(p, s, e.k, e.answer, q);
    } else if e.RootVisit? || e.BeginCheck? || e.CheckVerdict? || e.StartChecked? || e.PollerDone? || e.Observe? {
      RequestKeepsRecord(p, s, e, q);
    } else {
      StageKeepsRecord(p, s, e, q);
    }
  }

  lemma SameResources(p: Plan, s: State, e: Event)
    requires ValidPlan(p) && Inv(p, s) && Enabled(p, s, e)
    ensures Apply(p, s, e).res.Keys == s.res.Keys
  {
    hide Apply;
    hide Enabled;
    InvKept(p, s, e);
  }

  lemma FailuresStayKept(p: Plan, s: State, e: Event)
    requires ValidPlan(p) && Inv(p, s) && Enabled(p, s, e) && FailuresKept(s)
    ensures Apply(p, s, e).res.Keys == s.res.Keys && FailuresKept(Apply(p, s, e))
    ensures forall k :: k in s.res && Purposeful(p, e) && Lost(Apply(p, s, e).res[k]) ==> Lost(s.res[k])
  {
    hide Inv;
    hide ValidPlan;
    hide Apply;
    hide Enabled;
    hide FailureKept;
    hide Lost;
    hide Purposeful;
    SameResources(p, s, e);
    var s' := Apply(p, s, e);
    forall k | k in s'.res
      ensures FailureKept(k, s'.res[k]) && (Purposeful(p, e) && Lost(s'.res[k]) ==> Lost(s.res[k]))
    {
      StepKeepsRecord(p, s, e, k);
    }
  }

  lemma {:induction false} FailuresKeptInRun(p: Plan, states: seq<State>, events: seq<Event>, i: nat)
    requires ValidPlan(p) && IsRun(p, states, events) && i < |states|
    ensures FailuresKept(states[i])
  {
    hide Inv;
    hide ValidPlan;
    hide Enabled;
    hide Apply;
    if i > 0 {
      FailuresKeptInRun(p, states, events, i - 1);
      InvInRun(p, states, events, i - 1);
      hide FailuresKept;
      FailuresStayKept(p, states[i - 1], events[i - 1]);
      assert states[i - 1 + 1] == Apply(p, states[i - 1], events[i - 1]);
    }
  }

  // ---------- how far requests are ----------

  /** What a request under way still has to read and judge. */
  function RequestLeft(p: Plan, k: string, c: Check): nat
    requires k in p.needs
  {
    if c.next <= |p.needs[k]| then 2 * (|p.needs[k]| - c.next) + (if c.seen.None? then 1 else 0) else 0
  }

  /** A bound on the requests for a resource that are still worth making: one, once its requirements have finished, and
      before that one a request that read something out of date. */
  ghost function Waits(p: Plan, s: State, k: string): nat {
    if k !in s.res || k !in p.needs || s.res[k].started then 0
    else if s.res[k].lock.None? then (if AllWell(p, s, k) then 2 * |p.needs[k]| + 2 else 0)
    else if AllWell(p, s, k) && !Succeeding(p, s, k) then 2 * |p.needs[k]| + 3
    else RequestLeft(p, k, s.res[k].lock.value)
  }

  /** Everything that `Waits` looks at is the same, but for the lock and the start of `k`. */
  ghost predicate SameBut(s: State, s': State, k: string) {
    && s'.res.Keys == s.res.Keys
    && (forall q :: q in s.res ==>
          && (Reported(s'.res[q]) <==> Reported(s.res[q])) && (Lost(s'.res[q]) <==> Lost(s.res[q]))
          && s'.res[q].ignored == s.res[q].ignored)
    && (forall q :: q in s.res && q != k ==> s'.res[q].lock == s.res[q].lock && s'.res[q].started == s.res[q].started)
  }

  lemma WaitsElsewhere(p: Plan, s: State, s': State, k: string, j: string)
    requires SameBut(s, s', k) && j != k && s.res.Keys == p.needs.Keys && Closed(p.needs)
    ensures Waits(p, s', j) == Waits(p, s, j)
  {
    if j in s.res && j in p.needs {
      forall q | q in p.needs[j] ensures q in s.res {
        assert Edge(p.needs, j, q);
      }
      assert AllReported(p, s', j) <==> AllReported(p, s, j);
      assert AllWell(p, s', j) <==> AllWell(p, s, j);
      if AllWell(p, s, j) && s.res[j].lock.Some? {
        AllWellFrom(p, s, j, s.res[j].lock.value.next);
        AllWellFrom(p, s', j, s.res[j].lock.value.next);
      }
      hide WellFrom;
      if s.res[j].lock.Some? && s.res[j].lock.value.next < |p.needs[j]| {
        assert p.needs[j][s.res[j].lock.value.next] in s.res;
      }
    }
  }

  ghost function TotalWaits(p: Plan, s: State, keys: seq<string>): nat {
    if keys == [] then 0 else TotalWaits(p, s, keys[..|keys| - 1]) + Waits(p, s, keys[|keys| - 1])
  }

  lemma {:induction false} TotalWaitsMoves(p: Plan, s: State, s': State, k: string, keys: seq<string>)
    requires SameBut(s, s', k) && s.res.Keys == p.needs.Keys && Closed(p.needs) && Distinct(keys)
    ensures k in keys ==> TotalWaits(p, s', keys) == TotalWaits(p, s, keys) - Waits(p, s, k) + Waits(p, s', k)
    ensures k !in keys ==> TotalWaits(p, s', keys) == TotalWaits(p, s, keys)
  {
    hide Waits;
    hide SameBut;
    if keys != [] {
      var front, j := keys[..|keys| - 1], keys[|keys| - 1];
      assert keys == front + [j];
      assert j !in front;
      TotalWaitsMoves(p, s, s', k, front);
      if j != k { WaitsElsewhere(p, s, s', k, j); }
    }
  }

  // ---------- each useful step leads on ----------

  lemma SameReports(p: Plan, s: State, s': State, k: string, j: string)
    requires SameBut(s, s', k) && j in p.needs
    ensures AllWell(p, s', j) <==> AllWell(p, s, j)
  {
    hide Lost;
    assert AllReported(p, s', j) <==> AllReported(p, s, j);
  }

  lemma RequestUnderWay(p: Plan, s: State, k: string)
    requires k in s.res && k in p.needs && !s.res[k].started && s.res[k].lock.Some?
    ensures AllWell(p, s, k) && Succeeding(p, s, k) ==> Waits(p, s, k) == RequestLeft(p, k, s.res[k].lock.value)
    ensures AllWell(p, s, k) && !Succeeding(p, s, k) ==> Waits(p, s, k) == 2 * |p.needs[k]| + 3
    ensures !AllWell(p, s, k) ==> Waits(p, s, k) == RequestLeft(p, k, s.res[k].lock.value)
  {
    hide AllWell;
    hide Succeeding;
  }

  lemma CheckStatusMovesLock(p: Plan, s: State, k: string, answer: Answer)
    requires Enabled(p, s, CheckStatus(k, answer))
    ensures SameBut(s, DoCheckStatus(p, s, k, answer), k)
    ensures var r, r' := s.res[k], DoCheckStatus(p, s, k, answer).res[k];
      && r'.started == r.started && r.lock.Some? && r'.lock.Some?
      && RequestLeft(p, k, r'.lock.value) < RequestLeft(p, k, r.lock.value)
  {
  }

  lemma CheckStatusLeadsOn(p: Plan, s: State, k: string, answer: Answer)
    requires ValidPlan(p) && Inv(p, s) && p.onErrorEdges == {}
    requires Enabled(p, s, CheckStatus(k, answer)) && Fair(p, s, CheckStatus(k, answer))
    ensures SameBut(s, DoCheckStatus(p, s, k, answer), k)
    ensures Waits(p, DoCheckStatus(p, s, k, answer), k) < Waits(p, s, k)
  {
    var s' := DoCheckStatus(p, s, k, answer);
    CheckStatusMovesLock(p, s, k, answer);
    SameReports(p, s, s', k, k);
    assert ResourceOk(p, s, k);
    if AllWell(p, s, k) {
      var next := s.res[k].lock.value.next;
      AllWellFrom(p, s, k, next);
      AllWellFrom(p, s', k, next);
      hide AllWell;
      hide WellFrom;
      assert Succeeding(p, s, k);
      GoodStatusRead(p, s, k, answer);
    }
    hide DoCheckStatus;
    hide Waits;
    hide RequestLeft;
    hide AllWell;
    hide Succeeding;
    hide Inv;
    hide ValidPlan;
    RequestUnderWay(p, s, k);
    RequestUnderWay(p, s', k);
  }

  lemma CheckVerdictMovesLock(p: Plan, s: State, k: string)
    requires ResourceOkAt(p, s, k) && p.onErrorEdges == {} && Enabled(p, s, CheckVerdict(k))
    ensures SameBut(s, DoCheckVerdict(p, s, k), k)
    ensures var r, r' := s.res[k], DoCheckVerdict(p, s, k).res[k];
      && r'.started == r.started && r.lock.Some? && !r.started && RequestLeft(p, k, r.lock.value) > 0
      && (r'.lock.Some? ==> r'.lock.value.seen.None? && RequestLeft(p, k, r'.lock.value) < RequestLeft(p, k, r.lock.value))
      && (r'.lock.None? && AllWell(p, s, k) ==> !Succeeding(p, s, k))
  {
  }

  ghost predicate ResourceOkAt(p: Plan, s: State, k: string) {
    k in s.res && k in p.needs && ResourceOk(p, s, k)
  }

  lemma CheckVerdictLeadsOn(p: Plan, s: State, k: string)
    requires ValidPlan(p) && Inv(p, s) && p.onErrorEdges == {} && Enabled(p, s, CheckVerdict(k))
    ensures SameBut(s, DoCheckVerdict(p, s, k), k) && Waits(p, DoCheckVerdict(p, s, k), k) < Waits(p, s, k)
  {
    var s' := DoCheckVerdict(p, s, k);
    assert ResourceOk(p, s, k);
    CheckVerdictMovesLock(p, s, k);
    SameReports(p, s, s', k, k);
    hide DoCheckVerdict;
    hide RequestLeft;
    hide Inv;
    hide ValidPlan;
    hide AllWell;
    hide Succeeding;
    RequestUnderWay(p, s, k);
    if s'.res[k].lock.Some? {
      if AllWell(p, s', k) { UnreadSucceeds(p, s', k); }
      RequestUnderWay(p, s', k);
    }
  }

  lemma UnreadSucceeds(p: Plan, s: State, k: string)
    requires k in s.res && k in p.needs && AllWell(p, s, k) && s.res[k].lock.Some? && s.res[k].lock.value.seen.None?
    ensures Succeeding(p, s, k)
  {
    AllWellFrom(p, s, k, s.res[k].lock.value.next);
  }

  lemma BeginCheckLeadsOn(p: Plan, s: State, parent: string, k: string)
    requires ValidPlan(p) && Inv(p, s) && Enabled(p, s, BeginCheck(parent, k)) && AllWell(p, s, k)
    ensures SameBut(s, DoBeginCheck(s, parent, k), k) && Waits(p, DoBeginCheck(s, parent, k), k) < Waits(p, s, k)
  {
    hide Inv;
    hide ValidPlan;
    var s' := DoBeginCheck(s, parent, k);
    assert SameBut(s, s', k);
    SameReports(p, s, s', k, k);
    hide AllWell;
    UnreadSucceeds(p, s', k);
    hide Succeeding;
    RequestUnderWay(p, s', k);
  }

  /** Every strictly useful and fair step takes away work, or adds none and brings a request further. */
  lemma UsefulLeadsOn(p: Plan, s: State, e: Event)
    requires ValidPlan(p) && Workable(p) && Inv(p, s) && p.onErrorEdges == {}
    requires Enabled(p, s, e) && Useful(p, s, e, true) && Fair(p, s, e)
    ensures var s' := Apply(p, s, e);
      Work(p, s') < Work(p, s) || (Work(p, s') == Work(p, s) && TotalWaits(p, s', p.keys) < TotalWaits(p, s, p.keys))
  {
    WorkShrinks(p, s, e);
    EventKey(p, s, e);
    hide Work;
    hide Waits;
    hide SameBut;
    hide DoCheckStatus;
    hide DoCheckVerdict;
    hide DoBeginCheck;
    var s' := Apply(p, s, e);
    if !Works(p, s, e) {
      if e.CheckStatus? {
        CheckStatusLeadsOn(p, s, e.k, e.answer);
      } else if e.CheckVerdict? {
        CheckVerdictLeadsOn(p, s, e.k);
      } else {
        BeginCheckLeadsOn(p, s, e.parent, e.k);
      }
      TotalWaitsMoves(p, s, s', e.k, p.keys);
    }
  }

  // ---------- what can be cured stays curable ----------

  /** A worker that can still spread its failure keeps that ability, except when it has marked everything, or skips an
      attempt because it is ignored itself. */
  lemma SpreadKept(p: Plan, s: State, e: Event, h: string)
    requires Inv(p, s) && Enabled(p, s, e) && Purposeful(p, e) && CanSpread(p, s, h)
    ensures
      || CanSpread(p, Apply(p, s, e), h)
      || (e == Mark(h) && s.res[h].phase.Marking?)
      || (e == Attempt(h, ReadIgnored) && s.res[h].ignored && p.policy[h].IgnoreAll?)
  {
    hide Inv;
    hide DoCheckStatus;
    hide DoMark;
    hide DoAttempt;
    if e.Attempt? {
      SpreadKeptByAttempt(p, s, e.k, e.action, h);
    } else if e.Mark? {
      SpreadKeptByMark(p, s, e.k, h);
    } else if e.CheckStatus? {
      SpreadKeptByCheck(p, s, e.k, e.answer, h);
    } else {
      SpreadElsewhere(p, s, e, h);
    }
  }

  /** Steps that neither try, mark nor read a status leave that ability alone. */
  lemma SpreadElsewhere(p: Plan, s: State, e: Event, h: string)
    requires Inv(p, s) && Enabled(p, s, e) && !e.Attempt? && !e.Mark? && !e.CheckStatus?
    ensures CanSpread(p, Apply(p, s, e), h) <==> CanSpread(p, s, h)
  {
    hide Semaphore;
    hide StartOrder;
    hide CanSpread;
    hide DoDispatch;
    hide DoRootVisit;
    hide DoStartChecked;
    if e.Dispatch? {
      SpreadDispatch(p, s, h);
    } else if e.RootVisit? {
      SpreadRootVisit(p, s, e.k, h);
    } else if e.StartChecked? {
      SpreadStartChecked(p, s, e.k, h);
    } else {
      hide Shape;
      hide Channels;
      SpreadStage(p, s, e, h);
    }
  }

  lemma SpreadDispatch(p: Plan, s: State, h: string)
    requires Channels(p, s) && Enabled(p, s, Dispatch)
    ensures CanSpread(p, DoDispatch(s), h) <==> CanSpread(p, s, h)
  {
    assert s.toCreate[0] in s.toCreate;
    hide Channels;
  }

  lemma SpreadRootVisit(p: Plan, s: State, k: string, h: string)
    requires Shape(p, s) && Enabled(p, s, RootVisit(k))
    ensures CanSpread(p, DoRootVisit(p, s, k), h) <==> CanSpread(p, s, h)
  {
    assert ResourceOk(p, s, k);
    hide Shape;
  }

  lemma SpreadStartChecked(p: Plan, s: State, k: string, h: string)
    requires Shape(p, s) && Enabled(p, s, StartChecked(k))
    ensures CanSpread(p, DoStartChecked(s, k), h) <==> CanSpread(p, s, h)
  {
    assert ResourceOk(p, s, k);
    hide Shape;
  }

  lemma SpreadStage(p: Plan, s: State, e: Event, h: string)
    requires Enabled(p, s, e)
    requires !e.Attempt? && !e.Mark? && !e.CheckStatus? && !e.Dispatch? && !e.RootVisit? && !e.StartChecked?
    ensures CanSpread(p, Apply(p, s, e), h) <==> CanSpread(p, s, h)
  {
    hide DoDispatch;
    hide DoRootVisit;
    hide DoStartChecked;
    hide DoAttempt;
    hide DoMark;
    hide DoCheckStatus;
  }

  lemma SpreadKeptByAttempt(p: Plan, s: State, k: string, a: Action, h: string)
    requires Enabled(p, s, Attempt(k, a)) && Purposeful(p, Attempt(k, a)) && CanSpread(p, s, h)
    ensures CanSpread(p, DoAttempt(p, s, k, a), h) || (k == h && a == ReadIgnored && s.res[h].ignored && p.policy[h].IgnoreAll?)
  {
    if k == h {
      hide NextAttempt;
    } else {
      hide Act;
      hide CanAct;
    }
  }

  lemma SpreadKeptByMark(p: Plan, s: State, k: string, h: string)
    requires Enabled(p, s, Mark(k)) && CanSpread(p, s, h)
    ensures CanSpread(p, DoMark(p, s, k), h) || k == h
  {
  }

  lemma SpreadKeptByCheck(p: Plan, s: State, k: string, answer: Answer, h: string)
    requires Enabled(p, s, CheckStatus(k, answer)) && CanSpread(p, s, h)
    ensures CanSpread(p, DoCheckStatus(p, s, k, answer), h)
  {
  }

  lemma CurableKept(p: Plan, s: State, e: Event, q: string)
    requires ValidPlan(p) && Inv(p, s) && Enabled(p, s, e) && Purposeful(p, e)
    requires MarkInv(p, s) && MarkInv(p, Apply(p, s, e)) && Curable(p, s, q)
    requires q in s.res && !s.res[q].ignored && q in Apply(p, s, e).res && !Apply(p, s, e).res[q].ignored
    ensures Curable(p, Apply(p, s, e), q)
  {
    hide Inv;
    hide ValidPlan;
    hide MarkInv;
    hide Purposeful;
    var h :| CanSpread(p, s, h) && Reach(p.neededBy, h, q);
    SpreadKept(p, s, e, h);
    if !CanSpread(p, Apply(p, s, e), h) {
      if e == Mark(h) {
        assert s.res[h].phase.Marking?;
        MarkedAtLast(p, s, h, q);
      } else {
        var k := SpreadAbove(p, s, h, q);
        SpreadKept(p, s, e, k);
      }
    }
  }

  /** A worker that has just marked the last of its list has marked everything below it. */
  lemma MarkedAtLast(p: Plan, s: State, h: string, q: string)
    requires MarkInv(p, s) && CanMark(p, s, h) && MarkInv(p, DoMark(p, s, h)) && Reach(p.neededBy, h, q)
    ensures CanSpread(p, DoMark(p, s, h), h) || Marked(DoMark(p, s, h), q)
  {
    var s' := DoMark(p, s, h);
    assert Below(p, s, h);
    assert Spreads(p, s', h);
  }

  /** Whoever is ignored without having policy ignore has a worker above it that marks, or has marked, everything below. */
  lemma SpreadAbove(p: Plan, s: State, h: string, q: string) returns (k: string)
    requires MarkInv(p, s) && h in s.res && s.res[h].ignored && p.policy[h].IgnoreAll?
    requires Reach(p.neededBy, h, q) && q in s.res && !s.res[q].ignored && !s.res[h].phase.Marking?
    ensures k != h && CanSpread(p, s, k) && s.res[k].phase.Marking? && Reach(p.neededBy, k, q)
  {
    assert MarkedForReason(p, s, h);
    k :| k in s.res && s.res[k].spread && Reach(p.neededBy, k, h);
    ReachTransitive(p.neededBy, k, h, q);
    assert Spreads(p, s, k);
    assert !Marked(s, q);
  }

  /** A step that fails nothing without need makes no failure hopeless. */
  lemma WasHopeless(p: Plan, s: State, e: Event, q: string)
    requires ValidPlan(p) && Inv(p, s) && MarkInv(p, s) && FailuresKept(s) && Enabled(p, s, e) && Purposeful(p, e)
    requires Hopeless(p, Apply(p, s, e), q)
    ensures Hopeless(p, s, q)
  {
    hide Inv;
    hide ValidPlan;
    hide MarkInv;
    hide FailuresKept;
    hide Apply;
    hide Enabled;
    hide Purposeful;
    hide Curable;
    FailuresStayKept(p, s, e);
    MarkInvKept(p, s, e);
    assert Lost(s.res[q]);
    if Curable(p, s, q) { CurableKept(p, s, e, q); }
  }

  lemma FinishableKept(p: Plan, s: State, e: Event)
    requires ValidPlan(p) && Inv(p, s) && MarkInv(p, s) && FailuresKept(s) && Finishable(p, s) && p.onErrorEdges == {}
    requires Enabled(p, s, e) && Fair(p, s, e) && Purposeful(p, e)
    ensures Finishable(p, Apply(p, s, e))
  {
    hide Inv;
    hide ValidPlan;
    hide MarkInv;
    hide FailuresKept;
    hide Apply;
    hide Enabled;
    hide Purposeful;
    hide Fair;
    hide Hopeless;
    hide Succeeding;
    var s' := Apply(p, s, e);
    forall c, q | c in s'.res && c in p.needs && !s'.res[c].started && q in p.needs[c] && Hopeless(p, s', q)
      ensures Succeeding(p, s', c)
    {
      SameResources(p, s, e);
      if s.res[c].started { StartedStays(p, s, e, c); }
      WasHopeless(p, s, e, q);
      RequestSucceeds(p, s, e, c);
    }
  }

  lemma StartedStays(p: Plan, s: State, e: Event, c: string)
    requires ValidPlan(p) && Inv(p, s) && Enabled(p, s, e) && c in s.res && s.res[c].started
    ensures c in Apply(p, s, e).res && Apply(p, s, e).res[c].started
  {
    hide ValidPlan;
    hide Inv;
    hide Apply;
    hide Enabled;
    if e.Attempt? {
      StartedKeptByAttempt(p, s, e, c);
    } else if e.Mark? || e.CheckStatus? {
      StartedKept(p, s, e, c);
    } else {
      NotUnstarted(p, s, e, c);
    }
  }

  lemma NotUnstarted(p: Plan, s: State, e: Event, c: string)
    requires Enabled(p, s, e) && !e.Attempt? && !e.Mark? && !e.CheckStatus? && c in s.res && s.res[c].started
    ensures c in Apply(p, s, e).res && Apply(p, s, e).res[c].started
  {
    hide DoMark;
    hide DoCheckStatus;
    hide DoAttempt;
  }

  // ---------- what keeps a deployment going ----------

  /** Everything that keeps a deployment going. */
  ghost predicate Sound(p: Plan, s: State) {
    Inv(p, s) && PollersLeft(p, s) && FailuresKept(s) && MarkInv(p, s)
  }

  ghost predicate Feasible(p: Plan) {
    ValidPlan(p) && Acyclic(p.needs) && Startable(p) && p.onErrorEdges == {}
  }

  ghost predicate Continues(p: Plan, s: State, states: seq<State>, events: seq<Event>) {
    && |states| == |events| + 1 && states[0] == s
    && forall i :: 0 <= i < |events| ==> Enabled(p, states[i], events[i]) && states[i + 1] == Apply(p, states[i], events[i])
  }

  lemma SoundKept(p: Plan, s: State, e: Event)
    requires ValidPlan(p) && Sound(p, s) && Enabled(p, s, e)
    ensures Sound(p, Apply(p, s, e))
  {
    hide Inv;
    hide PollersLeft;
    hide FailuresKept;
    hide MarkInv;
    hide ValidPlan;
    hide Enabled;
    hide Apply;
    InvKept(p, s, e);
    PollersKept(p, s, e);
    FailuresStayKept(p, s, e);
    MarkInvKept(p, s, e);
  }

  lemma SoundInRun(p: Plan, states: seq<State>, events: seq<Event>, i: nat)
    requires ValidPlan(p) && IsRun(p, states, events) && i < |states|
    ensures Sound(p, states[i])
  {
    hide Inv;
    hide PollersLeft;
    hide FailuresKept;
    hide MarkInv;
    hide ValidPlan;
    hide IsRun;
    InvInRun(p, states, events, i);
    PollersInRun(p, states, events, i);
    FailuresKeptInRun(p, states, events, i);
    MarkInvInRun(p, states, events, i);
  }

  // ---------- every guided continuation ends ----------

  /** All steps are strictly useful, fair and purposeful. */
  ghost predicate Guided(p: Plan, states: seq<State>, events: seq<Event>)
    requires |states| == |events| + 1 && forall i :: 0 <= i < |events| ==> Enabled(p, states[i], events[i])
  {
    forall i :: 0 <= i < |events| ==>
      Useful(p, states[i], events[i], true) && Fair(p, states[i], events[i]) && Purposeful(p, events[i])
  }

  ghost function MostWaits(p: Plan, keys: seq<string>): nat {
    if keys == [] then 0
    else
      var k := keys[|keys| - 1];
      MostWaits(p, keys[..|keys| - 1]) + if k in p.needs then 2 * |p.needs[k]| + 3 else 0
  }

  lemma {:induction false} TotalWaitsBounded(p: Plan, s: State, keys: seq<string>)
    ensures TotalWaits(p, s, keys) <= MostWaits(p, keys)
  {
    if keys != [] {
      TotalWaitsBounded(p, s, keys[..|keys| - 1]);
      WaitsBounded(p, s, keys[|keys| - 1]);
      hide Waits;
    }
  }

  lemma WaitsBounded(p: Plan, s: State, k: string)
    ensures Waits(p, s, k) <= if k in p.needs then 2 * |p.needs[k]| + 3 else 0
  {
    hide AllWell;
    hide Succeeding;
  }

  /** How many guided steps a state has left at most. */
  ghost function StepsLeft(p: Plan, s: State): nat
    requires Workable(p)
  {
    Work(p, s) * (MostWaits(p, p.keys) + 1) + TotalWaits(p, s, p.keys)
  }

  lemma StepsLeftShrink(p: Plan, s: State, e: Event)
    requires ValidPlan(p) && Workable(p) && Inv(p, s) && p.onErrorEdges == {}
    requires Enabled(p, s, e) && Useful(p, s, e, true) && Fair(p, s, e)
    ensures StepsLeft(p, Apply(p, s, e)) < StepsLeft(p, s)
  {
    hide Inv;
    hide ValidPlan;
    hide Workable;
    hide Apply;
    hide Enabled;
    hide Useful;
    hide Fair;
    hide Work;
    UsefulLeadsOn(p, s, e);
    var s' := Apply(p, s, e);
    TotalWaitsBounded(p, s', p.keys);
    hide TotalWaits;
    hide MostWaits;
    Lexicographic(Work(p, s), TotalWaits(p, s, p.keys), Work(p, s'), TotalWaits(p, s', p.keys), MostWaits(p, p.keys));
  }

  lemma Lexicographic(a: nat, b: nat, a': nat, b': nat, most: nat)
    requires b' <= most && (a' < a || (a' == a && b' < b))
    ensures a' * (most + 1) + b' < a * (most + 1) + b
  {
    if a' < a {
      assert a == a' + 1 + (a - a' - 1);
      assert a * (most + 1) == a' * (most + 1) + (most + 1) + (a - a' - 1) * (most + 1);
    }
  }

  lemma {:induction false} GuidedSoFar(p: Plan, s: State, states: seq<State>, events: seq<Event>, n: nat)
    requires Feasible(p) && Workable(p) && Sound(p, s) && Finishable(p, s)
    requires Continues(p, s, states, events) && Guided(p, states, events) && n <= |events|
    ensures Sound(p, states[n]) && Finishable(p, states[n]) && n + StepsLeft(p, states[n]) <= StepsLeft(p, s)
  {
    hide Sound;
    hide Finishable;
    hide Workable;
    hide StepsLeft;
    hide ValidPlan;
    hide Acyclic;
    hide Startable;
    hide Enabled;
    hide Apply;
    hide Useful;
    hide Fair;
    hide Purposeful;
    if n > 0 {
      GuidedSoFar(p, s, states, events, n - 1);
      GuidedStep(p, states[n - 1], events[n - 1]);
      assert states[n - 1 + 1] == Apply(p, states[n - 1], events[n - 1]);
    }
  }

  lemma GuidedStep(p: Plan, s: State, e: Event)
    requires Feasible(p) && Workable(p) && Sound(p, s) && Finishable(p, s)
    requires Enabled(p, s, e) && Useful(p, s, e, true) && Fair(p, s, e) && Purposeful(p, e)
    ensures Sound(p, Apply(p, s, e)) && Finishable(p, Apply(p, s, e)) && StepsLeft(p, Apply(p, s, e)) < StepsLeft(p, s)
  {
    hide Inv;
    hide PollersLeft;
    hide FailuresKept;
    hide MarkInv;
    hide Finishable;
    hide Workable;
    hide StepsLeft;
    hide ValidPlan;
    hide Acyclic;
    hide Startable;
    hide Enabled;
    hide Apply;
    hide Useful;
    hide Fair;
    hide Purposeful;
    StepsLeftShrink(p, s, e);
    FinishableKept(p, s, e);
    SoundKept(p, s, e);
  }

  // ---------- completing a run ----------

  lemma NextStep(p: Plan, s: State) returns (e: Event)
    requires Feasible(p) && Workable(p) && Sound(p, s) && Finishable(p, s) && !s.finalized
    ensures Enabled(p, s, e) && Sound(p, Apply(p, s, e)) && Finishable(p, Apply(p, s, e))
    ensures StepsLeft(p, Apply(p, s, e)) < StepsLeft(p, s)
  {
    hide Inv;
    hide PollersLeft;
    hide FailuresKept;
    hide MarkInv;
    hide Finishable;
    hide Workable;
    hide StepsLeft;
    hide ValidPlan;
    hide Acyclic;
    hide Startable;
    hide Enabled;
    hide Apply;
    hide Useful;
    hide Fair;
    hide Purposeful;
    NeverStuck(p, s, true);
    e :| Enabled(p, s, e) && Useful(p, s, e, true) && Fair(p, s, e) && Purposeful(p, e);
    GuidedStep(p, s, e);
  }

  /** From a finishable state a deployment can be brought to its end. */
  lemma {:induction false} CanFinish(p: Plan, s: State) returns (states: seq<State>, events: seq<Event>)
    requires Feasible(p) && Workable(p) && Sound(p, s) && Finishable(p, s)
    ensures Continues(p, s, states, events) && states[|events|].finalized
    decreases StepsLeft(p, s)
  {
    hide Feasible;
    hide Workable;
    hide Sound;
    hide Finishable;
    hide StepsLeft;
    hide Enabled;
    hide Apply;
    if s.finalized {
      states, events := [s], [];
    } else {
      var e := NextStep(p, s);
      var later, rest := CanFinish(p, Apply(p, s, e));
      states, events := [s] + later, [e] + rest;
      forall i | 0 <= i < |events| ensures Enabled(p, states[i], events[i]) && states[i + 1] == Apply(p, states[i], events[i]) {
        if i > 0 { assert states[i] == later[i - 1] && events[i] == rest[i - 1]; }
      }
    }
  }

  lemma FeasibleIsWorkable(p: Plan)
    requires Feasible(p)
    ensures Workable(p)
  {
    ReverseAcyclic(p);
  }

  // ---------- whole runs ----------

  /** Every run in which nothing that is still to be started requires a hopeless failure, unless it is about to be started all
      the same, can be continued to its end, wherever it has got to. */
  lemma EveryRunCanFinish(p: Plan, states: seq<State>, events: seq<Event>, i: nat) returns (more: seq<State>,
                          rest: seq<Event>)
    requires Feasible(p) && IsRun(p, states, events) && i < |states| && Finishable(p, states[i])
    ensures Continues(p, states[i], more, rest) && more[|rest|].finalized
  {
    hide IsRun;
    hide ValidPlan;
    hide Acyclic;
    hide Startable;
    hide Sound;
    hide Finishable;
    SoundInRun(p, states, events, i);
    FeasibleIsWorkable(p);
    more, rest := CanFinish(p, states[i]);
  }

  /** From such a state no continuation by guided steps goes on for ever, whatever order they come in: its length is bounded,
      and where no further guided step is possible the deployment has ended. */
  lemma GuidedRunsEnd(p: Plan, states: seq<State>, events: seq<Event>, i: nat, more: seq<State>, rest: seq<Event>)
    requires Feasible(p) && Workable(p) && IsRun(p, states, events) && i < |states| && Finishable(p, states[i])
    requires Continues(p, states[i], more, rest) && Guided(p, more, rest)
    ensures |rest| <= StepsLeft(p, states[i]) && (more[|rest|].finalized || CanGoOn(p, more[|rest|], true))
  {
    hide IsRun;
    hide ValidPlan;
    hide Acyclic;
    hide Startable;
    hide Inv;
    hide PollersLeft;
    hide MarkInv;
    hide FailuresKept;
    hide Finishable;
    hide Workable;
    hide StepsLeft;
    hide CanGoOn;
    hide Guided;
    SoundInRun(p, states, events, i);
    GuidedSoFar(p, states[i], more, rest, |rest|);
    if !more[|rest|].finalized { NeverStuck(p, more[|rest|], true); }
  }

  /** A deployment can reach its end at all exactly when every resource with requirements has one with a retry count of at
      least one. */
  lemma FinishesIffStartable(p: Plan)
    requires ValidPlan(p) && Acyclic(p.needs) && p.onErrorEdges == {}
    ensures (exists states: seq<State>, events: seq<Event> :: IsRun(p, states, events) && states[|events|].finalized) <==>
      Startable(p)
  {
    hide ValidPlan;
    hide Acyclic;
    if Startable(p) {
      hide Startable;
      NothingLostAtStart(p);
      assert Continues(p, Init(p), [Init(p)], []);
      assert IsRun(p, [Init(p)], []);
      var states, events := EveryRunCanFinish(p, [Init(p)], [], 0);
      assert IsRun(p, states, events);
    } else {
      var k :| k in p.needs && p.needs[k] != [] && forall q :: q in p.needs[k] ==> !WillTry(p, q);
      assert Stranded(p, k);
      hide Startable;
      hide IsRun;
      forall states: seq<State>, events: seq<Event> | IsRun(p, states, events) ensures !states[|events|].finalized {
        RunEnds(p, states, events);
        StrandedNeverFinishes(p, states, events, |events|, k);
      }
    }
  }

  lemma RunEnds(p: Plan, states: seq<State>, events: seq<Event>)
    requires IsRun(p, states, events)
    ensures |states| == |events| + 1
  {
  }

  lemma NothingLostAtStart(p: Plan)
    ensures Finishable(p, Init(p))
  {
    hide Curable;
  }
}
