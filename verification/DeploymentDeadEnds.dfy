/** Failures that keep a deployment from ending, and exactly when one can still be completed. */
module DeploymentDeadEnds {
  import opened Dependencies
  import opened Graphs
  import opened Deployment
  import opened DeploymentSafety
  import opened DeploymentProgress
  import opened DeploymentIgnore
  import opened DeploymentCompletion

  // ---------- a hopeless failure keeps a deployment from ending ----------

  /** The request under way has not got past requirement `j`, or has read its failure, or is about to be refused anyway. */
  predicate NotPast(c: Option<Check>, j: nat) {
    c.Some? ==>
      || c.value.seen == Some(Answer(false, false))
      || (c.value.next <= j && (c.value.next == j && c.value.seen.Some? ==> c.value.seen.value.err))
  }

  ghost predicate HeldUp(p: Plan, s: State, c: string, j: nat) {
    && c in s.res && c in p.needs && j < |p.needs[c]| && !s.res[c].started
    && Hopeless(p, s, p.needs[c][j]) && NotPast(s.res[c].lock, j)
  }

  /** No worker gains the ability to spread a failure. */
  lemma SpreadNotGained(p: Plan, s: State, e: Event, h: string)
    requires Inv(p, s) && PollersLeft(p, s) && Enabled(p, s, e) && CanSpread(p, Apply(p, s, e), h)
    ensures CanSpread(p, s, h)
  {
    hide Inv;
    if e.Attempt? {
      assert PollersOk(p, s, e.k);
      SpreadNotGainedByAttempt(p, s, e.k, e.action, h);
    } else if e.Mark? {
      SpreadNotGainedByMark(p, s, e.k, h);
    } else if e.CheckStatus? {
      SpreadNotGainedByCheck(p, s, e.k, e.answer, h);
    } else {
      hide Apply;
      SpreadElsewhere(p, s, e, h);
    }
  }

  lemma SpreadNotGainedByAttempt(p: Plan, s: State, k: string, a: Action, h: string)
    requires Enabled(p, s, Attempt(k, a)) && PollersOk(p, s, k) && CanSpread(p, DoAttempt(p, s, k, a), h)
    ensures CanSpread(p, s, h)
  {
    if k == h {
      hide NextAttempt;
    } else {
      hide Act;
      hide CanAct;
    }
  }

  lemma SpreadNotGainedByMark(p: Plan, s: State, k: string, h: string)
    requires Enabled(p, s, Mark(k)) && CanSpread(p, DoMark(p, s, k), h)
    ensures CanSpread(p, s, h)
  {
  }

  lemma SpreadNotGainedByCheck(p: Plan, s: State, k: string, answer: Answer, h: string)
    requires Enabled(p, s, CheckStatus(k, answer)) && CanSpread(p, DoCheckStatus(p, s, k, answer), h)
    ensures CanSpread(p, s, h)
  {
  }

  /** A hopeless failure stays one. */
  lemma HopelessStays(p: Plan, s: State, e: Event, q: string)
    requires Inv(p, s) && PollersLeft(p, s) && MarkInv(p, s) && Enabled(p, s, e) && Hopeless(p, s, q)
    ensures Hopeless(p, Apply(p, s, e), q)
  {
    hide PollersLeft;
    hide Curable;
    LostStays(p, s, e, q);
    hide Inv;
    hide MarkInv;
    hide Apply;
    NotCured(p, s, e, q);
  }

  lemma NotCured(p: Plan, s: State, e: Event, q: string)
    requires Inv(p, s) && PollersLeft(p, s) && Enabled(p, s, e) && !Curable(p, s, q)
    ensures !Curable(p, Apply(p, s, e), q)
  {
    hide Inv;
    hide PollersLeft;
    hide Apply;
    hide CanSpread;
    forall h | Reach(p.neededBy, h, q) ensures !CanSpread(p, Apply(p, s, e), h) {
      if CanSpread(p, Apply(p, s, e), h) { SpreadNotGained(p, s, e, h); }
    }
  }

  lemma LostStays(p: Plan, s: State, e: Event, q: string)
    requires Inv(p, s) && MarkInv(p, s) && Enabled(p, s, e) && Hopeless(p, s, q)
    ensures q in Apply(p, s, e).res && Lost(Apply(p, s, e).res[q])
  {
    hide Curable;
    hide Semaphore;
    hide StartOrder;
    hide DoCheckStatus;
    hide DoMark;
    hide DoAttempt;
    if e.Attempt? {
      hide Shape;
      hide Channels;
      hide MarkInv;
      LostStaysByAttempt(p, s, e.k, e.action, q);
    } else if e.Mark? {
      hide Shape;
      hide Channels;
      LostStaysByMark(p, s, e.k, q);
    } else if e.CheckStatus? {
      hide Shape;
      hide Channels;
      hide MarkInv;
      LostStaysByCheck(p, s, e.k, e.answer, q);
    } else {
      hide MarkInv;
      LostStaysElsewhere(p, s, e, q);
    }
  }

  lemma LostStaysByAttempt(p: Plan, s: State, k: string, a: Action, q: string)
    requires Enabled(p, s, Attempt(k, a)) && q in s.res && Lost(s.res[q])
    ensures q in DoAttempt(p, s, k, a).res && Lost(DoAttempt(p, s, k, a).res[q])
  {
    hide Act;
  }

  /** Only a worker that is marking, above the failure, could mark it. */
  lemma LostStaysByMark(p: Plan, s: State, k: string, q: string)
    requires MarkInv(p, s) && Enabled(p, s, Mark(k)) && Hopeless(p, s, q)
    ensures q in DoMark(p, s, k).res && Lost(DoMark(p, s, k).res[q])
  {
    assert Below(p, s, k);
    var h := s.res[k].phase.todo[0];
    assert h in s.res[k].phase.todo && Reach(p.neededBy, k, h) && CanSpread(p, s, k);
    assert h != q;
  }

  lemma LostStaysByCheck(p: Plan, s: State, k: string, answer: Answer, q: string)
    requires Enabled(p, s, CheckStatus(k, answer)) && q in s.res && Lost(s.res[q])
    ensures q in DoCheckStatus(p, s, k, answer).res && Lost(DoCheckStatus(p, s, k, answer).res[q])
  {
  }

  lemma LostStaysElsewhere(p: Plan, s: State, e: Event, q: string)
    requires Shape(p, s) && Channels(p, s) && Enabled(p, s, e) && !e.Attempt? && !e.Mark? && !e.CheckStatus?
    requires q in s.res && Lost(s.res[q])
    ensures q in Apply(p, s, e).res && Lost(Apply(p, s, e).res[q])
  {
    assert ResourceOkAt(p, s, q);
    hide Shape;
    hide Lost;
    if e.Dispatch? {
      LostStaysByDispatch(p, s, q);
    } else {
      hide Channels;
      LostStaysByRest(p, s, e, q);
    }
  }

  lemma LostStaysByDispatch(p: Plan, s: State, q: string)
    requires Channels(p, s) && Enabled(p, s, Dispatch) && q in s.res && Lost(s.res[q])
    ensures q in DoDispatch(s).res && Lost(DoDispatch(s).res[q])
  {
    assert s.toCreate[0] in s.toCreate;
    hide Channels;
  }

  lemma LostStaysByRest(p: Plan, s: State, e: Event, q: string)
    requires Enabled(p, s, e) && !e.Attempt? && !e.Mark? && !e.CheckStatus? && !e.Dispatch?
    requires q in s.res && Lost(s.res[q]) && ResourceOkAt(p, s, q)
    ensures q in Apply(p, s, e).res && Lost(Apply(p, s, e).res[q])
  {
    hide DoDispatch;
    hide DoAttempt;
    hide DoMark;
    hide DoCheckStatus;
  }

  /** Who requires it is not started: each request reads the failure and is refused. */
  lemma HeldUpStays(p: Plan, s: State, e: Event, c: string, j: nat)
    requires ValidPlan(p) && p.onErrorEdges == {} && Sound(p, s) && Enabled(p, s, e) && HeldUp(p, s, c, j)
    ensures HeldUp(p, Apply(p, s, e), c, j)
  {
    hide MarkInv;
    hide PollersLeft;
    hide FailuresKept;
    hide Inv;
    hide ValidPlan;
    hide Apply;
    hide Enabled;
    hide NotPast;
    HopelessStays(p, s, e, p.needs[c][j]);
    hide Hopeless;
    LockStaysBehind(p, s, e, c, j);
  }

  lemma LockStaysBehind(p: Plan, s: State, e: Event, c: string, j: nat)
    requires ValidPlan(p) && p.onErrorEdges == {} && Inv(p, s) && Enabled(p, s, e) && HeldUp(p, s, c, j)
    ensures c in Apply(p, s, e).res && !Apply(p, s, e).res[c].started && NotPast(Apply(p, s, e).res[c].lock, j)
  {
    hide Channels;
    hide Semaphore;
    hide StartOrder;
    hide ValidPlan;
    hide Curable;
    assert ResourceOkAt(p, s, c);
    hide Shape;
    hide NotPast;
    hide ResourceOkAt;
    if e.CheckStatus? {
      ReadsFailure(p, s, e.k, e.answer, c, j);
    } else if e.CheckVerdict? {
      RefusedForFailure(p, s, e.k, c, j);
    } else if e.Attempt? {
      AttemptKeepsLock(p, s, e.k, e.action, c);
    } else if e.Mark? {
      MarkKeepsLock(p, s, e.k, c);
    } else {
      NoOneElsePasses(p, s, e, c, j);
    }
  }

  lemma NoOneElsePasses(p: Plan, s: State, e: Event, c: string, j: nat)
    requires ResourceOkAt(p, s, c) && !s.res[c].started && j < |p.needs[c]| && NotPast(s.res[c].lock, j)
    requires Enabled(p, s, e) && !e.CheckStatus? && !e.CheckVerdict? && !e.Attempt? && !e.Mark?
    ensures c in Apply(p, s, e).res && !Apply(p, s, e).res[c].started && NotPast(Apply(p, s, e).res[c].lock, j)
  {
    hide DoCheckStatus;
    hide DoCheckVerdict;
    hide DoAttempt;
    hide DoMark;
  }

  lemma ReadsFailure(p: Plan, s: State, k: string, answer: Answer, c: string, j: nat)
    requires Enabled(p, s, CheckStatus(k, answer)) && HeldUp(p, s, c, j)
    ensures var r := DoCheckStatus(p, s, k, answer).res; c in r && !r[c].started && NotPast(r[c].lock, j)
  {
    hide Curable;
  }

  lemma RefusedForFailure(p: Plan, s: State, k: string, c: string, j: nat)
    requires p.onErrorEdges == {} && Enabled(p, s, CheckVerdict(k)) && HeldUp(p, s, c, j)
    ensures var r := DoCheckVerdict(p, s, k).res; c in r && !r[c].started && NotPast(r[c].lock, j)
  {
    hide Curable;
  }

  lemma AttemptKeepsLock(p: Plan, s: State, k: string, a: Action, c: string)
    requires Enabled(p, s, Attempt(k, a)) && c in s.res
    ensures var r := DoAttempt(p, s, k, a).res; c in r && r[c].started == s.res[c].started && r[c].lock == s.res[c].lock
  {
    StartedUnchanged(p, k, s.res[k], a);
    ActKeepsStage(p, k, s.res[k], a);
    hide Act;
    hide CanAct;
  }

  lemma MarkKeepsLock(p: Plan, s: State, k: string, c: string)
    requires Enabled(p, s, Mark(k)) && c in s.res
    ensures var r := DoMark(p, s, k).res; c in r && r[c].started == s.res[c].started && r[c].lock == s.res[c].lock
  {
  }

  lemma {:induction false} HeldUpNeverFinishes(p: Plan, s: State, states: seq<State>, events: seq<Event>, c: string,
                                               j: nat, n: nat)
    requires ValidPlan(p) && p.onErrorEdges == {} && Sound(p, s) && HeldUp(p, s, c, j)
    requires Continues(p, s, states, events) && n < |states|
    ensures Sound(p, states[n]) && HeldUp(p, states[n], c, j) && !states[n].finalized
  {
    hide Sound;
    hide HeldUp;
    hide ValidPlan;
    hide Enabled;
    hide Apply;
    if n > 0 {
      HeldUpNeverFinishes(p, s, states, events, c, j, n - 1);
      HeldUpStays(p, states[n - 1], events[n - 1], c, j);
      SoundKept(p, states[n - 1], events[n - 1]);
      assert states[n - 1 + 1] == Apply(p, states[n - 1], events[n - 1]);
    }
    HeldUpUnfinished(p, states[n], c, j);
  }

  lemma HeldUpUnfinished(p: Plan, s: State, c: string, j: nat)
    requires ValidPlan(p) && Sound(p, s) && HeldUp(p, s, c, j)
    ensures !s.finalized
  {
    hide PollersLeft;
    hide FailuresKept;
    hide MarkInv;
    hide Hopeless;
    UnstartedUnfinished(p, s, c);
  }

  // ---------- the exact condition ----------

  /** Each request under way for a resource that requires a hopeless failure either is held up by one, or meets only finished
      requirements from here on. */
  ghost predicate Decided(p: Plan, s: State) {
    forall c, q :: c in s.res && c in p.needs && !s.res[c].started && q in p.needs[c] && Hopeless(p, s, q) ==>
      Succeeding(p, s, c) || exists j: nat :: HeldUp(p, s, c, j)
  }

  /** A resource still to be started requires a hopeless failure. */
  ghost predicate NeedsHopeless(p: Plan, s: State, c: string) {
    c in s.res && c in p.needs && !s.res[c].started && exists q :: q in p.needs[c] && Hopeless(p, s, q)
  }

  lemma UnrequestedIsDecided(p: Plan, s: State)
    requires forall c :: NeedsHopeless(p, s, c) ==> s.res[c].lock.None?
    ensures Decided(p, s) && (Finishable(p, s) <==> forall c :: !NeedsHopeless(p, s, c))
  {
    hide Hopeless;
    hide WellFrom;
    forall c, q | c in s.res && c in p.needs && !s.res[c].started && q in p.needs[c] && Hopeless(p, s, q)
      ensures !Succeeding(p, s, c) && exists j: nat :: HeldUp(p, s, c, j)
    {
      assert NeedsHopeless(p, s, c);
      var j :| 0 <= j < |p.needs[c]| && p.needs[c][j] == q;
      assert HeldUp(p, s, c, j);
    }
  }

  /** Wherever a run has got to, it can be continued to its end if and only if nothing that is still to be started requires a
      hopeless failure, one that timed out in its last attempt and is neither ignored nor can become so, unless a request that
      got past the failure is about to start it. What this does not cover is a request that got past a hopeless failure but
      still meets an unfinished or curable requirement. */
  lemma CanFinishIff(p: Plan, states: seq<State>, events: seq<Event>, i: nat)
    requires Feasible(p) && IsRun(p, states, events) && i < |states| && Decided(p, states[i])
    ensures (exists more: seq<State>, rest: seq<Event> :: Continues(p, states[i], more, rest) && more[|rest|].finalized) <==>
      Finishable(p, states[i])
  {
    hide IsRun;
    hide ValidPlan;
    hide Acyclic;
    hide Startable;
    hide Sound;
    hide Hopeless;
    hide Succeeding;
    var s := states[i];
    if Finishable(p, s) {
      var more, rest := EveryRunCanFinish(p, states, events, i);
    } else {
      SoundInRun(p, states, events, i);
      var c, q :| c in s.res && c in p.needs && !s.res[c].started && q in p.needs[c] && Hopeless(p, s, q) && !Succeeding(p, s, c);
      var j: nat :| HeldUp(p, s, c, j);
      hide HeldUp;
      hide Continues;
      forall more: seq<State>, rest: seq<Event> | Continues(p, s, more, rest) ensures !more[|rest|].finalized {
        ContinuesLength(p, s, more, rest);
        HeldUpNeverFinishes(p, s, more, rest, c, j, |rest|);
      }
    }
  }

  /** In particular, where nobody is just being requested who requires a hopeless failure, a run can be continued to its end if
      and only if nobody still to be started requires one at all. */
  lemma UnrequestedCanFinishIff(p: Plan, states: seq<State>, events: seq<Event>, i: nat)
    requires Feasible(p) && IsRun(p, states, events) && i < |states|
    requires forall c :: NeedsHopeless(p, states[i], c) ==> states[i].res[c].lock.None?
    ensures (exists more: seq<State>, rest: seq<Event> :: Continues(p, states[i], more, rest) && more[|rest|].finalized) <==>
      forall c :: !NeedsHopeless(p, states[i], c)
  {
    hide IsRun;
    hide Feasible;
    hide Finishable;
    hide NeedsHopeless;
    hide Continues;
    UnrequestedIsDecided(p, states[i]);
    CanFinishIff(p, states, events, i);
  }

  lemma ContinuesLength(p: Plan, s: State, states: seq<State>, events: seq<Event>)
    requires Continues(p, s, states, events)
    ensures |states| == |events| + 1
  {
  }
}
