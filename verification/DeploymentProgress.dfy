/** A deployment cannot get stuck. */
module DeploymentProgress {
  import opened Graphs
  import opened Deployment
  import opened DeploymentSafety
  import opened DeploymentWork

  // ---------- every started worker leaves pollers behind ----------

  predicate Numbered(phase: Phase) {
    match phase
    case Resetting(n) => n >= 1
    case Deleting(n) => n >= 1
    case Checking(n) => n >= 1
    case Creating(n) => n >= 1
    case Polling(n) => n >= 1
    case _ => true
  }

  /** Past the point where the first attempt starts the pollers. */
  predicate Spawned(phase: Phase) {
    !(phase.Idle? || phase.Queued? || phase.Waiting? || phase.Spawning? || (phase.Resetting? && phase.n == 1))
  }

  /** A resource with a retry count below one is never attempted, and it is in the first attempt that pollers start. */
  predicate WillTry(p: Plan, k: string) {
    k in p.attempts && p.attempts[k] >= 1
  }

  predicate Untried(phase: Phase) {
    phase.Idle? || phase.Queued? || phase.Waiting? || phase.Reporting? || phase.Releasing? || phase.Gone?
  }

  ghost predicate PollersOk(p: Plan, s: State, k: string)
    requires k in s.res
  {
    && Numbered(s.res[k].phase)
    && (if WillTry(p, k) then
          Spawned(s.res[k].phase) ==>
            forall c :: Edge(p.neededBy, k, c) ==> (k, c) in s.pollers || (c in s.res && s.res[c].started)
        else
          Untried(s.res[k].phase) && forall c :: Edge(p.neededBy, k, c) ==> (k, c) !in s.pollers)
  }

  /** The phase may follow as far as the pollers are concerned. */
  predicate Follows(p: Plan, k: string, from: Phase, to: Phase) {
    Numbered(to) && if WillTry(p, k) then Spawned(to) ==> Spawned(from) else Untried(from) ==> Untried(to)
  }

  ghost predicate PollersLeft(p: Plan, s: State) {
    forall k :: k in s.res ==> PollersOk(p, s, k)
  }

  /** Pollers end only once their target is started. */
  ghost predicate PollersServed(s: State, s': State) {
    && s'.res.Keys == s.res.Keys && s'.pollers <= s.pollers
    && (forall k :: k in s.res && s.res[k].started ==> s'.res[k].started)
    && (forall a, c :: (a, c) in s.pollers && (a, c) !in s'.pollers ==> c in s'.res && s'.res[c].started)
  }

  lemma PollersOneChanged(p: Plan, s: State, s': State, k: string)
    requires PollersLeft(p, s) && PollersServed(s, s') && k in s.res && k in s'.res && s'.res == s.res[k := s'.res[k]]
    requires Follows(p, k, s.res[k].phase, s'.res[k].phase)
    ensures PollersLeft(p, s')
  {
    forall j | j in s'.res ensures PollersOk(p, s', j) {
      assert PollersOk(p, s, j);
    }
  }

  lemma FailureNumbers(p: Plan, k: string, r: Res, n: int)
    requires k in p.attempts && k in p.policy && n >= 1
    ensures var r' := AfterFailure(p, k, r, n);
      Numbered(r'.phase) && Spawned(r'.phase) && r'.started == r.started
  {
    var r' := AfterFailure(p, k, r, n);
    assert r'.phase == Resetting(n + 1) || r'.phase == Reporting || r'.phase == Marking([k]);
  }

  lemma ActNumbers(p: Plan, k: string, r: Res, a: Action)
    requires k in p.attempts && k in p.policy && CanAct(r, a) && Numbered(r.phase)
    ensures Numbered(Act(p, k, r, a).phase) && (Spawned(Act(p, k, r, a).phase) ==> Spawned(r.phase))
    ensures Act(p, k, r, a).started == r.started
  {
    match a {
      case Poll(answer) =>
        FailureNumbers(p, k, Cached(r, answer), r.phase.n);
        hide AfterFailure;
      case Timeout =>
        FailureNumbers(p, k, r.(failed := true), r.phase.n);
        hide AfterFailure;
      case _ =>
    }
  }

  lemma PollersSpawn(p: Plan, s: State, k: string)
    requires PollersLeft(p, s) && Enabled(p, s, SpawnPollers(k))
    ensures PollersLeft(p, DoSpawn(p, s, k))
  {
    var s' := DoSpawn(p, s, k);
    forall j | j in s'.res ensures PollersOk(p, s', j) {
      assert PollersOk(p, s, j);
    }
  }

  lemma PollersAttempt(p: Plan, s: State, k: string, a: Action)
    requires PollersLeft(p, s) && Enabled(p, s, Attempt(k, a))
    ensures PollersLeft(p, DoAttempt(p, s, k, a))
  {
    assert PollersOk(p, s, k);
    ActNumbers(p, k, s.res[k], a);
    hide Act;
    hide CanAct;
    PollersOneChanged(p, s, DoAttempt(p, s, k, a), k);
  }

  lemma PollersTwo(p: Plan, s: State, s1: State, s': State, a: string, b: string)
    requires PollersLeft(p, s) && a in s.res && a in s1.res && s1 == Set(s, a, s1.res[a])
    requires b in s.res && b in s'.res && s' == Set(s1, b, s'.res[b])
    requires s1.res[a].phase == s.res[a].phase && s1.res[a].started == s.res[a].started
    requires Follows(p, b, s1.res[b].phase, s'.res[b].phase) && s'.res[b].started == s1.res[b].started
    ensures PollersLeft(p, s')
  {
    assert PollersOk(p, s, a);
    PollersOneChanged(p, s, s1, a);
    PollersOneChanged(p, s1, s', b);
  }

  lemma PollersMark(p: Plan, s: State, k: string)
    requires PollersLeft(p, s) && CanMark(p, s, k)
    ensures PollersLeft(p, DoMark(p, s, k))
  {
    var h := s.res[k].phase.todo[0];
    var s1 := Set(s, h, s.res[h].(ignored := true));
    PollersTwo(p, s, s1, DoMark(p, s, k), h, k);
  }

  lemma PollersCheckStatus(p: Plan, s: State, k: string, answer: Answer)
    requires PollersLeft(p, s) && LooksAt(p, s, k)
    ensures PollersLeft(p, DoCheckStatus(p, s, k, answer))
  {
    var q := Target(p, s, k);
    assert PollersOk(p, s, k);
    var s1 := Set(s, q, Cached(s.res[q], answer));
    PollersTwo(p, s, s1, DoCheckStatus(p, s, k, answer), q, k);
  }

  lemma PollersSame(p: Plan, s: State, s': State)
    requires PollersLeft(p, s) && PollersServed(s, s') && s'.res == s.res
    ensures PollersLeft(p, s')
  {
    forall j | j in s'.res ensures PollersOk(p, s', j) {
      assert PollersOk(p, s, j);
    }
  }

  /** The other steps on one resource. */
  lemma PollersStage(p: Plan, s: State, e: Event)
    requires PollersLeft(p, s) && Enabled(p, s, e)
    requires e.Acquire? || e.Report? || e.Release?
    ensures PollersLeft(p, Apply(p, s, e))
  {
    assert PollersOk(p, s, e.k);
    PollersOneChanged(p, s, Apply(p, s, e), e.k);
  }

  /** A step that leaves the phase of its resource alone. */
  lemma PollersUntouched(p: Plan, s: State, s': State, k: string)
    requires PollersLeft(p, s) && k in s.res && k in s'.res && s' == Set(s, k, s'.res[k])
    requires s'.res[k].phase == s.res[k].phase && s'.res[k].started == s.res[k].started
    ensures PollersLeft(p, s')
  {
    assert PollersOk(p, s, k);
    hide PollersLeft;
    PollersOneChanged(p, s, s', k);
  }

  lemma PollersRequest(p: Plan, s: State, e: Event)
    requires PollersLeft(p, s) && Enabled(p, s, e)
    requires e.BeginCheck? || e.CheckVerdict? || e.Observe?
    ensures PollersLeft(p, Apply(p, s, e))
  {
    hide PollersLeft;
    if e.BeginCheck? {
      PollersUntouched(p, s, DoBeginCheck(s, e.parent, e.k), e.k);
    } else if e.CheckVerdict? {
      PollersUntouched(p, s, DoCheckVerdict(p, s, e.k), e.k);
    } else {
      PollersUntouched(p, s, Set(s, e.k, Cached(s.res[e.k], e.answer)), e.k);
    }
  }

  lemma PollersStartChecked(p: Plan, s: State, k: string)
    requires PollersLeft(p, s) && Shape(p, s) && Enabled(p, s, StartChecked(k))
    ensures PollersLeft(p, DoStartChecked(s, k))
  {
    assert ResourceOk(p, s, k) && PollersOk(p, s, k);
    hide Shape;
    hide PollersLeft;
    PollersOneChanged(p, s, DoStartChecked(s, k), k);
  }

  lemma PollersRootVisit(p: Plan, s: State, k: string)
    requires PollersLeft(p, s) && Shape(p, s) && Enabled(p, s, RootVisit(k))
    ensures PollersLeft(p, DoRootVisit(p, s, k))
  {
    assert ResourceOk(p, s, k);
    if p.needs[k] == [] && !s.res[k].started {
      PollersOneChanged(p, s, DoRootVisit(p, s, k), k);
    } else {
      PollersSame(p, s, DoRootVisit(p, s, k));
    }
  }

  lemma PollersDispatch(p: Plan, s: State)
    requires PollersLeft(p, s) && Enabled(p, s, Dispatch)
    ensures PollersLeft(p, DoDispatch(s))
  {
    PollersOneChanged(p, s, DoDispatch(s), s.toCreate[0]);
  }

  lemma PollersKept(p: Plan, s: State, e: Event)
    requires PollersLeft(p, s) && Inv(p, s) && Enabled(p, s, e)
    ensures PollersLeft(p, Apply(p, s, e))
  {
    hide PollersLeft;
    hide Shape;
    hide Channels;
    hide Semaphore;
    hide StartOrder;
    if e.RootVisit? {
      PollersRootVisit(p, s, e.k);
    } else if e.Dispatch? {
      PollersDispatch(p, s);
    } else if e.Attempt? {
      PollersAttempt(p, s, e.k, e.action);
    } else if e.SpawnPollers? {
      PollersSpawn(p, s, e.k);
    } else if e.Mark? {
      PollersMark(p, s, e.k);
    } else if e.CheckStatus? {
      PollersCheckStatus(p, s, e.k, e.answer);
    } else if e.PollerDone? || e.Receive? || e.Finalize? {
      PollersSame(p, s, Apply(p, s, e));
    } else if e.StartChecked? {
      PollersStartChecked(p, s, e.k);
    } else if e.Acquire? || e.Report? || e.Release? {
      PollersStage(p, s, e);
    } else {
      PollersRequest(p, s, e);
    }
  }

  lemma {:induction false} PollersInRun(p: Plan, states: seq<State>, events: seq<Event>, i: nat)
    requires ValidPlan(p) && IsRun(p, states, events) && i < |states|
    ensures PollersLeft(p, states[i])
  {
    hide Inv;
    hide ValidPlan;
    if i > 0 {
      PollersInRun(p, states, events, i - 1);
      InvInRun(p, states, events, i - 1);
      hide PollersLeft;
      hide Enabled;
      hide Apply;
      PollersKept(p, states[i - 1], events[i - 1]);
      assert states[i - 1 + 1] == Apply(p, states[i - 1], events[i - 1]);
    }
  }

  // ---------- nothing gets stuck ----------

  /** Whatever has requirements has one that is attempted at all. */
  ghost predicate Startable(p: Plan) {
    forall k :: k in p.needs && p.needs[k] != [] ==> exists q :: q in p.needs[k] && WillTry(p, q)
  }

  /** A finished resource answers ready, or answers an error while being ignored. */
  predicate GoodAnswer(r: Res, answer: Answer) {
    if answer.err then r.ignored else answer.ready
  }

  /** The step does not rely on a bad answer from a finished resource. */
  predicate Fair(p: Plan, s: State, e: Event)
    requires Enabled(p, s, e)
  {
    match e
    case CheckStatus(k, answer) => Reported(s.res[Target(p, s, k)]) ==> GoodAnswer(s.res[Target(p, s, k)], answer)
    case _ => true
  }

  ghost predicate AllReported(p: Plan, s: State, k: string)
    requires k in p.needs
  {
    forall q :: q in p.needs[k] ==> q in s.res && Reported(s.res[q])
  }

  /** The worker has nothing left but to report. */
  predicate Over(phase: Phase) {
    phase.Reporting? || phase.Releasing? || phase.Gone?
  }

  /** The resource has ended in a timeout that is not ignored. After an error instead, its status is asked for again. */
  predicate Lost(r: Res) {
    Over(r.phase) && r.failed && !r.ignored
  }

  ghost predicate AllWell(p: Plan, s: State, k: string)
    requires k in p.needs
  {
    AllReported(p, s, k) && forall q :: q in p.needs[k] && q in s.res ==> !Lost(s.res[q])
  }

  /** The worker may yet mark everything below it as ignored, or is about to. */
  predicate CanSpread(p: Plan, s: State, h: string) {
    h in s.res && (s.res[h].phase.Marking? ||
      (h in p.policy && p.policy[h].IgnoreAll? && WillTry(p, h) && !Over(s.res[h].phase)))
  }

  /** A failure that may yet be ignored because of a failure at or above it. */
  ghost predicate Curable(p: Plan, s: State, q: string) {
    exists h :: CanSpread(p, s, h) && Reach(p.neededBy, h, q)
  }

  ghost predicate Hopeless(p: Plan, s: State, q: string) {
    q in s.res && Lost(s.res[q]) && !Curable(p, s, q)
  }

  /** From the `n`-th on, all requirements have finished, none of them lost. */
  ghost predicate WellFrom(p: Plan, s: State, k: string, n: nat)
    requires k in p.needs
  {
    forall i :: n <= i < |p.needs[k]| ==>
      p.needs[k][i] in s.res && Reported(s.res[p.needs[k][i]]) && !Lost(s.res[p.needs[k][i]])
  }

  lemma AllWellFrom(p: Plan, s: State, k: string, n: nat)
    requires k in p.needs && AllWell(p, s, k)
    ensures WellFrom(p, s, k, n)
  {
    forall i | n <= i < |p.needs[k]|
      ensures p.needs[k][i] in s.res && Reported(s.res[p.needs[k][i]]) && !Lost(s.res[p.needs[k][i]])
    {
      assert p.needs[k][i] in p.needs[k];
    }
  }

  /** A request under way that meets only finished requirements from here on, with nothing bad in hand. */
  ghost predicate Succeeding(p: Plan, s: State, k: string) {
    && k in s.res && k in p.needs && s.res[k].lock.Some? && WellFrom(p, s, k, s.res[k].lock.value.next)
    && (s.res[k].lock.value.seen.Some? && s.res[k].lock.value.next < |p.needs[k]| ==>
          !Blocks(false, s.res[k].lock.value.seen.value, s.res[p.needs[k][s.res[k].lock.value.next]].ignored))
  }

  /** What is still to be started requires no hopeless failure, or a request that got past it is about to start it. */
  ghost predicate Finishable(p: Plan, s: State) {
    forall c, q :: c in s.res && c in p.needs && !s.res[c].started && q in p.needs[c] && Hopeless(p, s, q) ==>
      Succeeding(p, s, c)
  }

  /** A step that gets the deployment on, or the next move of a request that is under way, or a new request for a resource
      all of whose requirements have finished; a strict choice asks that none of them is lost. */
  ghost predicate Useful(p: Plan, s: State, e: Event, strict: bool)
    requires Enabled(p, s, e)
  {
    || Works(p, s, e) || e.CheckStatus? || e.CheckVerdict?
    || (e.BeginCheck? && if strict then AllWell(p, s, e.k) else AllReported(p, s, e.k))
  }

  /** Within attempts: what may spread its failure fails, and everything else succeeds. */
  predicate Purposeful(p: Plan, e: Event) {
    e.Attempt? ==>
      && (e.action.Create? ==> e.action.ok)
      && (e.action.Poll? ==> e.action.answer == Answer(true, false) && e.k in p.policy && !p.policy[e.k].IgnoreAll?)
      && (e.action.Timeout? ==> e.k in p.policy && p.policy[e.k].IgnoreAll?)
  }

  ghost predicate CanGoOn(p: Plan, s: State, strict: bool) {
    exists e :: Enabled(p, s, e) && Useful(p, s, e, strict) && Fair(p, s, e) && Purposeful(p, e)
  }

  lemma Goes(p: Plan, s: State, e: Event, strict: bool)
    requires Enabled(p, s, e) && Useful(p, s, e, strict) && Fair(p, s, e) && Purposeful(p, e)
    ensures CanGoOn(p, s, strict)
  {
  }

  /** Whoever holds a lock can move, possibly after a lock further down: locks are taken along the requirements. */
  lemma {:induction false} LockMoves(p: Plan, s: State, k: string, strict: bool)
    requires ValidPlan(p) && Acyclic(p.needs) && Shape(p, s) && k in s.res && s.res[k].lock.Some?
    ensures CanGoOn(p, s, strict)
    decreases Rank(p.needs, k)
  {
    hide CanGoOn;
    hide Acyclic;
    assert ResourceOk(p, s, k);
    var c := s.res[k].lock.value;
    if c.next == |p.needs[k]| {
      Goes(p, s, StartChecked(k), strict);
    } else {
      var q := p.needs[k][c.next];
      assert Edge(p.needs, k, q);
      RankDrops(p.needs, k, q);
      if s.res[q].lock.Some? {
        LockMoves(p, s, q, strict);
      } else if c.seen.Some? {
        Goes(p, s, CheckVerdict(k), strict);
      } else {
        Goes(p, s, CheckStatus(k, Answer(true, false)), strict);
      }
    }
  }

  /** A worker holding a permit can move, unless it waits for the lock of a resource it is marking. */
  lemma HolderMoves(p: Plan, s: State, k: string, strict: bool)
    requires ValidPlan(p) && Acyclic(p.needs) && Inv(p, s) && k in s.res && Holds(s.res[k])
    ensures CanGoOn(p, s, strict)
  {
    hide CanGoOn;
    assert ResourceOk(p, s, k);
    var phase := s.res[k].phase;
    if phase.Marking? {
      var h := phase.todo[0];
      if s.res[h].lock.None? { Goes(p, s, Mark(k), strict); } else { LockMoves(p, s, h, strict); }
    } else if phase.Releasing? {
      assert k in Holders(s);
      Goes(p, s, Release(k), strict);
    } else {
      WorkerMoves(p, s, k, strict);
    }
  }

  lemma WorkerMoves(p: Plan, s: State, k: string, strict: bool)
    requires ValidPlan(p) && k in s.res && s.res.Keys == p.needs.Keys
    requires Holds(s.res[k]) && !s.res[k].phase.Marking? && !s.res[k].phase.Releasing?
    ensures CanGoOn(p, s, strict)
  {
    hide CanGoOn;
    match s.res[k].phase {
      case Resetting(_) => Goes(p, s, Attempt(k, ResetStatus), strict);
      case Spawning => Goes(p, s, SpawnPollers(k), strict);
      case Deleting(_) => Goes(p, s, Attempt(k, DeleteBeforeRetry), strict);
      case Checking(_) => Goes(p, s, Attempt(k, ReadIgnored), strict);
      case Creating(_) => Goes(p, s, Attempt(k, Create(true)), strict);
      case Polling(_) =>
        Goes(p, s, Attempt(k, if p.policy[k].IgnoreAll? then Timeout else Poll(Answer(true, false))), strict);
      case Reporting => Goes(p, s, Report(k), strict);
    }
  }

  /** Of all unstarted resources, one with the fewest others above it; everything above that one is started. */
  lemma {:induction false} LowestUnstarted(p: Plan, s: State, k: string) returns (c: string)
    requires ValidPlan(p) && Acyclic(p.needs) && s.res.Keys == p.needs.Keys && k in s.res && !s.res[k].started
    ensures c in s.res && !s.res[c].started && c in p.needs
    ensures forall a :: a in s.res && Rank(p.needs, a) < Rank(p.needs, c) ==> s.res[a].started
    decreases Rank(p.needs, k)
  {
    c := k;
    if a :| a in s.res && Rank(p.needs, a) < Rank(p.needs, k) && !s.res[a].started {
      c := LowestUnstarted(p, s, a);
    }
  }

  lemma {:induction false} PathRaisesRank(p: Plan, path: seq<string>)
    requires ValidPlan(p) && Acyclic(p.needs) && IsPath(p.neededBy, path)
    ensures Rank(p.needs, path[0]) <= Rank(p.needs, path[|path| - 1])
    decreases |path|
  {
    if |path| > 1 {
      assert Edge(p.needs, path[1], path[0]);
      RankDrops(p.needs, path[1], path[0]);
      PathRaisesRank(p, path[1..]);
    }
  }

  lemma AboveRequirement(p: Plan, h: string, q: string, c: string)
    requires ValidPlan(p) && Acyclic(p.needs) && Reach(p.neededBy, h, q) && Edge(p.needs, c, q)
    ensures Rank(p.needs, h) < Rank(p.needs, c)
  {
    var path :| PathBetween(p.neededBy, path, h, q);
    PathRaisesRank(p, path);
    RankDrops(p.needs, c, q);
  }

  /** Nobody is at work: every worker has not begun or has gone. */
  ghost predicate AtRest(s: State) {
    s.toCreate == [] && s.rootTodo == {} && forall k :: k in s.res ==> s.res[k].phase.Idle? || s.res[k].phase.Gone?
  }

  lemma RestMoves(p: Plan, s: State, strict: bool)
    requires ValidPlan(p) && Acyclic(p.needs) && Startable(p) && Inv(p, s) && PollersLeft(p, s) && AtRest(s)
    requires !s.finalized
    requires strict ==> Finishable(p, s)
    ensures CanGoOn(p, s, strict)
  {
    hide CanGoOn;
    hide Acyclic;
    hide Startable;
    hide PollersLeft;
    hide Finishable;
    if k :| k in s.res && !s.res[k].started {
      var c := LowestUnstarted(p, s, k);
      UnstartedMoves(p, s, c, strict);
    } else {
      forall k | k in s.res ensures Reported(s.res[k]) { assert ResourceOk(p, s, k); }
      LastMoves(p, s, strict);
    }
  }

  /** A resource with everything above it through has a poller left by a requirement. */
  lemma UnstartedMoves(p: Plan, s: State, c: string, strict: bool)
    requires ValidPlan(p) && Acyclic(p.needs) && Startable(p) && Inv(p, s) && PollersLeft(p, s) && AtRest(s)
    requires c in s.res && c in p.needs && !s.res[c].started
    requires forall a :: a in s.res && Rank(p.needs, a) < Rank(p.needs, c) ==> s.res[a].started
    requires strict ==> Finishable(p, s)
    ensures CanGoOn(p, s, strict)
  {
    hide CanGoOn;
    hide Acyclic;
    hide Startable;
    hide PollersLeft;
    hide Finishable;
    assert ResourceOk(p, s, c);
    if s.res[c].lock.Some? {
      LockMoves(p, s, c, strict);
    } else {
      RequirementsStarted(p, s, c);
      RequirementsReported(p, s, c);
      if strict { RequirementsWell(p, s, c); }
      var q := PollerWaits(p, s, c);
      hide Inv;
      Goes(p, s, BeginCheck(q, c), strict);
    }
  }

  lemma RequirementsStarted(p: Plan, s: State, c: string)
    requires ValidPlan(p) && Acyclic(p.needs) && s.res.Keys == p.needs.Keys && c in p.needs
    requires forall a :: a in s.res && Rank(p.needs, a) < Rank(p.needs, c) ==> s.res[a].started
    ensures forall q :: q in p.needs[c] ==> q in s.res && s.res[q].started
  {
    forall q | q in p.needs[c] ensures q in s.res && s.res[q].started {
      assert Edge(p.needs, c, q);
      RankDrops(p.needs, c, q);
    }
  }

  lemma RequirementsReported(p: Plan, s: State, c: string)
    requires Shape(p, s) && AtRest(s) && c in p.needs && forall q :: q in p.needs[c] ==> q in s.res && s.res[q].started
    ensures AllReported(p, s, c)
  {
    forall x | x in p.needs[c] ensures x in s.res && Reported(s.res[x]) {
      assert ResourceOk(p, s, x);
    }
  }

  /** Whatever could cure a requirement is above it and so has gone: what is not hopeless is not lost. */
  lemma RequirementsWell(p: Plan, s: State, c: string)
    requires ValidPlan(p) && Acyclic(p.needs) && Shape(p, s) && AtRest(s) && Finishable(p, s)
    requires c in s.res && c in p.needs && !s.res[c].started && s.res[c].lock.None? && AllReported(p, s, c)
    requires forall a :: a in s.res && Rank(p.needs, a) < Rank(p.needs, c) ==> s.res[a].started
    ensures AllWell(p, s, c)
  {
    hide Acyclic;
    hide Shape;
    hide AtRest;
    hide Curable;
    hide Lost;
    assert !Succeeding(p, s, c);
    hide Succeeding;
    hide ValidPlan;
    forall q | q in p.needs[c] && q in s.res ensures !Lost(s.res[q]) {
      assert !Hopeless(p, s, q);
      NothingCures(p, s, c, q);
    }
  }

  lemma NothingCures(p: Plan, s: State, c: string, q: string)
    requires ValidPlan(p) && Acyclic(p.needs) && Shape(p, s) && AtRest(s) && c in p.needs && q in p.needs[c]
    requires forall a :: a in s.res && Rank(p.needs, a) < Rank(p.needs, c) ==> s.res[a].started
    ensures !Curable(p, s, q)
  {
    hide Acyclic;
    hide Shape;
    hide AtRest;
    hide ValidPlan;
    forall h | Reach(p.neededBy, h, q) ensures !CanSpread(p, s, h) {
      assert Edge(p.needs, c, q);
      AboveRequirement(p, h, q, c);
      if h in s.res { StartedAtRest(p, s, h); }
    }
  }

  lemma StartedAtRest(p: Plan, s: State, h: string)
    requires Shape(p, s) && AtRest(s) && h in s.res && s.res[h].started
    ensures s.res[h].phase.Gone? && !CanSpread(p, s, h)
  {
    assert ResourceOk(p, s, h);
  }

  lemma PollerWaits(p: Plan, s: State, c: string) returns (q: string)
    requires ValidPlan(p) && Startable(p) && Shape(p, s) && PollersLeft(p, s) && AtRest(s)
    requires c in s.res && c in p.needs && !s.res[c].started && forall q :: q in p.needs[c] ==> q in s.res && s.res[q].started
    ensures (q, c) in s.pollers
  {
    hide Shape;
    hide PollersLeft;
    hide ValidPlan;
    hide WillTry;
    assert p.needs[c] != [] by { NeedsSomething(p, s, c); }
    q :| q in p.needs[c] && WillTry(p, q);
    GoneLeftPollers(p, s, q, c);
  }

  lemma NeedsSomething(p: Plan, s: State, c: string)
    requires Shape(p, s) && AtRest(s) && c in s.res && c in p.needs && !s.res[c].started
    ensures p.needs[c] != []
  {
    assert ResourceOk(p, s, c);
  }

  lemma GoneLeftPollers(p: Plan, s: State, q: string, c: string)
    requires ValidPlan(p) && Shape(p, s) && PollersLeft(p, s) && AtRest(s) && WillTry(p, q)
    requires c in s.res && c in p.needs && !s.res[c].started && q in p.needs[c] && q in s.res && s.res[q].started
    ensures (q, c) in s.pollers
  {
    assert ResourceOk(p, s, q) && PollersOk(p, s, q);
    assert Edge(p.needs, c, q) && Edge(p.neededBy, q, c);
  }

  lemma LastMoves(p: Plan, s: State, strict: bool)
    requires ValidPlan(p) && Inv(p, s) && s.rootTodo == {} && !s.finalized && forall k :: k in s.res ==> Reported(s.res[k])
    ensures CanGoOn(p, s, strict)
  {
    hide CanGoOn;
    ChannelsFit(p, s);
    if |s.received| == |p.keys| {
      Goes(p, s, Finalize, strict);
    } else {
      SomeCreated(p, s);
      Goes(p, s, Receive, strict);
    }
  }

  lemma SomeCreated(p: Plan, s: State)
    requires ValidPlan(p) && Channels(p, s) && |s.received| < |p.keys| && forall k :: k in s.res ==> Reported(s.res[k])
    ensures s.created != []
  {
    var all := s.created + s.received;
    DistinctCount(all);
    DistinctCount(p.keys);
    forall k | k in Elements(p.keys) ensures k in Elements(all) {
      assert k in s.res && k in all;
    }
    SubsetNotLarger(Elements(p.keys), Elements(all));
  }

  /** In every state before the end some useful step is possible. */
  lemma NeverStuck(p: Plan, s: State, strict: bool)
    requires ValidPlan(p) && Acyclic(p.needs) && Startable(p) && Inv(p, s) && PollersLeft(p, s) && !s.finalized
    requires strict ==> Finishable(p, s)
    ensures CanGoOn(p, s, strict)
  {
    hide CanGoOn;
    hide PollersLeft;
    hide Acyclic;
    hide Startable;
    hide Finishable;
    if k :| k in s.rootTodo {
      Goes(p, s, RootVisit(k), strict);
    } else if s.toCreate != [] {
      assert s.toCreate[0] in s.toCreate;
      Goes(p, s, Dispatch, strict);
    } else if k :| k in s.res && Holds(s.res[k]) {
      HolderMoves(p, s, k, strict);
    } else if k :| k in s.res && s.res[k].phase.Waiting? {
      assert Holders(s) == {};
      KeysNonempty(p, k);
      Goes(p, s, Acquire(k), strict);
    } else {
      forall k | k in s.res ensures s.res[k].phase.Idle? || s.res[k].phase.Gone? {
        assert k !in s.toCreate;
      }
      RestMoves(p, s, strict);
    }
  }

  lemma KeysNonempty(p: Plan, k: string)
    requires ValidPlan(p) && k in p.needs
    ensures Limit(p) > 0
  {
    assert k in Elements(p.keys);
    assert p.keys != [];
  }

  /** In every state of every run, before the end, some useful step is possible that assumes no bad answer. */
  lemma RunsNeverStuck(p: Plan, states: seq<State>, events: seq<Event>, i: nat)
    requires ValidPlan(p) && Acyclic(p.needs) && Startable(p) && IsRun(p, states, events) && i < |states|
    requires !states[i].finalized
    ensures CanGoOn(p, states[i], false)
  {
    hide CanGoOn;
    InvInRun(p, states, events, i);
    PollersInRun(p, states, events, i);
    NeverStuck(p, states[i], false);
  }

  // ---------- without a requirement that is attempted, a deployment never finishes ----------

  ghost predicate Stranded(p: Plan, c: string) {
    c in p.needs && p.needs[c] != [] && forall q :: q in p.needs[c] ==> !WillTry(p, q)
  }

  /** Nobody requests a stranded resource. */
  lemma StrandedUnrequested(p: Plan, s: State, c: string)
    requires ValidPlan(p) && Shape(p, s) && PollersLeft(p, s) && Stranded(p, c) && c in s.res
    ensures s.res[c].lock.None?
  {
    assert ResourceOk(p, s, c);
    if s.res[c].lock.Some? {
      NoPollerFrom(p, s, s.res[c].lock.value.parent, c);
    }
  }

  lemma NoPollerFrom(p: Plan, s: State, q: string, c: string)
    requires ValidPlan(p) && Shape(p, s) && PollersLeft(p, s) && Stranded(p, c)
    ensures (q, c) !in s.pollers
  {
    if Edge(p.neededBy, q, c) && q in s.res {
      assert Edge(p.needs, c, q);
      assert PollersOk(p, s, q);
    }
  }

  lemma StrandedStays(p: Plan, s: State, e: Event, c: string)
    requires ValidPlan(p) && Inv(p, s) && PollersLeft(p, s) && Stranded(p, c) && Enabled(p, s, e)
    requires c in s.res && !s.res[c].started
    ensures c in Apply(p, s, e).res && !Apply(p, s, e).res[c].started
  {
    hide PollersLeft;
    hide Apply;
    hide Enabled;
    hide ValidPlan;
    assert Shape(p, s);
    StrandedUnrequested(p, s, c);
    hide Inv;
    hide Shape;
    if e.Attempt? {
      StartedKeptByAttempt(p, s, e, c);
    } else if e.Mark? || e.CheckStatus? {
      StartedKept(p, s, e, c);
    } else {
      UnrequestedUnstarted(p, s, e, c);
    }
  }

  lemma StartedKeptByAttempt(p: Plan, s: State, e: Event, c: string)
    requires Enabled(p, s, e) && e.Attempt? && c in s.res
    ensures c in Apply(p, s, e).res && Apply(p, s, e).res[c].started == s.res[c].started
  {
    StartedUnchanged(p, e.k, s.res[e.k], e.action);
    hide Act;
    hide CanAct;
  }

  /** Only a request, or the root loop for a resource without requirements, starts a resource. */
  lemma UnrequestedUnstarted(p: Plan, s: State, e: Event, c: string)
    requires Enabled(p, s, e) && !e.Attempt? && !e.Mark? && !e.CheckStatus?
    requires c in s.res && !s.res[c].started && s.res[c].lock.None? && c in p.needs && p.needs[c] != []
    ensures c in Apply(p, s, e).res && !Apply(p, s, e).res[c].started
  {
    hide DoMark;
    hide DoCheckStatus;
    hide DoAttempt;
  }

  lemma StartedKept(p: Plan, s: State, e: Event, c: string)
    requires Enabled(p, s, e) && (e.Mark? || e.CheckStatus?) && c in s.res
    ensures c in Apply(p, s, e).res && Apply(p, s, e).res[c].started == s.res[c].started
  {
  }

  lemma StartedUnchanged(p: Plan, k: string, r: Res, a: Action)
    requires k in p.attempts && k in p.policy && CanAct(r, a)
    ensures Act(p, k, r, a).started == r.started
  {
  }

  /** The condition is exact: if all requirements of some resource have retry counts below one, no run gets to that resource,
      so none ever reaches its end. */
  lemma {:induction false} StrandedNeverFinishes(p: Plan, states: seq<State>, events: seq<Event>, i: nat, c: string)
    requires ValidPlan(p) && IsRun(p, states, events) && i < |states| && Stranded(p, c)
    ensures c in states[i].res && !states[i].res[c].started && !states[i].finalized
  {
    hide Inv;
    hide ValidPlan;
    hide PollersLeft;
    hide Stranded;
    hide Enabled;
    hide Apply;
    if i == 0 {
      StrandedAtStart(p, c);
    } else {
      StrandedNeverFinishes(p, states, events, i - 1, c);
      InvInRun(p, states, events, i - 1);
      PollersInRun(p, states, events, i - 1);
      StrandedStays(p, states[i - 1], events[i - 1], c);
      assert states[i - 1 + 1] == Apply(p, states[i - 1], events[i - 1]);
    }
    InvInRun(p, states, events, i);
    UnstartedUnfinished(p, states[i], c);
  }

  lemma StrandedAtStart(p: Plan, c: string)
    requires Stranded(p, c)
    ensures c in Init(p).res && !Init(p).res[c].started
  {
  }

  lemma UnstartedUnfinished(p: Plan, s: State, c: string)
    requires ValidPlan(p) && Inv(p, s) && c in s.res && !s.res[c].started
    ensures !s.finalized
  {
    assert ResourceOk(p, s, c) && c in p.needs;
    if s.finalized { AllReceived(p, s); }
  }

  // ---------- a request that meets only finished requirements succeeds ----------

  predicate MovesRequest(e: Event, k: string) {
    (e.CheckStatus? || e.CheckVerdict? || e.StartChecked?) && e.k == k
  }

  /** One resource seen across a step: finished stays finished, without a failure that was not there before, ignored stays
      ignored, and a lock held is kept by the request that holds it. */
  ghost predicate Steady(r: Res, r': Res, keepsLock: bool) {
    && (Reported(r) ==> Reported(r') && r'.failed == r.failed) && (r.ignored ==> r'.ignored)
    && (keepsLock && r.lock.Some? ==> r'.lock == r.lock)
  }

  lemma SteadyAttempt(p: Plan, s: State, k: string, a: Action, q: string)
    requires Enabled(p, s, Attempt(k, a)) && q in s.res
    ensures Steady(s.res[q], DoAttempt(p, s, k, a).res[q], true)
  {
    ActKeepsStage(p, k, s.res[k], a);
    hide Act;
    hide CanAct;
  }

  lemma SteadyWorker(p: Plan, s: State, e: Event, q: string)
    requires Channels(p, s) && Enabled(p, s, e) && q in s.res
    requires e.Dispatch? || e.Acquire? || e.SpawnPollers? || e.Report? || e.Release? || e.Receive? || e.Finalize?
    ensures Steady(s.res[q], Apply(p, s, e).res[q], true)
  {
    if e.Dispatch? { assert s.toCreate[0] in s.toCreate; }
  }

  /** Nobody requests a resource without requirements. */
  lemma SteadyRootVisit(p: Plan, s: State, k: string, q: string)
    requires ValidPlan(p) && Shape(p, s) && Enabled(p, s, RootVisit(k)) && q in s.res
    ensures Steady(s.res[q], DoRootVisit(p, s, k).res[q], true)
  {
    assert ResourceOk(p, s, k);
    if s.res[k].lock.Some? {
      assert Edge(p.needs, k, s.res[k].lock.value.parent);
    }
  }

  lemma SteadyMark(p: Plan, s: State, k: string, q: string)
    requires Enabled(p, s, Mark(k)) && q in s.res
    ensures Steady(s.res[q], DoMark(p, s, k).res[q], true)
  {
  }

  lemma SteadyRequest(p: Plan, s: State, e: Event, q: string)
    requires Shape(p, s) && Enabled(p, s, e) && q in s.res
    requires e.BeginCheck? || e.CheckStatus? || e.CheckVerdict? || e.StartChecked? || e.PollerDone? || e.Observe?
    ensures Steady(s.res[q], Apply(p, s, e).res[q], !MovesRequest(e, q))
  {
    assert ResourceOk(p, s, q);
  }

  lemma StepIsSteady(p: Plan, s: State, e: Event, q: string)
    requires ValidPlan(p) && Inv(p, s) && Enabled(p, s, e) && q in s.res
    ensures q in Apply(p, s, e).res && Steady(s.res[q], Apply(p, s, e).res[q], !MovesRequest(e, q))
  {
    hide ValidPlan;
    hide Shape;
    hide Channels;
    hide Semaphore;
    hide StartOrder;
    hide Steady;
    hide CanAct;
    hide DoMark;
    hide DoAttempt;
    if e.RootVisit? {
      SteadyRootVisit(p, s, e.k, q);
    } else if e.Attempt? {
      SteadyAttempt(p, s, e.k, e.action, q);
      AttemptKeys(p, s, e);
    } else if e.Mark? {
      SteadyMark(p, s, e.k, q);
      AttemptKeys(p, s, e);
    } else if e.BeginCheck? || e.CheckStatus? || e.CheckVerdict? || e.StartChecked? || e.PollerDone? || e.Observe? {
      SteadyRequest(p, s, e, q);
    } else {
      SteadyWorker(p, s, e, q);
    }
  }

  lemma AttemptKeys(p: Plan, s: State, e: Event)
    requires Enabled(p, s, e) && (e.Attempt? || e.Mark?)
    ensures Apply(p, s, e).res.Keys == s.res.Keys
  {
    hide Act;
    hide CanAct;
  }

  /** As long as finished resources answer well and no edge is an on-error edge, such a request goes on until the resource
      is started. */
  lemma RequestSucceeds(p: Plan, s: State, e: Event, k: string)
    requires ValidPlan(p) && Inv(p, s) && p.onErrorEdges == {}
    requires Succeeding(p, s, k) && Enabled(p, s, e) && Fair(p, s, e)
    ensures Succeeding(p, Apply(p, s, e), k) || (e == StartChecked(k) && k in Apply(p, s, e).res && Apply(p, s, e).res[k].started)
  {
    if e == StartChecked(k) {
    } else if MovesRequest(e, k) {
      OwnMoveSucceeds(p, s, e, k);
    } else {
      hide Succeeding;
      hide Apply;
      hide Enabled;
      ElsewhereSucceeding(p, s, e, k);
    }
  }

  lemma OwnMoveSucceeds(p: Plan, s: State, e: Event, k: string)
    requires ValidPlan(p) && Inv(p, s) && p.onErrorEdges == {} && (e.CheckStatus? || e.CheckVerdict?) && e.k == k
    requires Succeeding(p, s, k) && Enabled(p, s, e) && Fair(p, s, e)
    ensures Succeeding(p, Apply(p, s, e), k)
  {
    hide ValidPlan;
    hide Inv;
    hide Fair;
    assert WellFrom(p, s, k, s.res[k].lock.value.next);
    StillWellFrom(p, s, e, k, s.res[k].lock.value.next);
    hide Succeeding;
    hide WellFrom;
    if e.CheckStatus? {
      GoodStatusRead(p, s, k, e.answer);
    } else {
      VerdictPasses(p, s, k);
    }
  }

  lemma StillWellFrom(p: Plan, s: State, e: Event, k: string, n: nat)
    requires ValidPlan(p) && Inv(p, s) && Enabled(p, s, e) && k in p.needs && WellFrom(p, s, k, n)
    ensures WellFrom(p, Apply(p, s, e), k, n)
  {
    hide Apply;
    hide Enabled;
    hide Inv;
    hide ValidPlan;
    forall i | n <= i < |p.needs[k]|
      ensures p.needs[k][i] in Apply(p, s, e).res
      ensures Reported(Apply(p, s, e).res[p.needs[k][i]]) && !Lost(Apply(p, s, e).res[p.needs[k][i]])
    {
      StepIsSteady(p, s, e, p.needs[k][i]);
    }
  }

  lemma GoodStatusRead(p: Plan, s: State, k: string, answer: Answer)
    requires Succeeding(p, s, k) && Enabled(p, s, CheckStatus(k, answer)) && Fair(p, s, CheckStatus(k, answer))
    requires WellFrom(p, DoCheckStatus(p, s, k, answer), k, s.res[k].lock.value.next)
    ensures Succeeding(p, DoCheckStatus(p, s, k, answer), k)
  {
    var q := Target(p, s, k);
    assert Reported(s.res[q]) && !Lost(s.res[q]);
    hide WellFrom;
    assert !Blocks(false, Seen(s.res[q], answer), s.res[q].ignored);
  }

  lemma VerdictPasses(p: Plan, s: State, k: string)
    requires Succeeding(p, s, k) && p.onErrorEdges == {} && Enabled(p, s, CheckVerdict(k))
    requires WellFrom(p, DoCheckVerdict(p, s, k), k, s.res[k].lock.value.next)
    ensures Succeeding(p, DoCheckVerdict(p, s, k), k)
  {
    var next, s' := s.res[k].lock.value.next, DoCheckVerdict(p, s, k);
    assert WellFrom(p, s', k, next + 1);
    hide WellFrom;
    assert !Blocks(false, s.res[k].lock.value.seen.value, s.res[Target(p, s, k)].ignored);
  }

  lemma ElsewhereSucceeding(p: Plan, s: State, e: Event, k: string)
    requires ValidPlan(p) && Inv(p, s) && Succeeding(p, s, k) && Enabled(p, s, e) && !MovesRequest(e, k)
    ensures Succeeding(p, Apply(p, s, e), k)
  {
    hide Apply;
    hide Enabled;
    hide ValidPlan;
    hide Inv;
    var c := s.res[k].lock.value;
    StillWellFrom(p, s, e, k, c.next);
    StepIsSteady(p, s, e, k);
    if c.next < |p.needs[k]| {
      assert p.needs[k][c.next] in s.res;
      hide WellFrom;
      StepIsSteady(p, s, e, p.needs[k][c.next]);
    }
  }
}
