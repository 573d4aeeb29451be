/** What every step of a deployment keeps, and what follows for whole runs. */
module DeploymentSafety {
  import opened Graphs
  import opened Deployment

  // ---------- the invariant, in four parts ----------

  /** Phases, flags and locks of the resources fit together. */
  ghost predicate ResourceOk(p: Plan, s: State, k: string)
    requires k in s.res && k in p.needs
  {
    var r := s.res[k];
    && (r.started <==> !r.phase.Idle?)
    && (r.phase.Marking? ==> r.phase.todo != [] && forall t :: t in r.phase.todo ==> t in p.needs)
    && (r.lock.Some? ==>
          !r.started && (r.lock.value.parent, k) in s.pollers && r.lock.value.next <= |p.needs[k]| &&
          (r.lock.value.seen.Some? ==> r.lock.value.next < |p.needs[k]|))
    && (p.needs[k] == [] && k !in s.rootTodo ==> r.started)
  }

  ghost predicate Shape(p: Plan, s: State) {
    && s.res.Keys == p.needs.Keys
    && s.rootTodo <= p.needs.Keys
    && (forall k :: k in s.res ==> ResourceOk(p, s, k))
    && (forall a, b :: (a, b) in s.pollers ==> Edge(p.neededBy, a, b) && a in s.res && s.res[a].started)
  }

  predicate Reported(r: Res) {
    r.phase.Releasing? || r.phase.Gone?
  }

  /** Both channels hold each resource at most once, and exactly those whose worker is at that stage. */
  ghost predicate Channels(p: Plan, s: State) {
    && s.res.Keys == p.needs.Keys
    && Distinct(s.toCreate) && (forall k :: k in s.toCreate <==> k in s.res && s.res[k].phase.Queued?)
    && Distinct(s.created + s.received)
    && (forall k :: k in s.created + s.received <==> k in s.res && Reported(s.res[k]))
  }

  predicate Holds(r: Res) {
    !(r.phase.Idle? || r.phase.Queued? || r.phase.Waiting? || r.phase.Gone?)
  }

  ghost function Holders(s: State): set<string> {
    set k | k in s.res && Holds(s.res[k])
  }

  /** The semaphore counts exactly the workers between acquiring and releasing. */
  ghost predicate Semaphore(p: Plan, s: State) {
    s.permits == |Holders(s)| && s.permits <= Limit(p)
  }

  /** Every started resource was started once; one with requirements was started after some requirement of its own. */
  ghost predicate StartOrder(p: Plan, s: State) {
    && s.res.Keys == p.needs.Keys
    && Distinct(s.starts) && (forall k :: k in s.starts <==> k in s.res && s.res[k].started)
    && (forall i :: 0 <= i < |s.starts| && s.starts[i] in p.needs && p.needs[s.starts[i]] != [] ==>
          exists q :: q in p.needs[s.starts[i]] && q in s.starts[..i])
  }

  ghost predicate Inv(p: Plan, s: State) {
    && Shape(p, s) && Channels(p, s) && Semaphore(p, s) && StartOrder(p, s)
    && (s.finalized ==> |s.received| == |p.keys|)
  }

  // ---------- quiet steps ----------

  predicate SameStage(r: Res, r': Res) {
    && r.started == r'.started && Holds(r) == Holds(r')
    && r.phase.Queued? == r'.phase.Queued? && Reported(r) == Reported(r')
  }

  /** No resource is started, queued, reported, and no permit moves. */
  ghost predicate Quiet(s: State, s': State) {
    && s'.res.Keys == s.res.Keys && (forall j :: j in s.res ==> SameStage(s.res[j], s'.res[j]))
    && s'.toCreate == s.toCreate && s'.created == s.created && s'.received == s.received
    && s'.permits == s.permits && s'.starts == s.starts && s'.finalized == s.finalized
  }

  lemma ActKeepsStage(p: Plan, k: string, r: Res, a: Action)
    requires k in p.attempts && k in p.policy && CanAct(r, a)
    ensures SameStage(r, Act(p, k, r, a)) && Holds(r)
    ensures Act(p, k, r, a).lock == r.lock && (r.ignored ==> Act(p, k, r, a).ignored)
    ensures Act(p, k, r, a).phase.Marking? ==> Act(p, k, r, a).phase.todo == [k]
  {
  }

  /** Everything but the eight steps that start, pass on, finish or count a resource is quiet. */
  predicate IsQuiet(e: Event) {
    e.Attempt? || e.SpawnPollers? || e.Mark? || e.BeginCheck? || e.CheckStatus? || e.CheckVerdict? || e.PollerDone? || e.Observe?
  }

  lemma QuietAttempt(p: Plan, s: State, k: string, a: Action)
    requires Known(p, s, k) && CanAct(s.res[k], a)
    ensures Quiet(s, DoAttempt(p, s, k, a))
  {
    ActKeepsStage(p, k, s.res[k], a);
    hide Act;
    hide CanAct;
  }

  lemma QuietMark(p: Plan, s: State, k: string)
    requires CanMark(p, s, k)
    ensures Quiet(s, DoMark(p, s, k))
  {
  }

  lemma QuietCheck(p: Plan, s: State, k: string, answer: Answer)
    requires LooksAt(p, s, k)
    ensures Quiet(s, DoCheckStatus(p, s, k, answer))
    ensures s.res[k].lock.value.seen.Some? ==> Quiet(s, DoCheckVerdict(p, s, k))
  {
  }

  lemma QuietSteps(p: Plan, s: State, e: Event)
    requires Enabled(p, s, e) && IsQuiet(e)
    ensures Quiet(s, Apply(p, s, e))
  {
    hide Act;
    hide CanAct;
    hide DoMark;
    hide DoCheckStatus;
    hide DoCheckVerdict;
    hide DoAttempt;
    hide Quiet;
    match e {
      case Attempt(k, a) => QuietAttempt(p, s, k, a);
      case Mark(k) => QuietMark(p, s, k);
      case CheckStatus(k, answer) => QuietCheck(p, s, k, answer);
      case CheckVerdict(k) => QuietCheck(p, s, k, Answer(false, false));
      case _ => QuietOthers(p, s, e);
    }
  }

  lemma QuietOthers(p: Plan, s: State, e: Event)
    requires Enabled(p, s, e) && IsQuiet(e) && !e.Attempt? && !e.Mark? && !e.CheckStatus? && !e.CheckVerdict?
    ensures Quiet(s, Apply(p, s, e))
  {
    hide Act;
    hide CanAct;
    hide DoMark;
    hide DoCheckStatus;
    hide DoCheckVerdict;
    hide DoAttempt;
  }

  lemma QuietKeeps(p: Plan, s: State, s': State)
    requires Quiet(s, s') && Channels(p, s) && Semaphore(p, s) && StartOrder(p, s)
    ensures Channels(p, s') && Semaphore(p, s') && StartOrder(p, s')
  {
    hide Distinct;
    assert Holders(s') == Holders(s);
  }

  // ---------- shape ----------

  /** One resource changed; pollers of other resources and the root loop's list only shrank away from it. */
  ghost predicate OnlyChanged(s: State, s': State, k: string) {
    && k in s.res && k in s'.res && s'.res == s.res[k := s'.res[k]]
    && s'.rootTodo <= s.rootTodo && s'.pollers <= s.pollers
    && (forall a, b :: b != k && (a, b) in s.pollers ==> (a, b) in s'.pollers)
    && (forall j :: j != k && j in s.rootTodo ==> j in s'.rootTodo)
  }

  lemma ShapeOneChanged(p: Plan, s: State, s': State, k: string)
    requires Shape(p, s) && OnlyChanged(s, s', k)
    requires ResourceOk(p, s', k) && (s.res[k].started ==> s'.res[k].started)
    ensures Shape(p, s')
  {
    forall j | j in s'.res ensures ResourceOk(p, s', j) {
      assert ResourceOk(p, s, j);
    }
  }

  lemma ShapeRootVisit(p: Plan, s: State, k: string)
    requires Shape(p, s) && Enabled(p, s, RootVisit(k))
    ensures Shape(p, DoRootVisit(p, s, k))
  {
    assert ResourceOk(p, s, k);
    ShapeOneChanged(p, s, DoRootVisit(p, s, k), k);
  }

  lemma ShapeDispatch(p: Plan, s: State)
    requires Shape(p, s) && Channels(p, s) && Enabled(p, s, Dispatch)
    ensures Shape(p, DoDispatch(s))
  {
    var k := s.toCreate[0];
    assert k in s.toCreate && ResourceOk(p, s, k);
    ShapeOneChanged(p, s, DoDispatch(s), k);
  }

  lemma ShapeAcquire(p: Plan, s: State, k: string)
    requires Shape(p, s) && Enabled(p, s, Acquire(k))
    ensures Shape(p, DoAcquire(p, s, k))
  {
    assert ResourceOk(p, s, k);
    ShapeOneChanged(p, s, DoAcquire(p, s, k), k);
  }

  lemma ShapeAttempt(p: Plan, s: State, k: string, a: Action)
    requires Shape(p, s) && Enabled(p, s, Attempt(k, a))
    ensures Shape(p, DoAttempt(p, s, k, a))
  {
    ActKeepsStage(p, k, s.res[k], a);
    hide Act;
    assert ResourceOk(p, s, k);
    ShapeOneChanged(p, s, DoAttempt(p, s, k, a), k);
  }

  lemma ShapeSpawned(p: Plan, s: State, k: string)
    requires ValidPlan(p) && Shape(p, s) && Enabled(p, s, SpawnPollers(k))
    ensures Shape(p, DoSpawn(p, s, k))
  {
    hide ValidPlan;
    var s' := DoSpawn(p, s, k);
    assert ResourceOk(p, s, k);
    forall j | j in s'.res ensures ResourceOk(p, s', j) {
      assert ResourceOk(p, s, j);
    }
  }

  lemma DependantsAreKeys(p: Plan, k: string)
    requires ValidPlan(p) && k in p.neededBy
    ensures forall t :: t in p.neededBy[k] ==> t in p.needs
  {
    assert forall t :: t in p.neededBy[k] ==> Edge(p.neededBy, k, t);
  }

  /** Marking changes the marked resource, then the worker's own. */
  lemma ShapeMarked(p: Plan, s: State, k: string)
    requires ValidPlan(p) && Shape(p, s) && CanMark(p, s, k)
    ensures Shape(p, DoMark(p, s, k))
  {
    var h, rest := s.res[k].phase.todo[0], s.res[k].phase.todo[1..];
    assert ResourceOk(p, s, h) && ResourceOk(p, s, k);
    DependantsAreKeys(p, h);
    hide ValidPlan;
    var s1 := Set(s, h, s.res[h].(ignored := true));
    ShapeOneChanged(p, s, s1, h);
    assert ResourceOk(p, s1, k);
    assert forall t :: t in p.neededBy[h] + rest ==> t in p.needs;
    ShapeOneChanged(p, s1, DoMark(p, s, k), k);
  }

  lemma ShapeReport(p: Plan, s: State, k: string)
    requires Shape(p, s) && Enabled(p, s, Report(k))
    ensures Shape(p, DoReport(s, k))
  {
    assert ResourceOk(p, s, k);
    ShapeOneChanged(p, s, DoReport(s, k), k);
  }

  lemma ShapeRelease(p: Plan, s: State, k: string)
    requires Shape(p, s) && Enabled(p, s, Release(k))
    ensures Shape(p, DoRelease(s, k))
  {
    assert ResourceOk(p, s, k);
    ShapeOneChanged(p, s, DoRelease(s, k), k);
  }

  lemma ShapeBeginCheck(p: Plan, s: State, parent: string, k: string)
    requires Shape(p, s) && Enabled(p, s, BeginCheck(parent, k))
    ensures Shape(p, DoBeginCheck(s, parent, k))
  {
    assert ResourceOk(p, s, k);
    ShapeOneChanged(p, s, DoBeginCheck(s, parent, k), k);
  }

  lemma ShapeStatusRead(p: Plan, s: State, k: string, answer: Answer)
    requires Shape(p, s) && Enabled(p, s, CheckStatus(k, answer))
    ensures Shape(p, DoCheckStatus(p, s, k, answer))
  {
    var q := Target(p, s, k);
    var s1 := Set(s, q, Cached(s.res[q], answer));
    assert ResourceOk(p, s, q) && ResourceOk(p, s, k);
    ShapeOneChanged(p, s, s1, q);
    ShapeOneChanged(p, s1, DoCheckStatus(p, s, k, answer), k);
  }

  lemma ShapeVerdict(p: Plan, s: State, k: string)
    requires Shape(p, s) && Enabled(p, s, CheckVerdict(k))
    ensures Shape(p, DoCheckVerdict(p, s, k))
  {
    assert ResourceOk(p, s, k);
    ShapeOneChanged(p, s, DoCheckVerdict(p, s, k), k);
  }

  lemma ShapeStartChecked(p: Plan, s: State, k: string)
    requires Shape(p, s) && Enabled(p, s, StartChecked(k))
    ensures Shape(p, DoStartChecked(s, k))
  {
    assert ResourceOk(p, s, k);
    ShapeOneChanged(p, s, DoStartChecked(s, k), k);
  }

  lemma ShapePollerDone(p: Plan, s: State, parent: string, k: string)
    requires Shape(p, s) && Enabled(p, s, PollerDone(parent, k))
    ensures Shape(p, s.(pollers := s.pollers - {(parent, k)}))
  {
    var s' := s.(pollers := s.pollers - {(parent, k)});
    assert ResourceOk(p, s, k);
    assert s'.res == s.res[k := s'.res[k]];
    ShapeOneChanged(p, s, s', k);
  }

  lemma ShapeObserve(p: Plan, s: State, k: string, answer: Answer)
    requires Shape(p, s) && Enabled(p, s, Observe(k, answer))
    ensures Shape(p, Set(s, k, Cached(s.res[k], answer)))
  {
    assert ResourceOk(p, s, k);
    ShapeOneChanged(p, s, Set(s, k, Cached(s.res[k], answer)), k);
  }

  lemma ShapeSameResources(p: Plan, s: State, s': State)
    requires Shape(p, s) && s'.res == s.res && s'.pollers == s.pollers && s'.rootTodo == s.rootTodo
    ensures Shape(p, s')
  {
    forall j | j in s'.res ensures ResourceOk(p, s', j) {
      assert ResourceOk(p, s, j);
    }
  }

  lemma ShapeKept(p: Plan, s: State, e: Event)
    requires ValidPlan(p) && Shape(p, s) && Channels(p, s) && Enabled(p, s, e)
    ensures Shape(p, Apply(p, s, e))
  {
    hide ValidPlan;
    hide Shape;
    hide Channels;
    hide CanAct;
    hide DoAttempt;
    hide DoMark;
    hide DoCheckStatus;
    hide DoRootVisit;
    hide DoDispatch;
    hide DoStartChecked;
    if e.RootVisit? {
      ShapeRootVisit(p, s, e.k);
    } else if e.Dispatch? {
      ShapeDispatch(p, s);
    } else if e.Attempt? {
      ShapeAttempt(p, s, e.k, e.action);
    } else if e.Mark? {
      ShapeMarked(p, s, e.k);
    } else if e.CheckStatus? {
      ShapeStatusRead(p, s, e.k, e.answer);
    } else if e.StartChecked? {
      ShapeStartChecked(p, s, e.k);
    } else {
      ShapeOtherStep(p, s, e);
    }
  }

  lemma ShapeOtherStep(p: Plan, s: State, e: Event)
    requires ValidPlan(p) && Shape(p, s) && Channels(p, s) && Enabled(p, s, e)
    requires !e.RootVisit? && !e.Dispatch? && !e.Attempt? && !e.Mark? && !e.CheckStatus? && !e.StartChecked?
    ensures Shape(p, Apply(p, s, e))
  {
    hide ValidPlan;
    hide Shape;
    hide Channels;
    hide DoSpawn;
    hide DoCheckVerdict;
    if e.Acquire? {
      ShapeAcquire(p, s, e.k);
    } else if e.SpawnPollers? {
      ShapeSpawned(p, s, e.k);
    } else if e.Report? {
      ShapeReport(p, s, e.k);
    } else if e.Release? {
      ShapeRelease(p, s, e.k);
    } else if e.BeginCheck? {
      ShapeBeginCheck(p, s, e.parent, e.k);
    } else if e.CheckVerdict? {
      ShapeVerdict(p, s, e.k);
    } else if e.PollerDone? {
      ShapePollerDone(p, s, e.parent, e.k);
    } else if e.Observe? {
      ShapeObserve(p, s, e.k, e.answer);
    } else {
      ShapeSameResources(p, s, Apply(p, s, e));
    }
  }

  // ---------- the eight loud steps ----------

  ghost predicate Rest(p: Plan, s: State) {
    Channels(p, s) && Semaphore(p, s) && StartOrder(p, s)
  }

  lemma SameHolders(s: State, s': State, k: string)
    requires k in s.res && k in s'.res && s'.res == s.res[k := s'.res[k]] && Holds(s'.res[k]) == Holds(s.res[k])
    ensures Holders(s') == Holders(s)
  {
  }

  lemma StartKeeps(p: Plan, s: State, s': State, k: string)
    requires Shape(p, s) && Rest(p, s) && k in s.res && !s.res[k].started
    requires p.needs[k] == [] || exists q :: q in p.needs[k] && q in s.starts
    requires s'.res == StartOf(s, k, s.res[k]).res && s'.toCreate == s.toCreate + [k] && s'.starts == s.starts + [k]
    requires s'.created == s.created && s'.received == s.received && s'.permits == s.permits
    ensures Rest(p, s')
  {
    assert ResourceOk(p, s, k);
    SameHolders(s, s', k);
    StartOrderGrows(p, s, s', k);
    ChannelsQueue(p, s, s', k);
  }

  lemma ChannelsQueue(p: Plan, s: State, s': State, k: string)
    requires Channels(p, s) && k in s.res && s.res[k].phase.Idle?
    requires s'.res == StartOf(s, k, s.res[k]).res && s'.toCreate == s.toCreate + [k]
    requires s'.created == s.created && s'.received == s.received
    ensures Channels(p, s')
  {
    assert k !in s.toCreate;
    assert Distinct(s'.created + s'.received);
    forall j ensures j in s'.toCreate <==> j in s'.res && s'.res[j].phase.Queued? {
    }
    forall j ensures j in s'.created + s'.received <==> j in s'.res && Reported(s'.res[j]) {
      assert s.created + s.received == s'.created + s'.received;
    }
  }

  lemma StartOrderGrows(p: Plan, s: State, s': State, k: string)
    requires StartOrder(p, s) && k in s.res && !s.res[k].started
    requires p.needs[k] == [] || exists q :: q in p.needs[k] && q in s.starts
    requires s'.res == StartOf(s, k, s.res[k]).res && s'.starts == s.starts + [k]
    ensures StartOrder(p, s')
  {
    forall i | 0 <= i < |s'.starts| && s'.starts[i] in p.needs && p.needs[s'.starts[i]] != []
      ensures exists q :: q in p.needs[s'.starts[i]] && q in s'.starts[..i]
    {
      if i < |s.starts| {
        assert s'.starts[..i] == s.starts[..i];
      } else {
        assert s'.starts[..i] == s.starts;
      }
    }
  }

  lemma RestRootVisit(p: Plan, s: State, k: string)
    requires Shape(p, s) && Rest(p, s) && Enabled(p, s, RootVisit(k))
    ensures Rest(p, DoRootVisit(p, s, k))
  {
    if p.needs[k] == [] && !s.res[k].started {
      StartKeeps(p, s, DoRootVisit(p, s, k), k);
    } else {
      QuietKeeps(p, s, DoRootVisit(p, s, k));
    }
  }

  /** A request comes from a poller, a poller from a started requirement. */
  lemma RestStartChecked(p: Plan, s: State, k: string)
    requires ValidPlan(p) && Shape(p, s) && Rest(p, s) && Enabled(p, s, StartChecked(k))
    ensures Rest(p, DoStartChecked(s, k))
  {
    assert ResourceOk(p, s, k);
    var parent := s.res[k].lock.value.parent;
    assert Edge(p.neededBy, parent, k) && Edge(p.needs, k, parent);
    assert parent in p.needs[k] && parent in s.starts;
    StartKeeps(p, s, DoStartChecked(s, k), k);
  }

  lemma RestDispatch(p: Plan, s: State)
    requires Shape(p, s) && Rest(p, s) && Enabled(p, s, Dispatch)
    ensures Rest(p, DoDispatch(s))
  {
    var k, s' := s.toCreate[0], DoDispatch(s);
    assert k in s.toCreate && ResourceOk(p, s, k);
    SameHolders(s, s', k);
    assert s.toCreate == [k] + s'.toCreate;
    forall j ensures j in s'.toCreate <==> j in s'.res && s'.res[j].phase.Queued? {
      assert j in s.toCreate <==> j == k || j in s'.toCreate;
    }
    assert s'.created + s'.received == s.created + s.received;
  }

  lemma RestAcquire(p: Plan, s: State, k: string)
    requires Shape(p, s) && Rest(p, s) && Enabled(p, s, Acquire(k))
    ensures Rest(p, DoAcquire(p, s, k))
  {
    hide Shape;
    hide Channels;
    hide StartOrder;
    var s' := DoAcquire(p, s, k);
    assert Holders(s') == Holders(s) + {k};
    OtherStages(p, s, s', k);
  }

  lemma RestRelease(p: Plan, s: State, k: string)
    requires Shape(p, s) && Rest(p, s) && Enabled(p, s, Release(k))
    ensures Rest(p, DoRelease(s, k))
  {
    var s' := DoRelease(s, k);
    assert ResourceOk(p, s, k);
    assert k in Holders(s) && Holders(s') == Holders(s) - {k};
    OtherStages(p, s, s', k);
  }

  /** Only permits move. */
  lemma OtherStages(p: Plan, s: State, s': State, k: string)
    requires Channels(p, s) && StartOrder(p, s)
    requires k in s.res && k in s'.res && s'.res == s.res[k := s'.res[k]]
    requires s.res[k].started == s'.res[k].started && s.res[k].phase.Queued? == s'.res[k].phase.Queued?
    requires Reported(s.res[k]) == Reported(s'.res[k])
    requires s'.toCreate == s.toCreate && s'.created == s.created && s'.received == s.received && s'.starts == s.starts
    ensures Channels(p, s') && StartOrder(p, s')
  {
    hide Distinct;
  }

  lemma RestReport(p: Plan, s: State, k: string)
    requires Shape(p, s) && Rest(p, s) && Enabled(p, s, Report(k))
    ensures Rest(p, DoReport(s, k))
  {
    var s' := DoReport(s, k);
    assert ResourceOk(p, s, k);
    SameHolders(s, s', k);
    assert k !in s.created + s.received;
    DistinctWithin(s.created, k, s.received);
    forall j ensures j in s'.created + s'.received <==> j in s'.res && Reported(s'.res[j]) {
      assert j in s'.created + s'.received <==> j == k || j in s.created + s.received;
    }
  }

  lemma RestReceive(p: Plan, s: State)
    requires Shape(p, s) && Rest(p, s) && Enabled(p, s, Receive)
    ensures Rest(p, DoReceive(s))
  {
    var s', k := DoReceive(s), s.created[0];
    assert Holders(s') == Holders(s);
    assert s.created + s.received == [k] + (s'.created + s.received);
    DistinctRotated(k, s'.created + s.received);
    assert s'.created + s'.received == (s'.created + s.received) + [k];
    forall j ensures j in s'.created + s'.received <==> j in s'.res && Reported(s'.res[j]) {
      assert j in s'.created + s'.received <==> j in s.created + s.received;
    }
  }

  lemma DistinctWithin<T>(a: seq<T>, x: T, b: seq<T>)
    requires Distinct(a + b) && x !in a + b
    ensures Distinct(a + [x] + b)
  {
    var s, t := a + b, a + [x] + b;
    forall i, j | 0 <= i < j < |t| ensures t[i] != t[j] {
      assert t[i] == if i < |a| then s[i] else if i == |a| then x else s[i - 1];
      assert t[j] == if j < |a| then s[j] else if j == |a| then x else s[j - 1];
    }
  }

  lemma DistinctRotated<T>(x: T, b: seq<T>)
    requires Distinct([x] + b)
    ensures Distinct(b + [x])
  {
    var s, t := [x] + b, b + [x];
    assert forall i :: 0 <= i < |b| ==> t[i] == s[i + 1];
    assert t[|b|] == s[0];
  }

  lemma RestKept(p: Plan, s: State, e: Event)
    requires ValidPlan(p) && Shape(p, s) && Rest(p, s) && Enabled(p, s, e)
    ensures Rest(p, Apply(p, s, e))
  {
    hide ValidPlan;
    hide Shape;
    hide Channels;
    hide Semaphore;
    hide StartOrder;
    match e {
      case RootVisit(k) => RestRootVisit(p, s, k);
      case Dispatch => RestDispatch(p, s);
      case Acquire(k) => RestAcquire(p, s, k);
      case Report(k) => RestReport(p, s, k);
      case Release(k) => RestRelease(p, s, k);
      case StartChecked(k) => RestStartChecked(p, s, k);
      case Receive => RestReceive(p, s);
      case Finalize => RestFinalize(p, s);
      case _ =>
        QuietSteps(p, s, e);
        QuietKeeps(p, s, Apply(p, s, e));
    }
  }

  lemma RestFinalize(p: Plan, s: State)
    requires Rest(p, s)
    ensures Rest(p, s.(finalized := true))
  {
    hide Distinct;
    assert Holders(s.(finalized := true)) == Holders(s);
  }

  lemma InvKept(p: Plan, s: State, e: Event)
    requires ValidPlan(p) && Inv(p, s) && Enabled(p, s, e)
    ensures Inv(p, Apply(p, s, e))
  {
    hide ValidPlan;
    hide Shape;
    hide Channels;
    hide Semaphore;
    hide StartOrder;
    ShapeKept(p, s, e);
    RestKept(p, s, e);
  }

  lemma InvInit(p: Plan)
    requires ValidPlan(p)
    ensures Inv(p, Init(p))
  {
    var s := Init(p);
    assert Holders(s) == {};
    assert s.created + s.received == [];
  }

  /** The invariant holds in every state of every run. */
  lemma {:induction false} InvInRun(p: Plan, states: seq<State>, events: seq<Event>, i: nat)
    requires ValidPlan(p) && IsRun(p, states, events) && i < |states|
    ensures Inv(p, states[i])
  {
    hide Inv;
    hide ValidPlan;
    if i == 0 {
      InvInit(p);
    } else {
      InvInRun(p, states, events, i - 1);
      InvKept(p, states[i - 1], events[i - 1]);
      assert states[i - 1 + 1] == Apply(p, states[i - 1], events[i - 1]);
    }
  }

  // ---------- consequences ----------

  lemma DistinctKeysFit(p: Plan, s: seq<string>)
    requires ValidPlan(p) && Distinct(s) && forall k :: k in s ==> k in p.needs
    ensures |s| <= |p.keys|
  {
    DistinctCount(s);
    DistinctCount(p.keys);
    SubsetNotLarger(Elements(s), Elements(p.keys));
  }

  /** Both channels stay within their capacity, and so does the semaphore. */
  lemma ChannelsFit(p: Plan, s: State)
    requires ValidPlan(p) && Inv(p, s)
    ensures |s.toCreate| <= |p.keys| && |s.created| + |s.received| <= |p.keys| && s.permits <= Limit(p)
  {
    DistinctKeysFit(p, s.toCreate);
    DistinctKeysFit(p, s.created + s.received);
  }

  predicate SendsRequest(p: Plan, s: State, e: Event)
    requires Enabled(p, s, e)
  {
    e.StartChecked? || (e.RootVisit? && p.needs[e.k] == [] && !s.res[e.k].started)
  }

  /** The finalizer runs only after every resource of the graph has reported, so every worker has finished its work. */
  lemma AllReceived(p: Plan, s: State)
    requires ValidPlan(p) && Inv(p, s) && s.finalized
    ensures forall k :: k in p.needs ==> Reported(s.res[k])
  {
    EveryKeyReported(p, s);
    forall k | k in p.needs ensures Reported(s.res[k]) {
      assert k in s.created + s.received;
    }
  }

  lemma EveryKeyReported(p: Plan, s: State)
    requires ValidPlan(p) && Channels(p, s) && |s.received| == |p.keys|
    ensures forall k :: k in p.needs ==> k in s.created + s.received
  {
    var all := s.created + s.received;
    DistinctCount(all);
    DistinctCount(p.keys);
    FullSubset(Elements(all), Elements(p.keys));
    forall k | k in p.needs ensures k in all {
      assert k in Elements(p.keys) && k in Elements(all);
    }
  }

  /** Whenever a request or a worker is about to send, the channel has room and is not yet closed. */
  lemma SendsNeverBlock(p: Plan, s: State, e: Event)
    requires ValidPlan(p) && Inv(p, s) && Enabled(p, s, e)
    ensures SendsRequest(p, s, e) ==> |s.toCreate| < |p.keys| && !s.finalized
    ensures e.Report? ==> |s.created| < |p.keys| && !s.finalized
  {
    hide ValidPlan;
    if SendsRequest(p, s, e) || e.Report? {
      assert ResourceOk(p, s, e.k);
      if s.finalized {
        AllReceived(p, s);
      }
      InvKept(p, s, e);
      ChannelsFit(p, Apply(p, s, e));
    }
  }

  /** Whatever the cluster answers, in every state of every run: no resource is started twice, none with requirements before
      some requirement of its own, no more workers hold a permit than the semaphore allows, and each resource is queued and
      reported at most once. */
  lemma RunsAreSafe(p: Plan, states: seq<State>, events: seq<Event>, i: nat)
    requires ValidPlan(p) && IsRun(p, states, events) && i < |states|
    ensures var s := states[i];
      && Distinct(s.starts) && (forall k :: k in s.starts <==> k in s.res && s.res[k].started)
      && (forall n :: 0 <= n < |s.starts| && s.starts[n] in p.needs && p.needs[s.starts[n]] != [] ==>
            exists q :: q in p.needs[s.starts[n]] && q in s.starts[..n])
      && |Holders(s)| <= Limit(p) && (p.concurrency > 0 ==> |Holders(s)| <= p.concurrency)
      && Distinct(s.toCreate) && Distinct(s.created + s.received)
  {
    hide IsRun;
    InvInRun(p, states, events, i);
  }
}
