/** Resources are created in the order of the graph. */
module DeploymentOrder {
  import opened Dependencies
  import opened Graphs
  import opened Deployment
  import opened DeploymentSafety

  // ---------- creation order ----------

  /** The cluster reports a resource ready only after its creation was requested. */
  predicate Honest(p: Plan, s: State, e: Event)
    requires Enabled(p, s, e)
  {
    match e
    case Attempt(k, Poll(answer)) => answer.ready ==> k in s.creates
    case CheckStatus(k, answer) => answer.ready ==> Target(p, s, k) in s.creates
    case Observe(k, answer) => answer.ready ==> k in s.creates
    case _ => true
  }

  /** A requirement no longer in the way: created, or ignored after a failure. */
  predicate Satisfied(s: State, q: string) {
    q in s.creates || (q in s.res && s.res[q].ignored)
  }

  /** What is known of the requirements of `k` from its cached status, its check in progress, and its being started. */
  ghost predicate OrderOk(p: Plan, s: State, k: string)
    requires k in s.res && k in p.needs
  {
    var r := s.res[k];
    && (r.ready ==> k in s.creates)
    && (r.lock.Some? && r.lock.value.next <= |p.needs[k]| ==>
          && (forall j :: 0 <= j < r.lock.value.next ==> Satisfied(s, p.needs[k][j]))
          && (r.lock.value.seen.Some? && r.lock.value.seen.value.ready && r.lock.value.next < |p.needs[k]| ==>
                p.needs[k][r.lock.value.next] in s.creates))
    && (r.started ==> forall q :: q in p.needs[k] ==> Satisfied(s, q))
  }

  /** Every creation came after that of each requirement, save those ignored since. */
  ghost predicate CreateOrder(p: Plan, s: State) {
    forall i, q :: 0 <= i < |s.creates| && Edge(p.needs, s.creates[i], q) ==>
      q in s.creates[..i] || (q in s.res && s.res[q].ignored)
  }

  ghost predicate Ordered(p: Plan, s: State) {
    && s.res.Keys == p.needs.Keys
    && (forall k :: k in s.res ==> OrderOk(p, s, k))
    && CreateOrder(p, s)
  }

  /** Creations are only added, ignored resources stay ignored. */
  ghost predicate Onward(s: State, s': State) {
    && s'.res.Keys == s.res.Keys
    && s.creates <= s'.creates
    && (forall k :: k in s.res && s.res[k].ignored ==> s'.res[k].ignored)
  }

  lemma OrderOkOnward(p: Plan, s: State, s': State, k: string)
    requires k in s.res && k in p.needs && Onward(s, s') && OrderOk(p, s, k)
    requires s'.res[k].lock == s.res[k].lock && (s'.res[k].ready ==> s.res[k].ready || k in s'.creates)
    requires s'.res[k].started ==> s.res[k].started
    ensures OrderOk(p, s', k)
  {
  }

  lemma SatisfiedOnward(s: State, s': State, q: string)
    requires Onward(s, s') && Satisfied(s, q)
    ensures Satisfied(s', q)
  {
  }

  lemma CreateOrderOnward(p: Plan, s: State, s': State)
    requires Onward(s, s') && CreateOrder(p, s) && s'.creates == s.creates
    ensures CreateOrder(p, s')
  {
  }

  /** All but `k` keep what matters. */
  lemma OrderedOneChanged(p: Plan, s: State, s': State, k: string)
    requires Ordered(p, s) && Onward(s, s') && s'.creates == s.creates
    requires k in s.res && s'.res == s.res[k := s'.res[k]] && OrderOk(p, s', k)
    ensures Ordered(p, s')
  {
    CreateOrderOnward(p, s, s');
    hide OrderOk;
    forall j | j in s'.res ensures OrderOk(p, s', j) {
      if j != k { OrderOkOnward(p, s, s', j); }
    }
  }

  lemma ActHonest(p: Plan, s: State, k: string, a: Action)
    requires Enabled(p, s, Attempt(k, a)) && Honest(p, s, Attempt(k, a))
    ensures Act(p, k, s.res[k], a).ready ==> s.res[k].ready || k in s.creates
  {
  }

  lemma OrderedAttempt(p: Plan, s: State, k: string, a: Action)
    requires Shape(p, s) && Ordered(p, s) && Enabled(p, s, Attempt(k, a)) && Honest(p, s, Attempt(k, a))
    ensures Ordered(p, DoAttempt(p, s, k, a))
  {
    assert ResourceOk(p, s, k);
    ActKeepsStage(p, k, s.res[k], a);
    ActHonest(p, s, k, a);
    hide Act;
    var s' := DoAttempt(p, s, k, a);
    forall j | j in s'.res ensures OrderOk(p, s', j) {
      OrderOkOnward(p, s, s', j);
    }
    CreationOrdered(p, s, s', k, a.Create?);
  }

  lemma CreationOrdered(p: Plan, s: State, s': State, k: string, creates: bool)
    requires Ordered(p, s) && Onward(s, s') && k in s.res && s.res[k].started
    requires s'.creates == if creates then s.creates + [k] else s.creates
    ensures CreateOrder(p, s')
  {
    forall i, q | 0 <= i < |s'.creates| && Edge(p.needs, s'.creates[i], q)
      ensures q in s'.creates[..i] || (q in s'.res && s'.res[q].ignored)
    {
      if i < |s.creates| {
        assert s'.creates[i] == s.creates[i] && s'.creates[..i] == s.creates[..i];
        EarlierCreation(p, s, s', i, q);
      } else {
        assert s'.creates[..i] == s.creates;
        LatestCreation(p, s, s', k, q);
      }
    }
  }

  lemma EarlierCreation(p: Plan, s: State, s': State, i: nat, q: string)
    requires CreateOrder(p, s) && Onward(s, s') && i < |s.creates| && Edge(p.needs, s.creates[i], q)
    ensures q in s.creates[..i] || (q in s'.res && s'.res[q].ignored)
  {
  }

  lemma LatestCreation(p: Plan, s: State, s': State, k: string, q: string)
    requires k in s.res && k in p.needs && OrderOk(p, s, k) && Onward(s, s') && s.res[k].started && Edge(p.needs, k, q)
    ensures q in s.creates || (q in s'.res && s'.res[q].ignored)
  {
    assert Satisfied(s, q);
  }

  lemma OrderedMark(p: Plan, s: State, k: string)
    requires Ordered(p, s) && CanMark(p, s, k)
    ensures Ordered(p, DoMark(p, s, k))
  {
    var h := s.res[k].phase.todo[0];
    var s1 := Set(s, h, s.res[h].(ignored := true));
    OrderOkOnward(p, s, s1, h);
    OrderedOneChanged(p, s, s1, h);
    OrderOkOnward(p, s1, DoMark(p, s, k), k);
    OrderedOneChanged(p, s1, DoMark(p, s, k), k);
  }

  lemma OrderedCheckStatus(p: Plan, s: State, k: string, answer: Answer)
    requires Ordered(p, s) && Enabled(p, s, CheckStatus(k, answer)) && Honest(p, s, CheckStatus(k, answer))
    ensures Ordered(p, DoCheckStatus(p, s, k, answer))
  {
    var q := Target(p, s, k);
    var s1 := Set(s, q, Cached(s.res[q], answer));
    assert OrderOk(p, s, q) && OrderOk(p, s, k);
    OrderOkOnward(p, s, s1, q);
    OrderedOneChanged(p, s, s1, q);
    OrderedSeen(p, s1, DoCheckStatus(p, s, k, answer), k, Seen(s.res[q], answer));
  }

  lemma OrderedSeen(p: Plan, s: State, s': State, k: string, seen: Answer)
    requires Ordered(p, s) && LooksAt(p, s, k) && (seen.ready ==> Target(p, s, k) in s.creates)
    requires s' == Set(s, k, s.res[k].(lock := Some(s.res[k].lock.value.(seen := Some(seen)))))
    ensures Ordered(p, s')
  {
    assert OrderOk(p, s, k);
    forall q | Satisfied(s, q) ensures Satisfied(s', q) {
      SatisfiedOnward(s, s', q);
    }
    OrderedOneChanged(p, s, s', k);
  }

  lemma OrderedVerdict(p: Plan, s: State, k: string)
    requires Ordered(p, s) && Enabled(p, s, CheckVerdict(k)) && p.onErrorEdges == {}
    ensures Ordered(p, DoCheckVerdict(p, s, k))
  {
    assert OrderOk(p, s, k);
    var c, s' := s.res[k].lock.value, DoCheckVerdict(p, s, k);
    if !Blocks(false, c.seen.value, s.res[Target(p, s, k)].ignored) {
      assert Satisfied(s, Target(p, s, k));
      forall j | 0 <= j < c.next + 1 ensures Satisfied(s', p.needs[k][j]) {
        SatisfiedOnward(s, s', p.needs[k][j]);
      }
    }
    OrderedOneChanged(p, s, s', k);
  }

  lemma OrderedStart(p: Plan, s: State, s': State, k: string)
    requires Ordered(p, s) && k in s.res
    requires s'.res == StartOf(s, k, s.res[k]).res && s'.creates == s.creates
    requires forall q :: q in p.needs[k] ==> Satisfied(s, q)
    ensures Ordered(p, s')
  {
    assert OrderOk(p, s, k);
    forall q | q in p.needs[k] ensures Satisfied(s', q) {
      SatisfiedOnward(s, s', q);
    }
    OrderedOneChanged(p, s, s', k);
  }

  lemma OrderedStartChecked(p: Plan, s: State, k: string)
    requires Shape(p, s) && Ordered(p, s) && Enabled(p, s, StartChecked(k))
    ensures Ordered(p, DoStartChecked(s, k))
  {
    assert OrderOk(p, s, k);
    forall q | q in p.needs[k] ensures Satisfied(s, q) {
      var j :| 0 <= j < |p.needs[k]| && p.needs[k][j] == q;
    }
    OrderedStart(p, s, DoStartChecked(s, k), k);
  }

  lemma OrderedRootVisit(p: Plan, s: State, k: string)
    requires Ordered(p, s) && Enabled(p, s, RootVisit(k))
    ensures Ordered(p, DoRootVisit(p, s, k))
  {
    if p.needs[k] == [] && !s.res[k].started {
      OrderedStart(p, s, DoRootVisit(p, s, k), k);
    } else {
      OrderedSame(p, s, DoRootVisit(p, s, k));
    }
  }

  lemma OrderedSame(p: Plan, s: State, s': State)
    requires Ordered(p, s) && s'.res == s.res && s'.creates == s.creates
    ensures Ordered(p, s')
  {
    CreateOrderOnward(p, s, s');
    forall j | j in s'.res ensures OrderOk(p, s', j) {
      assert OrderOk(p, s, j);
    }
  }

  /** Steps that only move a resource to its next stage, or begin a check. */
  lemma OrderedStage(p: Plan, s: State, s': State, k: string)
    requires Ordered(p, s) && k in s.res && k in s'.res && s'.res == s.res[k := s'.res[k]] && s'.creates == s.creates
    requires s'.res[k].ignored == s.res[k].ignored && s'.res[k].started == s.res[k].started
    requires s'.res[k].ready ==> s.res[k].ready || k in s.creates
    requires
      || s'.res[k].lock == s.res[k].lock
      || (s'.res[k].lock.Some? && s'.res[k].lock.value.next == 0 && s'.res[k].lock.value.seen.None?)
    ensures Ordered(p, s')
  {
    assert OrderOk(p, s, k);
    if s'.res[k].lock == s.res[k].lock { OrderOkOnward(p, s, s', k); }
    else {
      forall q | q in p.needs[k] && s.res[k].started ensures Satisfied(s', q) { SatisfiedOnward(s, s', q); }
    }
    OrderedOneChanged(p, s, s', k);
  }

  lemma OrderedKept(p: Plan, s: State, e: Event)
    requires ValidPlan(p) && Inv(p, s) && Ordered(p, s) && Enabled(p, s, e) && Honest(p, s, e) && p.onErrorEdges == {}
    ensures Ordered(p, Apply(p, s, e))
  {
    hide Ordered;
    hide ValidPlan;
    hide Shape;
    hide Channels;
    hide Semaphore;
    hide StartOrder;
    var s' := Apply(p, s, e);
    SameKeys(p, s, e);
    match e {
      case RootVisit(k) => OrderedRootVisit(p, s, k);
      case Dispatch => OrderedStage(p, s, s', s.toCreate[0]);
      case Acquire(k) => OrderedStage(p, s, s', k);
      case Attempt(k, a) => OrderedAttempt(p, s, k, a);
      case SpawnPollers(k) => OrderedStage(p, s, s', k);
      case Mark(k) => OrderedMark(p, s, k);
      case Report(k) => OrderedStage(p, s, s', k);
      case Release(k) => OrderedStage(p, s, s', k);
      case BeginCheck(_, k) => OrderedStage(p, s, s', k);
      case CheckStatus(k, answer) => OrderedCheckStatus(p, s, k, answer);
      case CheckVerdict(k) => OrderedVerdict(p, s, k);
      case StartChecked(k) => OrderedStartChecked(p, s, k);
      case PollerDone(_, _) => OrderedSame(p, s, s');
      case Observe(k, _) => OrderedStage(p, s, s', k);
      case Receive => OrderedSame(p, s, s');
      case Finalize => OrderedSame(p, s, s');
    }
  }

  lemma SameKeys(p: Plan, s: State, e: Event)
    requires Enabled(p, s, e)
    ensures Apply(p, s, e).res.Keys == s.res.Keys
  {
  }

  lemma OrderedInit(p: Plan)
    ensures Ordered(p, Init(p))
  {
  }

  ghost predicate HonestRun(p: Plan, states: seq<State>, events: seq<Event>) {
    IsRun(p, states, events) && forall i :: 0 <= i < |events| ==> Honest(p, states[i], events[i])
  }

  lemma {:induction false} OrderedInRun(p: Plan, states: seq<State>, events: seq<Event>, i: nat)
    requires ValidPlan(p) && p.onErrorEdges == {} && HonestRun(p, states, events) && i < |states|
    ensures Ordered(p, states[i])
  {
    hide Inv;
    hide ValidPlan;
    hide Honest;
    if i == 0 {
      OrderedInit(p);
    } else {
      OrderedInRun(p, states, events, i - 1);
      InvInRun(p, states, events, i - 1);
      hide Ordered;
      hide Enabled;
      hide Apply;
      OrderedKept(p, states[i - 1], events[i - 1]);
      assert states[i - 1 + 1] == Apply(p, states[i - 1], events[i - 1]);
    }
  }

  /** Without on-error edges, each creation comes after the creation of every direct requirement not ignored by then. */
  lemma CreatedAfterRequirements(p: Plan, states: seq<State>, events: seq<Event>, n: nat, i: nat, q: string)
    requires ValidPlan(p) && p.onErrorEdges == {} && HonestRun(p, states, events) && n < |states|
    requires i < |states[n].creates| && Edge(p.needs, states[n].creates[i], q)
    ensures q in states[n].creates[..i] || (q in states[n].res && states[n].res[q].ignored)
  {
    OrderedInRun(p, states, events, n);
  }

  lemma {:induction false} CreatedAfterAll(p: Plan, s: State, i: nat, w: string, a: string)
    requires CreateOrder(p, s) && forall k :: k in s.res ==> !s.res[k].ignored
    requires i < |s.creates| && Edge(p.needs, s.creates[i], w) && Reach(p.needs, w, a)
    ensures a in s.creates[..i]
    decreases i
  {
    assert w in s.res ==> !s.res[w].ignored;
    assert w in s.creates[..i];
    var j :| 0 <= j < i && s.creates[j] == w;
    if a != w {
      var x := ReachFirstStep(p.needs, w, a);
      CreatedAfterAll(p, s, j, x, a);
      var m :| 0 <= m < j && s.creates[..j][m] == a;
      assert s.creates[..i][m] == a;
    }
  }

  /** When moreover nothing was ignored, each creation comes after the creation of all transitive requirements. */
  lemma CreationsFollowTheGraph(p: Plan, states: seq<State>, events: seq<Event>, n: nat, i: nat, w: string, a: string)
    requires ValidPlan(p) && p.onErrorEdges == {} && HonestRun(p, states, events) && n < |states|
    requires forall k :: k in states[n].res ==> !states[n].res[k].ignored
    requires i < |states[n].creates| && Edge(p.needs, states[n].creates[i], w) && Reach(p.needs, w, a)
    ensures a in states[n].creates[..i]
  {
    OrderedInRun(p, states, events, n);
    CreatedAfterAll(p, states[n], i, w, a);
  }
}
