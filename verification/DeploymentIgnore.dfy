/** Ignoring a failure: what it marks, that it is never undone, and that nothing marked is created any more. */
module DeploymentIgnore {
  import opened Graphs
  import opened Deployment
  import opened DeploymentSafety

  // ---------- marking, as one sequential call ----------

  class Flags {
    var ignored: map<string, bool>

    constructor ()
      ensures ignored == map[]
    {
      ignored := map[];
    }

    ghost function Ignored(): set<string>
      reads this
    {
      set k | k in ignored && ignored[k]
    }

    /** Marks a resource and then everything that requires it, directly or not. */
    method IgnoreAll(neededBy: Graph, top: string)
      requires Acyclic(neededBy) && Closed(neededBy) && top in neededBy
      modifies this
      ensures Ignored() == old(Ignored()) + ReachSet(neededBy, top)
      decreases Rank(neededBy, top)
    {
      ignored := ignored[top := true];
      assert Ignored() == old(Ignored()) + {top};
      for i := 0 to |neededBy[top]|
        invariant Ignored() == old(Ignored()) + {top} + ReachOfFirst(neededBy, top, i)
      {
        assert Edge(neededBy, top, neededBy[top][i]);
        RankDrops(neededBy, top, neededBy[top][i]);
        IgnoreAll(neededBy, neededBy[top][i]);
        ReachOfNext(neededBy, top, i);
      }
      ReachSplits(neededBy, top);
    }
  }

  /** What the first `n` dependants of `u` reach. */
  ghost function ReachOfFirst(g: Graph, u: string, n: nat): set<string>
    requires u in g && n <= |g[u]|
  {
    set v | v in g.Keys && exists i :: 0 <= i < n && Reach(g, g[u][i], v)
  }

  lemma ReachOfNext(g: Graph, u: string, n: nat)
    requires u in g && n < |g[u]|
    ensures ReachOfFirst(g, u, n + 1) == ReachOfFirst(g, u, n) + ReachSet(g, g[u][n])
  {
    forall v | v in ReachOfFirst(g, u, n + 1) ensures v in ReachOfFirst(g, u, n) + ReachSet(g, g[u][n]) {
      var i :| 0 <= i < n + 1 && Reach(g, g[u][i], v);
    }
  }

  lemma ReachSplits(g: Graph, u: string)
    requires Closed(g) && u in g
    ensures ReachSet(g, u) == {u} + ReachOfFirst(g, u, |g[u]|)
  {
    ReachSelf(g, u);
    forall v | v in ReachSet(g, u) && v != u ensures v in ReachOfFirst(g, u, |g[u]|) {
      var w := ReachFirstStep(g, u, v);
      var i :| 0 <= i < |g[u]| && g[u][i] == w;
    }
    forall v | v in ReachOfFirst(g, u, |g[u]|) ensures v in ReachSet(g, u) {
      var i :| 0 <= i < |g[u]| && Reach(g, g[u][i], v);
      assert Edge(g, u, g[u][i]);
      ReachAfterEdge(g, u, g[u][i], v);
    }
  }

  // ---------- marking, interleaved with everything else ----------

  /** Below a worker that started marking, everything is marked or still ahead of it. */
  ghost predicate Spreads(p: Plan, s: State, k: string)
    requires k in s.res
  {
    s.res[k].spread ==> forall d :: Reach(p.neededBy, k, d) ==> Marked(s, d) || Ahead(p, s.res[k].phase, d)
  }

  ghost predicate Marked(s: State, d: string) {
    d in s.res && s.res[d].ignored
  }

  ghost predicate Ahead(p: Plan, phase: Phase, d: string) {
    phase.Marking? && exists t :: t in phase.todo && Reach(p.neededBy, t, d)
  }

  /** What is still ahead lies below the worker. */
  ghost predicate Below(p: Plan, s: State, k: string)
    requires k in s.res
  {
    s.res[k].phase.Marking? ==> s.res[k].spread && forall t :: t in s.res[k].phase.todo ==> Reach(p.neededBy, k, t)
  }

  /** A marked resource failed with policy ignore itself, or lies below one that failed with policy ignore-all. */
  ghost predicate MarkedForReason(p: Plan, s: State, d: string)
    requires d in s.res && d in p.policy
  {
    s.res[d].ignored ==> p.policy[d].Ignore? || exists k :: k in s.res && s.res[k].spread && Reach(p.neededBy, k, d)
  }

  ghost predicate MarkInv(p: Plan, s: State) {
    && s.res.Keys == p.needs.Keys == p.policy.Keys
    && (forall k :: k in s.res ==> Spreads(p, s, k) && Below(p, s, k) && MarkedForReason(p, s, k))
  }

  /** Marks and spreading workers stay. */
  ghost predicate MarksStay(s: State, s': State) {
    && s'.res.Keys == s.res.Keys
    && (forall k :: k in s.res ==> (s.res[k].ignored ==> s'.res[k].ignored) && (s.res[k].spread ==> s'.res[k].spread))
  }

  lemma MarkInvOneChanged(p: Plan, s: State, s': State, k: string)
    requires MarkInv(p, s) && MarksStay(s, s') && k in s.res && s'.res == s.res[k := s'.res[k]]
    requires Spreads(p, s', k) && Below(p, s', k) && MarkedForReason(p, s', k)
    ensures MarkInv(p, s')
  {
    forall j | j in s'.res ensures Spreads(p, s', j) && Below(p, s', j) && MarkedForReason(p, s', j) {
      if j != k { MarkInvElsewhere(p, s, s', j); }
    }
  }

  lemma MarkInvElsewhere(p: Plan, s: State, s': State, j: string)
    requires MarksStay(s, s') && j in s.res && j in p.policy && s'.res[j] == s.res[j]
    requires Spreads(p, s, j) && Below(p, s, j) && MarkedForReason(p, s, j)
    ensures Spreads(p, s', j) && Below(p, s', j) && MarkedForReason(p, s', j)
  {
    if s.res[j].ignored && !p.policy[j].Ignore? {
      var k :| k in s.res && s.res[k].spread && Reach(p.neededBy, k, j);
      assert s'.res[k].spread;
    }
  }

  /** A step that leaves marking alone. */
  lemma MarkInvSame(p: Plan, s: State, s': State, k: string)
    requires MarkInv(p, s) && k in s.res && k in s'.res && s'.res == s.res[k := s'.res[k]]
    requires s'.res[k].ignored == s.res[k].ignored && s'.res[k].spread == s.res[k].spread
    requires (!s.res[k].phase.Marking? && !s'.res[k].phase.Marking?) || s'.res[k].phase == s.res[k].phase
    ensures MarkInv(p, s')
  {
    assert Spreads(p, s, k) && Below(p, s, k) && MarkedForReason(p, s, k);
    assert Spreads(p, s', k) by {
      if s'.res[k].spread {
        forall d | Reach(p.neededBy, k, d) ensures Marked(s', d) || Ahead(p, s'.res[k].phase, d) {
          assert Marked(s, d) || Ahead(p, s.res[k].phase, d);
        }
      }
    }
    assert MarkedForReason(p, s', k) by { ReasonStays(p, s, s', k); }
    MarkInvOneChanged(p, s, s', k);
  }

  lemma ReasonStays(p: Plan, s: State, s': State, d: string)
    requires MarksStay(s, s') && d in s.res && d in p.policy && MarkedForReason(p, s, d)
    requires s'.res[d].ignored == s.res[d].ignored
    ensures MarkedForReason(p, s', d)
  {
    if s.res[d].ignored && !p.policy[d].Ignore? {
      var k :| k in s.res && s.res[k].spread && Reach(p.neededBy, k, d);
      assert s'.res[k].spread;
    }
  }

  /** The three ways a worker's own step can go as far as marking is concerned. */
  ghost predicate MarksAsTold(p: Plan, k: string, r: Res, r': Res)
    requires k in p.policy
  {
    || (r'.ignored == r.ignored && r'.spread == r.spread && !r'.phase.Marking?)
    || (p.policy[k].Ignore? && r'.ignored && r'.spread == r.spread && !r'.phase.Marking?)
    || (p.policy[k].IgnoreAll? && r'.ignored == r.ignored && r'.spread && r'.phase == Marking([k]))
  }

  lemma FailureMarks(p: Plan, k: string, r: Res, n: int)
    requires k in p.attempts && k in p.policy
    ensures MarksAsTold(p, k, r, AfterFailure(p, k, r, n))
  {
  }

  lemma ActMarking(p: Plan, k: string, r: Res, a: Action)
    requires k in p.attempts && k in p.policy && CanAct(r, a)
    ensures MarksAsTold(p, k, r, Act(p, k, r, a)) && !r.phase.Marking?
  {
    hide AfterFailure;
    if a.Poll? {
      FailureMarks(p, k, Cached(r, a.answer), r.phase.n);
    } else if a.Timeout? {
      FailureMarks(p, k, r.(failed := true), r.phase.n);
    }
  }

  lemma MarkInvAttempt(p: Plan, s: State, k: string, a: Action)
    requires MarkInv(p, s) && Enabled(p, s, Attempt(k, a))
    ensures MarkInv(p, DoAttempt(p, s, k, a))
  {
    ActMarking(p, k, s.res[k], a);
    hide Act;
    hide CanAct;
    var s' := DoAttempt(p, s, k, a);
    if s'.res[k].phase.Marking? {
      MarkingBegins(p, s, s', k);
    } else if s'.res[k].ignored == s.res[k].ignored {
      MarkInvSame(p, s, s', k);
    } else {
      IgnoredItself(p, s, s', k);
    }
  }

  lemma MarkingBegins(p: Plan, s: State, s': State, k: string)
    requires MarkInv(p, s) && k in s.res && k in s'.res && s'.res == s.res[k := s'.res[k]]
    requires s'.res[k].phase == Marking([k]) && s'.res[k].spread && s'.res[k].ignored == s.res[k].ignored
    ensures MarkInv(p, s')
  {
    assert MarkedForReason(p, s, k);
    ReasonStays(p, s, s', k);
    ReachSelf(p.neededBy, k);
    forall d | Reach(p.neededBy, k, d) ensures Ahead(p, s'.res[k].phase, d) {
      assert k in s'.res[k].phase.todo;
    }
    MarkInvOneChanged(p, s, s', k);
  }

  lemma IgnoredItself(p: Plan, s: State, s': State, k: string)
    requires MarkInv(p, s) && k in s.res && k in s'.res && s'.res == s.res[k := s'.res[k]]
    requires p.policy[k].Ignore? && s'.res[k].ignored && s'.res[k].spread == s.res[k].spread
    requires !s.res[k].phase.Marking? && !s'.res[k].phase.Marking?
    ensures MarkInv(p, s')
  {
    assert Spreads(p, s, k);
    if s'.res[k].spread {
      forall d | Reach(p.neededBy, k, d) ensures Marked(s', d) {
        assert Marked(s, d) || Ahead(p, s.res[k].phase, d);
      }
    }
    MarkInvOneChanged(p, s, s', k);
  }

  /** One marking step moves the frontier down by one vertex. */
  lemma FrontierAdvances(p: Plan, s: State, k: string)
    requires MarkInv(p, s) && CanMark(p, s, k)
    ensures Spreads(p, DoMark(p, s, k), k) && Below(p, DoMark(p, s, k), k)
  {
    var h, rest := s.res[k].phase.todo[0], s.res[k].phase.todo[1..];
    var todo, s' := p.neededBy[h] + rest, DoMark(p, s, k);
    assert Spreads(p, s, k) && Below(p, s, k);
    assert s.res[k].phase.todo == [h] + rest && h in s.res[k].phase.todo;
    forall t | t in todo ensures Reach(p.neededBy, k, t) {
      if t in p.neededBy[h] { ReachBeforeEdge(p.neededBy, k, h, t); } else { assert t in s.res[k].phase.todo; }
    }
    forall d | Reach(p.neededBy, k, d) ensures Marked(s', d) || exists t :: t in todo && Reach(p.neededBy, t, d) {
      FrontierMoves(p, s, s', k, h, rest, d);
    }
    assert s'.res[k].phase == (if todo == [] then Reporting else Marking(todo));
  }

  lemma MarkInvMark(p: Plan, s: State, k: string)
    requires MarkInv(p, s) && CanMark(p, s, k)
    ensures MarkInv(p, DoMark(p, s, k))
  {
    var h := s.res[k].phase.todo[0];
    var s1, s' := Set(s, h, s.res[h].(ignored := true)), DoMark(p, s, k);
    assert Below(p, s, k) && h in s.res[k].phase.todo;
    FrontierAdvances(p, s, k);
    hide Spreads;
    hide Below;
    MarkedHere(p, s, s1, k, h);
    assert MarkedForReason(p, s1, k);
    hide MarkedForReason;
    ReasonStays(p, s1, s', k);
    MarkInvOneChanged(p, s1, s', k);
  }

  lemma MarkedHere(p: Plan, s: State, s1: State, k: string, h: string)
    requires MarkInv(p, s) && k in s.res && h in s.res && s.res[k].spread && Reach(p.neededBy, k, h)
    requires s1 == Set(s, h, s.res[h].(ignored := true))
    ensures MarkInv(p, s1)
  {
    assert Spreads(p, s, h) && Below(p, s, h);
    assert s1.res[k].spread;
    if s1.res[h].spread {
      forall d | Reach(p.neededBy, h, d) ensures Marked(s1, d) || Ahead(p, s1.res[h].phase, d) {
        assert Marked(s, d) || Ahead(p, s.res[h].phase, d);
      }
    }
    MarkInvOneChanged(p, s, s1, h);
  }

  lemma FrontierMoves(p: Plan, s: State, s': State, k: string, h: string, rest: seq<string>, d: string)
    requires k in s.res && h in s.res && Spreads(p, s, k) && s.res[k].spread && s.res[k].phase == Marking([h] + rest)
    requires MarksStay(s, s') && s'.res[h].ignored && h in p.neededBy && Reach(p.neededBy, k, d)
    ensures Marked(s', d) || exists t :: t in p.neededBy[h] + rest && Reach(p.neededBy, t, d)
  {
    if !Marked(s, d) {
      assert Ahead(p, s.res[k].phase, d);
      var t :| t in [h] + rest && Reach(p.neededBy, t, d);
      if t == h && d != h {
        var w := ReachFirstStep(p.neededBy, h, d);
        assert w in p.neededBy[h] + rest;
      } else if t != h {
        assert t in p.neededBy[h] + rest;
      }
    }
  }

  lemma MarkInvStep(p: Plan, s: State, s': State)
    requires MarkInv(p, s) && s'.res == s.res
    ensures MarkInv(p, s')
  {
    forall j | j in s'.res ensures Spreads(p, s', j) && Below(p, s', j) && MarkedForReason(p, s', j) {
      MarkInvElsewhere(p, s, s', j);
    }
  }

  lemma MarkInvCheckStatus(p: Plan, s: State, k: string, answer: Answer)
    requires MarkInv(p, s) && Enabled(p, s, CheckStatus(k, answer))
    ensures MarkInv(p, DoCheckStatus(p, s, k, answer))
  {
    var q := Target(p, s, k);
    var s1 := Set(s, q, Cached(s.res[q], answer));
    MarkInvSame(p, s, s1, q);
    MarkInvSame(p, s1, DoCheckStatus(p, s, k, answer), k);
  }

  lemma MarkInvKept(p: Plan, s: State, e: Event)
    requires Inv(p, s) && MarkInv(p, s) && Enabled(p, s, e)
    ensures MarkInv(p, Apply(p, s, e))
  {
    hide MarkInv;
    hide Channels;
    hide Semaphore;
    hide StartOrder;
    hide DoMark;
    hide DoAttempt;
    hide DoCheckStatus;
    hide DoDispatch;
    hide CanMark;
    hide CanAct;
    if e.RootVisit? {
      MarkInvRootVisit(p, s, e.k);
    } else if e.Dispatch? {
      MarkInvDispatch(p, s);
    } else if e.Attempt? {
      MarkInvAttempt(p, s, e.k, e.action);
    } else if e.Mark? {
      MarkInvMark(p, s, e.k);
    } else if e.CheckStatus? {
      MarkInvCheckStatus(p, s, e.k, e.answer);
    } else if e.PollerDone? || e.Receive? || e.Finalize? {
      MarkInvStep(p, s, Apply(p, s, e));
    } else {
      MarkInvStage(p, s, e);
    }
  }

  lemma MarkInvRootVisit(p: Plan, s: State, k: string)
    requires Shape(p, s) && MarkInv(p, s) && Enabled(p, s, RootVisit(k))
    ensures MarkInv(p, DoRootVisit(p, s, k))
  {
    hide MarkInv;
    assert ResourceOk(p, s, k);
    if p.needs[k] == [] && !s.res[k].started {
      MarkInvSame(p, s, DoRootVisit(p, s, k), k);
    } else {
      MarkInvStep(p, s, DoRootVisit(p, s, k));
    }
  }

  /** The other steps on one resource. */
  lemma MarkInvStage(p: Plan, s: State, e: Event)
    requires Shape(p, s) && MarkInv(p, s) && Enabled(p, s, e)
    requires
      || e.Acquire? || e.SpawnPollers? || e.Report? || e.Release?
      || e.BeginCheck? || e.CheckVerdict? || e.StartChecked? || e.Observe?
    ensures MarkInv(p, Apply(p, s, e))
  {
    hide MarkInv;
    assert ResourceOk(p, s, e.k);
    hide Shape;
    MarkInvSame(p, s, Apply(p, s, e), e.k);
  }

  lemma MarkInvDispatch(p: Plan, s: State)
    requires Inv(p, s) && MarkInv(p, s) && Enabled(p, s, Dispatch)
    ensures MarkInv(p, DoDispatch(s))
  {
    assert s.toCreate[0] in s.toCreate;
    MarkInvSame(p, s, DoDispatch(s), s.toCreate[0]);
  }

  lemma MarkInvInit(p: Plan)
    requires ValidPlan(p)
    ensures MarkInv(p, Init(p))
  {
  }

  lemma {:induction false} MarkInvInRun(p: Plan, states: seq<State>, events: seq<Event>, i: nat)
    requires ValidPlan(p) && IsRun(p, states, events) && i < |states|
    ensures MarkInv(p, states[i])
  {
    hide MarkInv;
    hide Inv;
    hide ValidPlan;
    if i == 0 {
      MarkInvInit(p);
    } else {
      MarkInvInRun(p, states, events, i - 1);
      InvInRun(p, states, events, i - 1);
      hide Enabled;
      hide Apply;
      MarkInvKept(p, states[i - 1], events[i - 1]);
      assert states[i - 1 + 1] == Apply(p, states[i - 1], events[i - 1]);
    }
  }

  /** A worker that failed with policy ignore-all and is past marking has marked everything below it; and nothing is ever
      marked except below such a worker, or for its own policy ignore. */
  lemma MarkingIsExact(p: Plan, states: seq<State>, events: seq<Event>, i: nat, d: string)
    requires ValidPlan(p) && IsRun(p, states, events) && i < |states| && d in states[i].res
    ensures forall k ::
      k in states[i].res && states[i].res[k].spread && !states[i].res[k].phase.Marking? && Reach(p.neededBy, k, d) ==>
        states[i].res[d].ignored
    ensures states[i].res[d].ignored ==>
              d in p.policy &&
              (p.policy[d].Ignore? || exists k :: k in states[i].res && states[i].res[k].spread && Reach(p.neededBy, k, d))
  {
    MarkInvInRun(p, states, events, i);
    assert Spreads(p, states[i], d) && MarkedForReason(p, states[i], d);
    forall k | k in states[i].res && states[i].res[k].spread && !states[i].res[k].phase.Marking? && Reach(p.neededBy, k, d)
      ensures states[i].res[d].ignored
    {
      assert Spreads(p, states[i], k);
    }
  }

  // ---------- ignored means never created again ----------

  /** Marked, and not past the point where the current attempt reads the mark. */
  predicate OutOfReach(s: State, d: string) {
    d in s.res && s.res[d].ignored && !s.res[d].phase.Creating?
  }

  lemma ActOutOfReach(p: Plan, k: string, r: Res, a: Action)
    requires k in p.attempts && k in p.policy && CanAct(r, a) && r.ignored && !r.phase.Creating?
    ensures Act(p, k, r, a).ignored && !Act(p, k, r, a).phase.Creating?
  {
  }

  lemma OutOfReachKept(p: Plan, s: State, e: Event, d: string)
    requires Enabled(p, s, e) && OutOfReach(s, d)
    ensures OutOfReach(Apply(p, s, e), d)
    ensures e.Attempt? && e.k == d ==> !e.action.Create?
  {
    if e.Attempt? && e.k == d {
      ActOutOfReach(p, e.k, s.res[e.k], e.action);
      hide Act;
    }
  }

  /** From the moment a resource is marked, unless its creation is already under way, it is never created in the rest of
      the run. */
  lemma {:induction false} NeverCreatedOnceIgnored(p: Plan, states: seq<State>, events: seq<Event>, i: nat, j: nat,
                                                   d: string)
    requires IsRun(p, states, events) && i <= j < |states| && OutOfReach(states[i], d)
    ensures OutOfReach(states[j], d)
    ensures j < |events| ==> !(events[j].Attempt? && events[j].k == d && events[j].action.Create?)
    decreases j - i
  {
    hide OutOfReach;
    if i < j {
      NeverCreatedOnceIgnored(p, states, events, i, j - 1, d);
      OutOfReachKept(p, states[j - 1], events[j - 1], d);
      assert states[j - 1 + 1] == Apply(p, states[j - 1], events[j - 1]);
    }
    if j < |events| {
      OutOfReachKept(p, states[j], events[j], d);
    }
  }
}
