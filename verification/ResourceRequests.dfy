/** The methods of one scheduled resource, as they run when nobody interferes, and their place among the steps of a
    deployment. */
module ResourceRequests {
  import opened Dependencies
  import opened Graphs
  import opened Deployment
  import opened DeploymentCompletion

  // ---------- the methods ----------

  /** A channel of resources waiting to be created. */
  class CreationQueue {
    var items: seq<string>

    constructor ()
      ensures items == []
    {
      items := [];
    }
  }

  class LiveResource {
    const key: string
    var started: bool
    var ignored: bool
    var failed: bool
    var ready: bool

    constructor (key: string)
      ensures this.key == key && View() == FRESH_RES
    {
      this.key := key;
      started, ignored, failed, ready := false, false, false, false;
    }

    /** The resource as the deployment sees it, its worker aside. */
    ghost function View(): Res
      reads this
    {
      FRESH_RES.(started := started, ignored := ignored, failed := failed, ready := ready)
    }

    /** The cached status if there is one, else the cluster's answer; a clean "ready" is cached. */
    method Status(answer: Answer) returns (seen: Answer)
      modifies this`ready
      ensures seen == Seen(old(View()), answer) && View() == Cached(old(View()), answer)
    {
      if ready || failed {
        return Answer(ready, failed);
      }
      if !answer.err && answer.ready {
        ready := true;
      }
      seen := answer;
    }

    method ResetStatus()
      modifies this`failed, this`ready
      ensures !failed && !ready
    {
      failed := false;
      ready := false;
    }

    /** Reads the requirements in order until one of them blocks creation. */
    method IsBlocked(requirements: seq<LiveResource>, onError: set<string>,
                     answers: seq<Answer>) returns (blocked: bool)
      requires |answers| == |requirements| && AllDifferent(requirements)
      modifies requirements
      ensures blocked <==>
        exists i :: 0 <= i < |requirements| && Blocker(requirements, onError, answers, old(Views(requirements)), i)
      ensures ReadInOrder(requirements, onError, answers, old(Views(requirements)), Views(requirements))
    {
      hide Blocks;
      hide Seen;
      hide Cached;
      hide ReadInOrder;
      hide LiveResource.View;
      ghost var before := Views(requirements);
      for i := 0 to |requirements|
        invariant NoBlockerBefore(requirements, onError, answers, before, i)
        invariant Views(requirements) == ReadUpTo(before, answers, i)
      {
        var req := requirements[i];
        ghost var now := Views(requirements);
        assert forall j :: 0 <= j < |requirements| ==> requirements[j].View() == now[j];
        var blocks := req.BlocksNow(req.key in onError, answers[i]);
        assert forall j :: 0 <= j < |requirements| ==>
          requirements[j].View() == if j == i then Cached(now[j], answers[j]) else now[j];
        assert Views(requirements) == ReadUpTo(before, answers, i + 1);
        if blocks {
          StopsAtBlocker(requirements, onError, answers, before, i);
          return true;
        }
      }
      blocked := false;
      ReadThrough(requirements, onError, answers, before);
    }

    /** One turn of the loop over requirements, for the requirement. */
    method BlocksNow(onErrorSet: bool, answer: Answer) returns (blocks: bool)
      modifies this
      ensures blocks == Blocks(onErrorSet, Seen(old(View()), answer), old(View()).ignored)
      ensures View() == Cached(old(View()), answer)
    {
      var seen := Status(answer);
      if seen.err && !onErrorSet && !ignored {
        blocks := true;
      } else if seen.ready && onErrorSet {
        blocks := true;
      } else if !seen.err && !seen.ready {
        blocks := true;
      } else {
        blocks := false;
      }
    }

    /** Asks for creation: granted once, when no requirement blocks it. */
    method RequestCreation(requirements: seq<LiveResource>, onError: set<string>, answers: seq<Answer>,
                           toCreate: CreationQueue)
      returns (requested: bool)
      requires |answers| == |requirements| && AllDifferent(requirements) && this !in requirements
      modifies this`started, toCreate, requirements
      ensures requested <==>
        || old(started)
        || !exists i :: 0 <= i < |requirements| && Blocker(requirements, onError, answers, old(Views(requirements)), i)
      ensures View() == old(View()).(started := requested)
      ensures toCreate.items == if requested && !old(started) then old(toCreate.items) + [key] else old(toCreate.items)
    {
      hide Blocker;
      hide ReadInOrder;
      if started {
        return true;
      }
      var blocked := IsBlocked(requirements, onError, answers);
      if !blocked {
        started := true;
        toCreate.items := toCreate.items + [key];
        return true;
      }
      requested := false;
    }
  }

  ghost predicate AllDifferent(rs: seq<LiveResource>) {
    forall i, j :: 0 <= i < j < |rs| ==> rs[i] != rs[j]
  }

  ghost function Views(rs: seq<LiveResource>): seq<Res>
    reads rs
  {
    seq(|rs|, i requires 0 <= i < |rs| reads rs => rs[i].View())
  }

  /** The requirement at `i`, read in the state `views` holds, blocks creation. */
  ghost predicate Blocker(rs: seq<LiveResource>, onError: set<string>, answers: seq<Answer>, views: seq<Res>, i: nat)
    requires i < |rs| == |answers| == |views|
  {
    Blocks(rs[i].key in onError, Seen(views[i], answers[i]), views[i].ignored)
  }

  /** Up to the first one that blocks, requirements were read and cached; those after it were left alone. */
  ghost predicate ReadInOrder(rs: seq<LiveResource>, onError: set<string>, answers: seq<Answer>, before: seq<Res>,
                              after: seq<Res>)
    requires |rs| == |answers| == |before| == |after|
  {
    forall i :: 0 <= i < |rs| ==>
      after[i] ==
        if forall j :: 0 <= j < i ==> !Blocker(rs, onError, answers, before, j) then Cached(before[i], answers[i])
        else before[i]
  }

  ghost predicate NoBlockerBefore(rs: seq<LiveResource>, onError: set<string>, answers: seq<Answer>, views: seq<Res>,
                                  n: nat)
    requires n <= |rs| == |answers| == |views|
  {
    forall j :: 0 <= j < n ==> !Blocker(rs, onError, answers, views, j)
  }

  ghost function ReadUpTo(views: seq<Res>, answers: seq<Answer>, n: nat): seq<Res>
    requires |views| == |answers|
  {
    seq(|views|, j requires 0 <= j < |views| => if j < n then Cached(views[j], answers[j]) else views[j])
  }

  lemma StopsAtBlocker(rs: seq<LiveResource>, onError: set<string>, answers: seq<Answer>, views: seq<Res>, i: nat)
    requires i < |rs| == |answers| == |views| && NoBlockerBefore(rs, onError, answers, views, i)
    requires Blocker(rs, onError, answers, views, i)
    ensures ReadInOrder(rs, onError, answers, views, ReadUpTo(views, answers, i + 1))
  {
    hide Blocker;
    hide Cached;
  }

  lemma ReadThrough(rs: seq<LiveResource>, onError: set<string>, answers: seq<Answer>, views: seq<Res>)
    requires |rs| == |answers| == |views| && NoBlockerBefore(rs, onError, answers, views, |rs|)
    ensures ReadInOrder(rs, onError, answers, views, ReadUpTo(views, answers, |rs|))
  {
    hide Blocker;
    hide Cached;
  }

  // ---------- the same request among the steps of a deployment ----------

  /** All requirements of a resource, free to be read. */
  ghost predicate Readable(p: Plan, s: State, k: string) {
    && k in p.needs && k in s.res && Distinct(p.needs[k]) && k !in p.needs[k]
    && forall i :: 0 <= i < |p.needs[k]| ==> Unlocked(s, p.needs[k][i])
  }

  ghost predicate BlockerAt(p: Plan, s: State, k: string, answers: seq<Answer>, i: nat)
    requires Readable(p, s, k) && i < |answers| == |p.needs[k]|
  {
    var q := p.needs[k][i];
    assert Unlocked(s, q);
    Blocks((k, q) in p.onErrorEdges, Seen(s.res[q], answers[i]), s.res[q].ignored)
  }

  ghost predicate Unblocked(p: Plan, s: State, k: string, answers: seq<Answer>, n: nat)
    requires Readable(p, s, k) && n <= |answers| == |p.needs[k]|
  {
    forall i :: 0 <= i < n ==> !BlockerAt(p, s, k, answers, i)
  }

  /** The first `n` requirements as they are after being read. */
  ghost function AfterReads(p: Plan, s: State, k: string, answers: seq<Answer>, n: nat): (res: map<string, Res>)
    requires Readable(p, s, k) && n <= |answers| == |p.needs[k]|
  {
    if n == 0 then s.res
    else
      var q := p.needs[k][n - 1];
      assert Unlocked(s, q);
      AfterReads(p, s, k, answers, n - 1)[q := Cached(s.res[q], answers[n - 1])]
  }

  lemma {:induction false} AfterReadsAt(p: Plan, s: State, k: string, answers: seq<Answer>, n: nat, q: string)
    requires Readable(p, s, k) && n <= |answers| == |p.needs[k]| && q in s.res
    ensures q in AfterReads(p, s, k, answers, n)
    ensures q !in p.needs[k][..n] ==> AfterReads(p, s, k, answers, n)[q] == s.res[q]
  {
    if n > 0 {
      AfterReadsAt(p, s, k, answers, n - 1, q);
      assert p.needs[k][..n] == p.needs[k][..n - 1] + [p.needs[k][n - 1]];
    }
  }

  /** In the middle of a request that nobody interferes with. */
  ghost predicate RequestAt(p: Plan, s0: State, s: State, parent: string, k: string, answers: seq<Answer>, n: nat)
    requires Readable(p, s0, k) && n <= |answers| == |p.needs[k]|
  {
    s == s0.(res := AfterReads(p, s0, k, answers, n)[k := s0.res[k].(lock := Some(Check(parent, n, None)))])
  }

  /** The same, with the status of the current requirement in hand. */
  ghost predicate SeenAt(p: Plan, s0: State, t: State, parent: string, k: string, answers: seq<Answer>, n: nat)
    requires Readable(p, s0, k) && n < |answers| == |p.needs[k]|
  {
    assert Unlocked(s0, p.needs[k][n]);
    t == s0.(res := AfterReads(p, s0, k, answers, n + 1)[
      k := s0.res[k].(lock := Some(Check(parent, n, Some(Seen(s0.res[p.needs[k][n]], answers[n])))))])
  }

  lemma ReadsOverwrite(res: map<string, Res>, k: string, q: string, r1: Res, r2: Res, c: Res)
    requires k in res && q in res && q != k
    ensures res[k := r1][q := c][k := r2] == res[q := c][k := r2]
  {
  }

  lemma RequirementRead(p: Plan, s0: State, s: State, parent: string, k: string, answers: seq<Answer>, n: nat)
    requires Readable(p, s0, k) && n < |answers| == |p.needs[k]| && RequestAt(p, s0, s, parent, k, answers, n)
    requires Known(p, s0, k)
    ensures LooksAt(p, s, k) && Enabled(p, s, CheckStatus(k, answers[n]))
    ensures SeenAt(p, s0, DoCheckStatus(p, s, k, answers[n]), parent, k, answers, n)
  {
    hide Seen;
    hide Cached;
    var q := p.needs[k][n];
    assert Unlocked(s0, q) && q in p.needs[k];
    assert q !in p.needs[k][..n];
    AfterReadsAt(p, s0, k, answers, n, q);
    AfterReadsAt(p, s0, k, answers, n, k);
    var res := AfterReads(p, s0, k, answers, n);
    assert AfterReads(p, s0, k, answers, n + 1) == res[q := Cached(s0.res[q], answers[n])];
    hide AfterReads;
    hide Readable;
    ReadsOverwrite(res, k, q, s.res[k], s.res[k].(lock := Some(Check(parent, n, Some(Seen(s0.res[q], answers[n]))))),
                   Cached(s0.res[q], answers[n]));
  }

  lemma SetAgain(s0: State, t: State, res: map<string, Res>, k: string, r: Res, r': Res)
    requires t == s0.(res := res[k := r])
    ensures Set(t, k, r') == s0.(res := res[k := r'])
  {
    assert res[k := r][k := r'] == res[k := r'];
  }

  lemma SeenOf(p: Plan, s0: State, t: State, parent: string, k: string, answers: seq<Answer>, n: nat)
    requires Readable(p, s0, k) && n < |answers| == |p.needs[k]| && SeenAt(p, s0, t, parent, k, answers, n)
    requires Known(p, s0, k)
    ensures Unlocked(s0, p.needs[k][n])
    ensures LooksAt(p, t, k) && t.res[k].lock == Some(Check(parent, n, Some(Seen(s0.res[p.needs[k][n]], answers[n]))))
    ensures Target(p, t, k) == p.needs[k][n] && Unlocked(t, Target(p, t, k))
    ensures t.res[Target(p, t, k)].ignored == s0.res[p.needs[k][n]].ignored
  {
    hide Seen;
    var q := p.needs[k][n];
    assert Unlocked(s0, q) && q in p.needs[k];
    AfterReadsAt(p, s0, k, answers, n + 1, q);
    assert AfterReads(p, s0, k, answers, n + 1)[q] == Cached(s0.res[q], answers[n]);
    hide AfterReads;
  }

  lemma RequirementJudged(p: Plan, s0: State, t: State, parent: string, k: string, answers: seq<Answer>, n: nat)
    requires Readable(p, s0, k) && n < |answers| == |p.needs[k]| && SeenAt(p, s0, t, parent, k, answers, n)
    requires Known(p, s0, k)
    ensures LooksAt(p, t, k) && t.res[k].lock.value.seen.Some? && Enabled(p, t, CheckVerdict(k))
    ensures if BlockerAt(p, s0, k, answers, n) then
        DoCheckVerdict(p, t, k) == s0.(res := AfterReads(p, s0, k, answers, n + 1)[k := s0.res[k].(lock := None)])
      else RequestAt(p, s0, DoCheckVerdict(p, t, k), parent, k, answers, n + 1)
  {
    hide Seen;
    hide Blocks;
    hide AfterReads;
    SeenOf(p, s0, t, parent, k, answers, n);
    var res := AfterReads(p, s0, k, answers, n + 1);
    var lock := if BlockerAt(p, s0, k, answers, n) then None else Some(Check(parent, n + 1, None));
    SetAgain(s0, t, res, k, t.res[k], s0.res[k].(lock := lock));
    hide Readable;
    hide Set;
    hide LooksAt;
    assert DoCheckVerdict(p, t, k) == Set(t, k, t.res[k].(lock := lock));
    assert t.res[k].(lock := lock) == s0.res[k].(lock := lock);
  }

  /** A request that runs without interference is one path of the deployment: it reads the requirements in order, up to the
      first that blocks, and starts the resource exactly when none does. */
  lemma {:induction false} RequestFrom(p: Plan, s0: State, s: State, parent: string, k: string, answers: seq<Answer>,
                                       n: nat)
    returns (states: seq<State>, events: seq<Event>)
    requires Readable(p, s0, k) && n <= |answers| == |p.needs[k]| && RequestAt(p, s0, s, parent, k, answers, n)
    requires Known(p, s0, k)
    requires Unblocked(p, s0, k, answers, n) && !s0.res[k].started && s0.res[k].lock.None?
    ensures Continues(p, s, states, events) && RequestEnds(p, s0, k, answers, states[|events|])
    decreases |answers| - n
  {
    hide Enabled;
    hide RequestAt;
    hide SeenAt;
    hide DoCheckStatus;
    hide DoCheckVerdict;
    if n == |answers| {
      states, events := RequestGranted(p, s0, s, parent, k, answers);
    } else {
      RequirementRead(p, s0, s, parent, k, answers, n);
      var t := DoCheckStatus(p, s, k, answers[n]);
      RequirementJudged(p, s0, t, parent, k, answers, n);
      var u := DoCheckVerdict(p, t, k);
      var rest: seq<State>, more: seq<Event> := [u], [];
      if BlockerAt(p, s0, k, answers, n) {
        RequestRefused(p, s0, k, answers, n, u);
      } else {
        rest, more := RequestFrom(p, s0, u, parent, k, answers, n + 1);
      }
      states, events := [s, t] + rest, [CheckStatus(k, answers[n]), CheckVerdict(k)] + more;
      ContinuesTwice(p, s, t, u, CheckStatus(k, answers[n]), CheckVerdict(k), rest, more);
    }
  }

  /** How a request ends: with the resource started and queued, or with nothing changed but what was read. */
  ghost predicate RequestEnds(p: Plan, s0: State, k: string, answers: seq<Answer>, t: State)
    requires Readable(p, s0, k) && |answers| == |p.needs[k]|
  {
    if Unblocked(p, s0, k, answers, |answers|) then
      && t.res == AfterReads(p, s0, k, answers, |answers|)[k := s0.res[k].(started := true, lock := None, phase := Queued)]
      && t.toCreate == s0.toCreate + [k]
    else
      exists n :: 0 <= n < |answers| && Unblocked(p, s0, k, answers, n) && BlockerAt(p, s0, k, answers, n) &&
        t == s0.(res := AfterReads(p, s0, k, answers, n + 1)[k := s0.res[k].(lock := None)])
  }

  lemma RequestGranted(p: Plan, s0: State, s: State, parent: string, k: string, answers: seq<Answer>)
    returns (states: seq<State>, events: seq<Event>)
    requires Readable(p, s0, k) && |answers| == |p.needs[k]| && RequestAt(p, s0, s, parent, k, answers, |answers|)
    requires Known(p, s0, k)
    requires Unblocked(p, s0, k, answers, |answers|)
    ensures Continues(p, s, states, events) && RequestEnds(p, s0, k, answers, states[|events|])
  {
    states, events := [s, DoStartChecked(s, k)], [StartChecked(k)];
  }

  lemma RequestRefused(p: Plan, s0: State, k: string, answers: seq<Answer>, n: nat, t: State)
    requires Readable(p, s0, k) && n < |answers| == |p.needs[k]| && Unblocked(p, s0, k, answers, n)
    requires BlockerAt(p, s0, k, answers, n)
    requires t == s0.(res := AfterReads(p, s0, k, answers, n + 1)[k := s0.res[k].(lock := None)])
    ensures RequestEnds(p, s0, k, answers, t)
  {
    hide BlockerAt;
    hide AfterReads;
  }

  lemma ContinuesTwice(p: Plan, s: State, t: State, u: State, e: Event, f: Event, rest: seq<State>, more: seq<Event>)
    requires Enabled(p, s, e) && t == Apply(p, s, e) && Enabled(p, t, f) && u == Apply(p, t, f)
    requires Continues(p, u, rest, more)
    ensures Continues(p, s, [s, t] + rest, [e, f] + more)
  {
    hide Enabled;
    hide Apply;
    var states, events := [s, t] + rest, [e, f] + more;
    forall i | 0 <= i < |events| ensures Enabled(p, states[i], events[i]) && states[i + 1] == Apply(p, states[i], events[i]) {
      if i >= 2 { assert states[i] == rest[i - 2] && events[i] == more[i - 2] && states[i + 1] == rest[i - 1]; }
    }
  }

  lemma RequestInOneGo(p: Plan, s: State, parent: string, k: string, answers: seq<Answer>)
    returns (states: seq<State>, events: seq<Event>)
    requires Readable(p, s, k) && |answers| == |p.needs[k]| && Enabled(p, s, BeginCheck(parent, k))
    ensures Continues(p, s, states, events) && RequestEnds(p, s, k, answers, states[|events|])
  {
    hide RequestEnds;
    var t := DoBeginCheck(s, parent, k);
    assert RequestAt(p, s, t, parent, k, answers, 0);
    var rest, more := RequestFrom(p, s, t, parent, k, answers, 0);
    states, events := [s] + rest, [BeginCheck(parent, k)] + more;
    forall i | 0 <= i < |events| ensures Enabled(p, states[i], events[i]) && states[i + 1] == Apply(p, states[i], events[i]) {
      if i > 0 { assert states[i] == rest[i - 1] && events[i] == more[i - 1]; }
    }
  }
}
