/** Small deployments that never end, one for each of the two ways in which a deployment can be kept from ending. */
module DeploymentLimits {
  import opened Graphs
  import opened GraphBuilding
  import opened Deployment
  import opened DeploymentProgress
  import opened DeploymentCompletion
  import opened DeploymentDeadEnds

  /** One resource that requires another; everything may be tried `attempts` times, and failures are final. */
  function TwoResources(attempts: int): Plan {
    Plan(["a", "b"], map["a" := [], "b" := ["a"]], map["a" := ["b"], "b" := []], map["a" := attempts, "b" := attempts],
         map["a" := Fail, "b" := Fail], {}, {}, 0)
  }

  lemma TwoResourcesLinked(attempts: int)
    ensures MutualLinks(TwoResources(attempts).needs, TwoResources(attempts).neededBy)
  {
    var needs, neededBy := TwoResources(attempts).needs, TwoResources(attempts).neededBy;
    forall u, v ensures Edge(needs, v, u) <==> u == "a" && v == "b" {
      if Edge(needs, v, u) { assert u in ["a"]; }
      assert needs["b"][0] == "a";
    }
    forall u, v ensures Edge(neededBy, u, v) <==> u == "a" && v == "b" {
      if Edge(neededBy, u, v) { assert v in ["b"]; }
      assert neededBy["a"][0] == "b";
    }
  }

  lemma TwoResourcesValid(attempts: int)
    ensures ValidPlan(TwoResources(attempts)) && Acyclic(TwoResources(attempts).needs)
  {
    TwoResourcesLinked(attempts);
    hide MutualLinks;
    var p := TwoResources(attempts);
    assert p.keys[0] == "a" && p.keys[1] == "b";
    var rank := (k: string) => if k == "b" then 1 else 0;
    forall u, v | Edge(p.needs, u, v) ensures rank(v) < rank(u) {
    }
    AcyclicByRank(p.needs, rank);
  }

  /** Nothing is attempted, so nobody asks for the second resource. */
  lemma UntriedRequirementsStrand(states: seq<State>, events: seq<Event>)
    requires IsRun(TwoResources(0), states, events)
    ensures !states[|events|].finalized
  {
    var p := TwoResources(0);
    TwoResourcesValid(0);
    assert "a" != "b";
    assert p.needs["b"] == ["a"];
    assert Stranded(p, "b");
    StrandedNeverFinishes(p, states, events, |events|, "b");
  }

  /** The state while the first resource is worked on; nothing has happened to the second. */
  function Working(r: Res, toCreate: seq<string>, permits: nat, pollers: set<(string, string)>,
                   creates: seq<string>): State {
    State(map["a" := r, "b" := FRESH_RES], toCreate, [], [], permits, pollers, {"b"}, false, ["a"], creates)
  }

  function FirstIn(phase: Phase): Res {
    FRESH_RES.(started := true, phase := phase)
  }

  const TIMED_OUT := Working(FirstIn(Reporting).(failed := true), [], 1, {("a", "b")}, ["a"])

  /** The run in which the only attempt at the first resource times out. */
  const TIMEOUT_STATES: seq<State> := [
    Init(TwoResources(1)),
    Working(FirstIn(Queued), ["a"], 0, {}, []),
    Working(FirstIn(Waiting), [], 0, {}, []),
    Working(FirstIn(Resetting(1)), [], 1, {}, []),
    Working(FirstIn(Spawning), [], 1, {}, []),
    Working(FirstIn(Checking(1)), [], 1, {("a", "b")}, []),
    Working(FirstIn(Creating(1)), [], 1, {("a", "b")}, []),
    Working(FirstIn(Polling(1)), [], 1, {("a", "b")}, ["a"]),
    TIMED_OUT]

  const TIMEOUT_EVENTS := [
    RootVisit("a"), Dispatch, Acquire("a"), Attempt("a", ResetStatus), SpawnPollers("a"), Attempt("a", ReadIgnored),
    Attempt("a", Create(true)), Attempt("a", Timeout)]

  ghost predicate Steps(e: Event, s: State, s': State) {
    Enabled(TwoResources(1), s, e) && s' == Apply(TwoResources(1), s, e)
  }

  lemma TimeoutAsked()
    ensures Steps(RootVisit("a"), Init(TwoResources(1)), Working(FirstIn(Queued), ["a"], 0, {}, []))
  {
    var p := TwoResources(1);
    assert Init(p).res == map["a" := FRESH_RES, "b" := FRESH_RES];
    assert Init(p).rootTodo - {"a"} == {"b"};
  }

  lemma TimeoutStarts()
    ensures Steps(Dispatch, Working(FirstIn(Queued), ["a"], 0, {}, []), Working(FirstIn(Waiting), [], 0, {}, []))
    ensures Steps(Acquire("a"), Working(FirstIn(Waiting), [], 0, {}, []), Working(FirstIn(Resetting(1)), [], 1, {}, []))
  {
    hide DoAttempt;
    hide DoRootVisit;
    hide DoMark;
    hide DoCheckStatus;
    hide DoCheckVerdict;
    hide DoSpawn;
  }

  lemma TimeoutAttempts()
    ensures Steps(Attempt("a", ResetStatus),
                  Working(FirstIn(Resetting(1)), [], 1, {}, []), Working(FirstIn(Spawning), [], 1, {}, []))
    ensures Steps(SpawnPollers("a"),
                  Working(FirstIn(Spawning), [], 1, {}, []), Working(FirstIn(Checking(1)), [], 1, {("a", "b")}, []))
  {
    assert "a" != "b";
  }

  lemma TimeoutFails()
    ensures var q := {("a", "b")};
      && Steps(Attempt("a", ReadIgnored),
               Working(FirstIn(Checking(1)), [], 1, q, []), Working(FirstIn(Creating(1)), [], 1, q, []))
      && Steps(Attempt("a", Create(true)),
               Working(FirstIn(Creating(1)), [], 1, q, []), Working(FirstIn(Polling(1)), [], 1, q, ["a"]))
      && Steps(Attempt("a", Timeout), Working(FirstIn(Polling(1)), [], 1, q, ["a"]), TIMED_OUT)
  {
    assert "a" != "b";
  }

  lemma TimeoutIsRun()
    ensures IsRun(TwoResources(1), TIMEOUT_STATES, TIMEOUT_EVENTS)
  {
    TimeoutAsked();
    TimeoutStarts();
    TimeoutAttempts();
    TimeoutFails();
    hide TwoResources;
    hide Working;
    hide FirstIn;
    hide TIMED_OUT;
    hide Enabled;
    hide Apply;
    forall i | 0 <= i < |TIMEOUT_EVENTS| ensures Steps(TIMEOUT_EVENTS[i], TIMEOUT_STATES[i], TIMEOUT_STATES[i + 1]) {
      assert i == 0 || i == 1 || i == 2 || i == 3 || i == 4 || i == 5 || i == 6 || i == 7;
    }
  }

  lemma SecondHeldUp()
    ensures HeldUp(TwoResources(1), TIMED_OUT, "b", 0)
  {
    var p := TwoResources(1);
    assert "a" != "b";
    assert p.needs["b"][0] == "a";
    forall h ensures !CanSpread(p, TIMED_OUT, h) {
    }
  }

  /** After the timeout no continuation ends. */
  lemma TimeoutIsFinal(more: seq<State>, rest: seq<Event>)
    requires Continues(TwoResources(1), TIMED_OUT, more, rest)
    ensures IsRun(TwoResources(1), TIMEOUT_STATES, TIMEOUT_EVENTS) && TIMEOUT_STATES[|TIMEOUT_EVENTS|] == TIMED_OUT
    ensures !more[|rest|].finalized
  {
    TwoResourcesValid(1);
    TimeoutIsRun();
    SecondHeldUp();
    SoundInRun(TwoResources(1), TIMEOUT_STATES, TIMEOUT_EVENTS, |TIMEOUT_EVENTS|);
    HeldUpNeverFinishes(TwoResources(1), TIMED_OUT, more, rest, "b", 0, |rest|);
  }
}
