/** Running functions concurrently under a semaphore, as the interleaved steps of the caller and of one worker per function. */
module ConcurrentRunner {
  import opened Graphs

  /** Where the worker of one function is: a launched worker holds a permit until it is released. */
  datatype Worker = Unlaunched | Launched | Running | Ended(ok: bool) | Recorded(ok: bool) | Released(ok: bool)

  /** `permits` counts the entries of the semaphore channel, `drained` how many of them the caller put there at the end. */
  datatype State = State(
    workers: seq<Worker>,
    next: nat,
    permits: nat,
    drained: nat,
    result: bool,
    returned: bool,
    calls: seq<nat>)

  datatype Step = Launch | Begin(i: nat) | End(i: nat, ok: bool) | Record(i: nat) | Release(i: nat) | Drain | Return

  /** The length of the semaphore: without a limit, one permit for every function. */
  function Capacity(count: nat, concurrency: int): nat {
    if concurrency < 1 then count else concurrency
  }

  function Init(count: nat): State {
    State(seq(count, _ => Unlaunched), 0, 0, 0, true, false, seq(count, _ => 0))
  }

  predicate WellFormed(s: State, count: nat) {
    |s.workers| == |s.calls| == count && s.next <= count
  }

  predicate Enabled(s: State, cap: nat, e: Step) {
    match e
    case Launch => s.next < |s.workers| && s.permits < cap
    case Begin(i) => i < |s.workers| && s.workers[i] == Launched
    case End(i, _) => i < |s.workers| && s.workers[i] == Running
    case Record(i) => i < |s.workers| && s.workers[i].Ended?
    case Release(i) => i < |s.workers| && s.workers[i].Recorded? && s.permits > 0
    case Drain => s.next == |s.workers| && s.drained < cap && s.permits < cap
    case Return => s.next == |s.workers| && s.drained == cap && !s.returned
  }

  function Apply(s: State, cap: nat, e: Step): (t: State)
    requires WellFormed(s, |s.workers|) && Enabled(s, cap, e)
    ensures WellFormed(t, |s.workers|)
  {
    match e
    case Launch => s.(workers := s.workers[s.next := Launched], next := s.next + 1, permits := s.permits + 1)
    case Begin(i) => s.(workers := s.workers[i := Running], calls := s.calls[i := s.calls[i] + 1])
    case End(i, ok) => s.(workers := s.workers[i := Ended(ok)])
    case Record(i) => s.(workers := s.workers[i := Recorded(s.workers[i].ok)], result := s.result && s.workers[i].ok)
    case Release(i) => s.(workers := s.workers[i := Released(s.workers[i].ok)], permits := s.permits - 1)
    case Drain => s.(permits := s.permits + 1, drained := s.drained + 1)
    case Return => s.(returned := true)
  }

  /** A run: any interleaving of enabled steps from the start. */
  ghost predicate IsRun(count: nat, cap: nat, steps: seq<Step>, states: seq<State>) {
    && |states| == |steps| + 1 && states[0] == Init(count)
    && forall k :: 0 <= k < |steps| ==>
         WellFormed(states[k], count) && Enabled(states[k], cap, steps[k]) && states[k + 1] == Apply(states[k], cap, steps[k])
  }

  // ---------- counting workers ----------

  /** How many workers satisfy `p`. */
  ghost function Count(ws: seq<Worker>, p: Worker -> bool): nat {
    if ws == [] then 0 else Count(ws[..|ws| - 1], p) + if p(ws[|ws| - 1]) then 1 else 0
  }

  predicate Holding(w: Worker) {
    w.Launched? || w.Running? || w.Ended? || w.Recorded?
  }

  predicate Busy(w: Worker) {
    w.Running?
  }

  predicate Failed(w: Worker) {
    (w.Ended? || w.Recorded? || w.Released?) && !w.ok
  }

  lemma {:induction false} CountUpdate(ws: seq<Worker>, p: Worker -> bool, i: nat, w: Worker)
    requires i < |ws|
    ensures Count(ws[i := w], p) == Count(ws, p) - (if p(ws[i]) then 1 else 0) + (if p(w) then 1 else 0)
    decreases |ws|
  {
    var k := |ws| - 1;
    if i < k {
      CountUpdate(ws[..k], p, i, w);
      assert ws[i := w][..k] == ws[..k][i := w];
    } else {
      assert ws[i := w][..k] == ws[..k];
    }
  }

  lemma {:induction false} CountMonotone(ws: seq<Worker>, p: Worker -> bool, q: Worker -> bool)
    requires forall w :: p(w) ==> q(w)
    ensures Count(ws, p) <= Count(ws, q) <= |ws|
  {
    if ws != [] { CountMonotone(ws[..|ws| - 1], p, q); }
  }

  lemma {:induction false} CountPositive(ws: seq<Worker>, p: Worker -> bool, i: nat)
    requires i < |ws| && p(ws[i])
    ensures Count(ws, p) > 0
    decreases |ws|
  {
    if i < |ws| - 1 { CountPositive(ws[..|ws| - 1], p, i); }
  }

  lemma {:induction false} CountMissesOne(ws: seq<Worker>, p: Worker -> bool, i: nat)
    requires i < |ws| && !p(ws[i])
    ensures Count(ws, p) < |ws|
    decreases |ws|
  {
    if i < |ws| - 1 {
      CountMissesOne(ws[..|ws| - 1], p, i);
    } else {
      CountMonotone(ws[..|ws| - 1], p, p);
    }
  }

  lemma {:induction false} CountNone(ws: seq<Worker>, p: Worker -> bool)
    requires forall i :: 0 <= i < |ws| ==> !p(ws[i])
    ensures Count(ws, p) == 0
  {
    if ws != [] {
      CountNone(ws[..|ws| - 1], p);
    }
  }

  // ---------- the invariant ----------

  /** Every permit belongs to a worker that has not released it or to the caller's final loop. */
  ghost predicate PermitsCounted(s: State, cap: nat) {
    && s.permits == Count(s.workers, Holding) + s.drained && s.permits <= cap && s.drained <= cap
    && (s.drained > 0 ==> s.next == |s.workers|)
    && (s.returned ==> s.drained == cap && s.next == |s.workers|)
  }

  /** Functions are launched in order, each is called once, when its worker begins, and the result has seen exactly the
      recorded outcomes. */
  ghost predicate WorkersInStep(s: State, count: nat) {
    && WellFormed(s, count)
    && (forall i :: 0 <= i < count ==> (s.workers[i].Unlaunched? <==> i >= s.next))
    && (forall i :: 0 <= i < count ==> s.calls[i] == if s.workers[i].Unlaunched? || s.workers[i].Launched? then 0 else 1)
    && (s.result <==> forall i :: 0 <= i < count ==> GoodSoFar(s.workers[i]))
  }

  predicate GoodSoFar(w: Worker) {
    w.Recorded? || w.Released? ==> w.ok
  }

  ghost predicate Inv(s: State, count: nat, cap: nat) {
    WorkersInStep(s, count) && PermitsCounted(s, cap)
  }

  lemma InvStarts(count: nat, concurrency: int)
    ensures Inv(Init(count), count, Capacity(count, concurrency))
  {
    CountNone(Init(count).workers, Holding);
  }

  predicate ByWorker(e: Step) {
    e.Begin? || e.End? || e.Record? || e.Release?
  }

  lemma WorkerMoves(s: State, count: nat, cap: nat, e: Step)
    requires WellFormed(s, count) && Enabled(s, cap, e) && ByWorker(e)
    ensures var t := Apply(s, cap, e); t.workers == s.workers[e.i := t.workers[e.i]]
  {
  }

  lemma PermitsKept(s: State, count: nat, cap: nat, e: Step)
    requires WorkersInStep(s, count) && PermitsCounted(s, cap) && Enabled(s, cap, e)
    ensures PermitsCounted(Apply(s, cap, e), cap)
  {
    var t := Apply(s, cap, e);
    if e.Launch? {
      CountUpdate(s.workers, Holding, s.next, Launched);
    } else if ByWorker(e) {
      CountUpdate(s.workers, Holding, e.i, t.workers[e.i]);
      WorkerMoves(s, count, cap, e);
    }
  }

  lemma WorkersKept(s: State, count: nat, cap: nat, e: Step)
    requires WorkersInStep(s, count) && Enabled(s, cap, e)
    ensures WorkersInStep(Apply(s, cap, e), count)
  {
    var t := Apply(s, cap, e);
    if ByWorker(e) {
      WorkerMoves(s, count, cap, e);
      ResultKept(s, t, count, e.i);
    }
  }

  lemma ResultKept(s: State, t: State, count: nat, i: nat)
    requires WorkersInStep(s, count) && i < count && |t.workers| == count && t.workers == s.workers[i := t.workers[i]]
    requires t.result == (s.result && GoodSoFar(t.workers[i]))
    requires GoodSoFar(t.workers[i]) ==> GoodSoFar(s.workers[i])
    ensures t.result <==> forall j :: 0 <= j < count ==> GoodSoFar(t.workers[j])
  {
    hide GoodSoFar;
    assert forall j :: 0 <= j < count && j != i ==> t.workers[j] == s.workers[j];
    if forall j :: 0 <= j < count ==> GoodSoFar(t.workers[j]) {
      forall j | 0 <= j < count ensures GoodSoFar(s.workers[j]) {
        assert GoodSoFar(t.workers[j]);
      }
    }
  }

  lemma InvKept(s: State, count: nat, cap: nat, e: Step)
    requires Inv(s, count, cap) && Enabled(s, cap, e)
    ensures Inv(Apply(s, cap, e), count, cap)
  {
    hide WorkersInStep;
    hide PermitsCounted;
    hide Apply;
    hide Enabled;
    assert WellFormed(s, count) by { InvIsWellFormed(s, count, cap); }
    PermitsKept(s, count, cap, e);
    WorkersKept(s, count, cap, e);
  }

  lemma InvIsWellFormed(s: State, count: nat, cap: nat)
    requires Inv(s, count, cap)
    ensures WellFormed(s, count)
  {
  }

  lemma {:induction false} InvInRun(count: nat, concurrency: int, steps: seq<Step>, states: seq<State>, k: nat)
    requires IsRun(count, Capacity(count, concurrency), steps, states) && k < |states|
    ensures Inv(states[k], count, Capacity(count, concurrency))
  {
    if k == 0 {
      InvStarts(count, concurrency);
    } else {
      InvInRun(count, concurrency, steps, states, k - 1);
      InvKept(states[k - 1], count, Capacity(count, concurrency), steps[k - 1]);
    }
  }

  // ---------- what every interleaving guarantees ----------

  /** No more functions than permits run at a time, and no function is ever called twice. */
  lemma LimitIsRespected(count: nat, concurrency: int, steps: seq<Step>, states: seq<State>, k: nat)
    requires IsRun(count, Capacity(count, concurrency), steps, states) && k < |states|
    ensures Count(states[k].workers, Busy) <= Capacity(count, concurrency)
    ensures concurrency >= 1 ==> Count(states[k].workers, Busy) <= concurrency
    ensures |states[k].calls| == count && forall i :: 0 <= i < count ==> states[k].calls[i] <= 1
  {
    InvInRun(count, concurrency, steps, states, k);
    CountMonotone(states[k].workers, Busy, Holding);
  }

  /** The caller returns only after every function was called exactly once and its worker has finished, and what it returns
      is whether all of them returned true. */
  lemma ReturnsAfterAll(count: nat, concurrency: int, steps: seq<Step>, states: seq<State>, k: nat)
    requires IsRun(count, Capacity(count, concurrency), steps, states) && k < |states| && states[k].returned
    ensures |states[k].workers| == |states[k].calls| == count
    ensures forall i :: 0 <= i < count ==> states[k].calls[i] == 1 && states[k].workers[i].Released?
    ensures states[k].result <==> forall i :: 0 <= i < count ==> states[k].workers[i] == Released(true)
  {
    InvInRun(count, concurrency, steps, states, k);
    var s := states[k];
    assert Count(s.workers, Holding) == 0;
    forall i | 0 <= i < count ensures s.workers[i].Released? {
      if Holding(s.workers[i]) { CountPositive(s.workers, Holding, i); }
    }
  }

  /** As long as every function that runs can end, some step is possible until the caller has returned. */
  lemma NeverStuck(count: nat, concurrency: int, steps: seq<Step>, states: seq<State>, k: nat) returns (e: Step)
    requires IsRun(count, Capacity(count, concurrency), steps, states) && k < |states| && !states[k].returned
    ensures Enabled(states[k], Capacity(count, concurrency), e)
  {
    InvInRun(count, concurrency, steps, states, k);
    var s, cap := states[k], Capacity(count, concurrency);
    if i :| 0 <= i < count && Holding(s.workers[i]) {
      CountPositive(s.workers, Holding, i);
      match s.workers[i]
      case Launched => e := Begin(i);
      case Running => e := End(i, true);
      case Ended(_) => e := Record(i);
      case Recorded(_) => e := Release(i);
    } else {
      CountNone(s.workers, Holding);
      e := if s.next < count then Launch else if s.drained < cap then Drain else Return;
    }
  }

  // ---------- every run is short ----------

  ghost function Progress(ws: seq<Worker>): nat {
    if ws == [] then 0 else Progress(ws[..|ws| - 1]) + Stage(ws[|ws| - 1])
  }

  ghost function Stage(w: Worker): nat {
    match w
    case Unlaunched => 0
    case Launched => 1
    case Running => 2
    case Ended(_) => 3
    case Recorded(_) => 4
    case Released(_) => 5
  }

  lemma {:induction false} ProgressUpdate(ws: seq<Worker>, i: nat, w: Worker)
    requires i < |ws|
    ensures Progress(ws[i := w]) == Progress(ws) - Stage(ws[i]) + Stage(w)
    decreases |ws|
  {
    var k := |ws| - 1;
    if i < k {
      ProgressUpdate(ws[..k], i, w);
      assert ws[i := w][..k] == ws[..k][i := w];
    } else {
      assert ws[i := w][..k] == ws[..k];
    }
  }

  lemma {:induction false} ProgressBounded(ws: seq<Worker>)
    ensures Progress(ws) <= 5 * |ws|
  {
    if ws != [] { ProgressBounded(ws[..|ws| - 1]); }
  }

  ghost function Done(s: State): nat {
    Progress(s.workers) + s.drained + if s.returned then 1 else 0
  }

  lemma StepIsProgress(s: State, count: nat, cap: nat, e: Step)
    requires WorkersInStep(s, count) && Enabled(s, cap, e)
    ensures Done(Apply(s, cap, e)) == Done(s) + 1
  {
    if e.Launch? {
      ProgressUpdate(s.workers, s.next, Launched);
    } else if ByWorker(e) {
      ProgressUpdate(s.workers, e.i, Apply(s, cap, e).workers[e.i]);
      WorkerMoves(s, count, cap, e);
    }
  }

  lemma {:induction false} DoneCountsSteps(count: nat, concurrency: int, steps: seq<Step>, states: seq<State>, k: nat)
    requires IsRun(count, Capacity(count, concurrency), steps, states) && k < |states|
    ensures Done(states[k]) == Done(Init(count)) + k
  {
    hide Apply;
    hide Enabled;
    hide Done;
    if k > 0 {
      DoneCountsSteps(count, concurrency, steps, states, k - 1);
      InvInRun(count, concurrency, steps, states, k - 1);
      StepIsProgress(states[k - 1], count, Capacity(count, concurrency), steps[k - 1]);
    }
  }

  lemma {:induction false} NothingDoneYet(count: nat)
    ensures Done(Init(count)) == 0
  {
    AllUnlaunched(Init(count).workers);
  }

  lemma {:induction false} AllUnlaunched(ws: seq<Worker>)
    requires forall i :: 0 <= i < |ws| ==> ws[i] == Unlaunched
    ensures Progress(ws) == 0
  {
    if ws != [] {
      AllUnlaunched(ws[..|ws| - 1]);
    }
  }

  /** No interleaving goes on forever: five steps a function, one for each permit and the return. Together with `NeverStuck`,
      every run that is not cut short ends with the caller's return. */
  lemma RunsAreBounded(count: nat, concurrency: int, steps: seq<Step>, states: seq<State>)
    requires IsRun(count, Capacity(count, concurrency), steps, states)
    ensures |steps| <= 5 * count + Capacity(count, concurrency) + 1
  {
    hide Apply;
    hide Enabled;
    DoneCountsSteps(count, concurrency, steps, states, |steps|);
    NothingDoneYet(count);
    InvInRun(count, concurrency, steps, states, |steps|);
    ProgressBounded(states[|steps|].workers);
  }

  // ---------- reporting failures ----------

  /** The functions that reported a failure, in the order of their reports. */
  function Reports(steps: seq<Step>): seq<nat> {
    if steps == [] then []
    else
      var e := steps[|steps| - 1];
      Reports(steps[..|steps| - 1]) + if e.End? && !e.ok then [e.i] else []
  }

  /** The reports are those of the failed workers, one each. */
  ghost predicate ReportsMatch(ws: seq<Worker>, reports: seq<nat>) {
    && |reports| == Count(ws, Failed) && Distinct(reports)
    && forall i: nat :: i in reports <==> i < |ws| && Failed(ws[i])
  }

  lemma MoveMatches(ws: seq<Worker>, i: nat, w: Worker, reports: seq<nat>)
    requires i < |ws| && ReportsMatch(ws, reports) && (Failed(ws[i]) ==> Failed(w))
    ensures ReportsMatch(ws[i := w], reports + if Failed(w) && !Failed(ws[i]) then [i] else [])
  {
    hide Failed;
    CountUpdate(ws, Failed, i, w);
    if Failed(w) && !Failed(ws[i]) {
      DistinctAppend(reports, i);
    } else {
      assert reports + [] == reports;
    }
  }

  lemma ReportStep(s: State, count: nat, cap: nat, e: Step, reports: seq<nat>)
    requires WorkersInStep(s, count) && Enabled(s, cap, e) && ReportsMatch(s.workers, reports)
    ensures ReportsMatch(Apply(s, cap, e).workers, reports + if e.End? && !e.ok then [e.i] else [])
  {
    hide ReportsMatch;
    if e.Launch? {
      MoveMatches(s.workers, s.next, Launched, reports);
    } else if ByWorker(e) {
      WorkerMoves(s, count, cap, e);
      MoveMatches(s.workers, e.i, Apply(s, cap, e).workers[e.i], reports);
    } else {
      assert reports + [] == reports;
    }
  }

  lemma {:induction false} ReportsAreFailures(count: nat, concurrency: int, steps: seq<Step>, states: seq<State>,
                                              k: nat)
    requires IsRun(count, Capacity(count, concurrency), steps, states) && k < |states|
    ensures |states[k].workers| == count && ReportsMatch(states[k].workers, Reports(steps[..k]))
  {
    hide ReportsMatch;
    hide Apply;
    hide Enabled;
    if k == 0 {
      NoReportsYet(count);
    } else {
      ReportsAreFailures(count, concurrency, steps, states, k - 1);
      assert steps[..k][..k - 1] == steps[..k - 1];
      InvInRun(count, concurrency, steps, states, k - 1);
      ReportStep(states[k - 1], count, Capacity(count, concurrency), steps[k - 1], Reports(steps[..k - 1]));
    }
  }

  lemma NoReportsYet(count: nat)
    ensures ReportsMatch(Init(count).workers, [])
  {
    CountNone(Init(count).workers, Failed);
  }

  /** A channel with room for one report a function never makes a worker wait, even if nobody receives before the end. */
  lemma ReportNeverBlocks(count: nat, concurrency: int, steps: seq<Step>, states: seq<State>, k: nat)
    requires IsRun(count, Capacity(count, concurrency), steps, states) && k < |steps|
    requires steps[k].End? && !steps[k].ok
    ensures |Reports(steps[..k])| < count
  {
    ReportsAreFailures(count, concurrency, steps, states, k);
    CountMissesOne(states[k].workers, Failed, steps[k].i);
  }
}
