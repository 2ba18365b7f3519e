/** The BUILD loop that TaskHandler.handle and QtTaskExecutor.execute share: QMAKE once, then MAKE
    once per comma-separated target, one more MAKE when the targets end in a comma, stopping at the
    first step that does not succeed. */
module Orchestration {
  import opened JavaText
  import opened JavaRuntime
  import opened Response
  import opened Task
  import opened Steps

  /** A MAKE step per piece of the target split, with the piece trimmed. */
  function MakeSteps(parts: seq<string>): (r: seq<Step>)
    ensures |r| == |parts|
    ensures forall i :: 0 <= i < |parts| ==> r[i] == Step(MAKE, Some(Trim(parts[i])))
  {
    if parts == [] then [] else MakeSteps(parts[..|parts| - 1]) + [Step(MAKE, Some(Trim(parts[|parts| - 1])))]
  }

  /** The steps a BUILD request may run, in order. */
  function BuildPlan(targets: string): seq<Step>
  {
    [Step(QMAKE, None)] + MakeSteps(Split(targets, {','})) + (if EndsWith(targets, ",") then [Step(MAKE, Some(""))] else [])
  }

  /** The last response (or the exception that ended the run) and every launched process, in order. */
  datatype Progress = Progress(result: Result<TaskResponse>, trace: seq<Launch>)

  /** How each step ends when it is the n-th step of the request. */
  type Runner = (Step, nat) -> StepOutcome

  /** The runner of a request: Steps.StepRun on its setup. */
  function RunnerOf(s: Setup): (run: Runner)
    ensures forall st: Step, n: nat :: run(st, n) == StepRun(s, st, n)
  {
    (st: Step, n: nat) => StepRun(s, st, n)
  }

  /** A step launches at most one process, and a step that succeeds has launched one. */
  ghost predicate OneLaunch(run: Runner)
  {
    forall st: Step, n: nat :: |run(st, n).launched| <= 1 && (Succeeded(run(st, n).result) ==> |run(st, n).launched| == 1)
  }

  /** Every request's runner launches one process per successful step. */
  lemma RunnerOneLaunch(s: Setup)
    ensures OneLaunch(RunnerOf(s))
  {
    forall st: Step, n: nat
      ensures |RunnerOf(s)(st, n).launched| <= 1 && (Succeeded(RunnerOf(s)(st, n).result) ==> |RunnerOf(s)(st, n).launched| == 1)
    {
      StepSucceeds(s, st, n);
    }
  }

  /** Runs the steps from the n-th on, until one does not succeed or none is left; the run's result is the
      result of the last step run. */
  function Run(run: Runner, plan: seq<Step>, n: nat): Progress
    requires plan != []
    decreases |plan|
  {
    var o := run(plan[0], n);
    if |plan| == 1 || !Succeeded(o.result) then Progress(o.result, o.launched)
    else
      var rest := Run(run, plan[1..], n + 1);
      Progress(rest.result, o.launched + rest.trace)
  }

  /** After a plan that succeeded, one more step runs as the next step. */
  lemma {:induction false} RunSnoc(run: Runner, p: seq<Step>, st: Step, n: nat)
    requires p != [] && Succeeded(Run(run, p, n).result)
    ensures
      var o := run(st, n + |p|);
      Run(run, p + [st], n) == Progress(o.result, Run(run, p, n).trace + o.launched)
    decreases |p|
  {
    assert (p + [st])[0] == p[0];
    if |p| == 1 {
      assert (p + [st])[1..] == [st];
    } else {
      assert (p + [st])[1..] == p[1..] + [st];
      RunSnoc(run, p[1..], st, n + 1);
    }
  }

  /** A plan that did not succeed ends the run: later steps never start. */
  lemma {:induction false} RunStopped(run: Runner, p: seq<Step>, q: seq<Step>, n: nat)
    requires p != [] && !Succeeded(Run(run, p, n).result)
    ensures Run(run, p + q, n) == Run(run, p, n)
    decreases |p|
  {
    assert (p + q)[0] == p[0];
    if q == [] {
      assert p + q == p;
    } else {
      if |p| == 1 {
        assert (p + q)[1..] == q;
      } else {
        assert (p + q)[1..] == p[1..] + q;
        if Succeeded(run(p[0], n).result) {
          RunStopped(run, p[1..], q, n + 1);
        }
      }
    }
  }

  /** A run launches at most one process per step, and the i-th launch is the one of the i-th step. */
  lemma {:induction false} RunLaunches(run: Runner, plan: seq<Step>, n: nat)
    requires plan != [] && OneLaunch(run)
    ensures |Run(run, plan, n).trace| <= |plan|
    ensures forall i :: 0 <= i < |Run(run, plan, n).trace| ==> run(plan[i], n + i).launched == [Run(run, plan, n).trace[i]]
    decreases |plan|
  {
    var o := run(plan[0], n);
    if |plan| > 1 && Succeeded(o.result) {
      var rest := Run(run, plan[1..], n + 1);
      RunLaunches(run, plan[1..], n + 1);
      var t := Run(run, plan, n).trace;
      assert t == o.launched + rest.trace;
      assert |o.launched| == 1;
      forall i | 1 <= i < |t|
        ensures run(plan[i], n + i).launched == [t[i]]
      {
        assert t[i] == rest.trace[i - 1];
        assert plan[i] == plan[1..][i - 1];
        assert n + i == (n + 1) + (i - 1);
      }
    }
  }

  /** Every step of a run but the last one succeeded. */
  lemma {:induction false} RunGoesOn(run: Runner, plan: seq<Step>, n: nat)
    requires plan != [] && OneLaunch(run)
    ensures forall i :: 0 <= i < |plan| && i < |Run(run, plan, n).trace| - 1 ==> Succeeded(run(plan[i], n + i).result)
    decreases |plan|
  {
    var o := run(plan[0], n);
    if |plan| > 1 && Succeeded(o.result) {
      var rest := Run(run, plan[1..], n + 1);
      RunGoesOn(run, plan[1..], n + 1);
      RunLaunches(run, plan[1..], n + 1);
      var t := Run(run, plan, n).trace;
      assert |t| == 1 + |rest.trace|;
      forall i | 1 <= i < |plan| && i < |t| - 1
        ensures Succeeded(run(plan[i], n + i).result)
      {
        assert plan[i] == plan[1..][i - 1];
        assert n + i == (n + 1) + (i - 1);
      }
    }
  }

  /** A run succeeds exactly when every step of the plan ran and succeeded. */
  lemma {:induction false} RunSucceeds(run: Runner, plan: seq<Step>, n: nat)
    requires plan != [] && OneLaunch(run)
    ensures Succeeded(Run(run, plan, n).result) <==>
      |Run(run, plan, n).trace| == |plan| && forall i :: 0 <= i < |plan| ==> Succeeded(run(plan[i], n + i).result)
    decreases |plan|
  {
    var o := run(plan[0], n);
    if |plan| > 1 && Succeeded(o.result) {
      RunSucceeds(run, plan[1..], n + 1);
      assert |o.launched| == 1;
      forall i | 1 <= i < |plan|
        ensures plan[i] == plan[1..][i - 1] && n + i == (n + 1) + (i - 1)
      {
      }
    }
  }

  /** The index of the step a run ends with. */
  function StopIndex(run: Runner, plan: seq<Step>, n: nat): (k: nat)
    requires plan != []
    ensures k < |plan|
    decreases |plan|
  {
    if |plan| == 1 || !Succeeded(run(plan[0], n).result) then 0 else 1 + StopIndex(run, plan[1..], n + 1)
  }

  /** A run ends with the first step that does not succeed, or with the last step, and returns that step's
      result: every step before it succeeded. */
  lemma {:induction false} RunEndsAtFirstFailure(run: Runner, plan: seq<Step>, n: nat)
    requires plan != []
    ensures
      var k := StopIndex(run, plan, n);
      Run(run, plan, n).result == run(plan[k], n + k).result
      && (forall j :: 0 <= j < k ==> Succeeded(run(plan[j], n + j).result))
      && (k < |plan| - 1 ==> !Succeeded(run(plan[k], n + k).result))
    decreases |plan|
  {
    if |plan| > 1 && Succeeded(run(plan[0], n).result) {
      RunEndsAtFirstFailure(run, plan[1..], n + 1);
      var k := StopIndex(run, plan, n);
      assert plan[k] == plan[1..][k - 1] && n + k == (n + 1) + (k - 1);
      forall j | 1 <= j < k
        ensures Succeeded(run(plan[j], n + j).result)
      {
        assert plan[j] == plan[1..][j - 1] && n + j == (n + 1) + (j - 1);
      }
    }
  }

  // ----- the BUILD plan -----

  /** QMAKE comes first, then one MAKE per trimmed piece of the comma split, in order, and one MAKE with
      the empty target exactly when the targets end in a comma. */
  lemma BuildPlanShape(targets: string)
    ensures
      var plan := BuildPlan(targets);
      var parts := Split(targets, {','});
      |plan| == 1 + |parts| + (if EndsWith(targets, ",") then 1 else 0)
      && plan[0] == Step(QMAKE, None)
      && (forall i :: 0 <= i < |parts| ==> plan[1 + i] == Step(MAKE, Some(Trim(parts[i]))))
      && (EndsWith(targets, ",") ==> plan[|plan| - 1] == Step(MAKE, Some("")))
      && (forall i :: 1 <= i < |plan| ==> plan[i].build == MAKE)
  {
    var parts := Split(targets, {','});
    var ms := MakeSteps(parts);
    var tail := if EndsWith(targets, ",") then [Step(MAKE, Some(""))] else [];
    var plan := BuildPlan(targets);
    assert plan == [Step(QMAKE, None)] + ms + tail;
    forall i | 0 <= i < |parts|
      ensures plan[1 + i] == ms[i]
    {
    }
  }

  /** The launches of a request's run are its steps' processes in plan order; each launch but the last
      exited with 0, and the run succeeds exactly when every step launched and exited with 0. */
  lemma RequestTrace(s: Setup, plan: seq<Step>, n: nat)
    requires plan != []
    ensures
      var r := Run(RunnerOf(s), plan, n);
      |r.trace| <= |plan|
      && (forall i :: 0 <= i < |r.trace| ==>
            StepProcess(s, plan[i]).Ok? && r.trace[i] == Launch(BuildStep(plan[i]), StepProcess(s, plan[i]).value))
      && (forall i :: 0 <= i < |r.trace| - 1 ==> s.oracle(n + i, r.trace[i].process) == Exited(0))
      && (Succeeded(r.result) <==>
            |r.trace| == |plan| && forall i :: 0 <= i < |plan| ==> s.oracle(n + i, r.trace[i].process) == Exited(0))
  {
    var run := RunnerOf(s);
    RunnerOneLaunch(s);
    RunLaunches(run, plan, n);
    RunGoesOn(run, plan, n);
    RunSucceeds(run, plan, n);
    forall i | 0 <= i < |plan|
      ensures StepRun(s, plan[i], n + i) == run(plan[i], n + i)
    {
      StepSucceeds(s, plan[i], n + i);
    }
  }

  /** A BUILD starts with QMAKE; when QMAKE does not succeed its outcome is the run's and no MAKE starts. */
  lemma QmakeFirst(s: Setup, targets: string)
    ensures
      var r := Run(RunnerOf(s), BuildPlan(targets), 0);
      r.trace != [] ==> r.trace[0].reason == BuildStep(Step(QMAKE, None))
    ensures
      var q := StepRun(s, Step(QMAKE, None), 0);
      !Succeeded(q.result) ==> Run(RunnerOf(s), BuildPlan(targets), 0) == Progress(q.result, q.launched)
  {
    var plan := BuildPlan(targets);
    BuildPlanShape(targets);
    RequestTrace(s, plan, 0);
  }

  /** The launches of a BUILD after QMAKE are the MAKE targets in split order, and a successful build ran
      every step of its plan. */
  lemma MakeOrder(s: Setup, targets: string)
    ensures
      var r := Run(RunnerOf(s), BuildPlan(targets), 0);
      var parts := Split(targets, {','});
      (forall i :: 0 <= i < |parts| && 1 + i < |r.trace| ==>
         r.trace[1 + i].reason == BuildStep(Step(MAKE, Some(Trim(parts[i])))))
      && (Succeeded(r.result) ==> |r.trace| == |BuildPlan(targets)|)
  {
    var plan := BuildPlan(targets);
    var parts := Split(targets, {','});
    BuildPlanShape(targets);
    RequestTrace(s, plan, 0);
    var r := Run(RunnerOf(s), plan, 0);
    forall i | 0 <= i < |parts| && 1 + i < |r.trace|
      ensures r.trace[1 + i].reason == BuildStep(Step(MAKE, Some(Trim(parts[i]))))
    {
      assert plan[1 + i] == Step(MAKE, Some(Trim(parts[i])));
    }
  }

  // The splits behind the examples below.

  lemma SplitLoneComma()
    ensures Split(",", {','}) == []
  {
    var parts := ["", ""];
    assert Join([','], parts) == ",";
    SplitOfPieces(parts, ',');
    assert DropTrailingEmpty(parts[..1]) == [];
  }

  lemma SplitTwoTargets()
    ensures Split("a,b,", {','}) == ["a", "b"]
  {
    var parts := ["a", "b", ""];
    assert parts[1..] == ["b", ""];
    assert Join([','], ["b", ""]) == "b,";
    assert Join([','], parts) == "a,b,";
    assert !HasAny("a", {','}) && !HasAny("b", {','});
    SplitOfPieces(parts, ',');
    assert DropTrailingEmpty(parts) == parts[..2];
  }

  lemma SplitDoubledComma()
    ensures Split("a,,", {','}) == ["a"]
  {
    var parts := ["a", "", ""];
    assert Join([','], parts) == "a,,";
    assert !HasAny("a", {','});
    SplitOfPieces(parts, ',');
    assert DropTrailingEmpty(parts[..2]) == parts[..1];
  }

  /** An empty target list runs QMAKE and one MAKE without a target. */
  lemma EmptyTargets()
    ensures BuildPlan("") == [Step(QMAKE, None), Step(MAKE, Some(""))]
  {
    assert !HasAny("", {','});
    assert !EndsWith("", ",");
    assert MakeSteps([""]) == [Step(MAKE, Some(""))];
  }

  /** A lone comma runs the same two steps: the split is empty and the trailing comma adds the MAKE. */
  lemma LoneComma()
    ensures BuildPlan(",") == [Step(QMAKE, None), Step(MAKE, Some(""))]
  {
    SplitLoneComma();
    assert EndsWith(",", ",");
  }

  /** A trailing comma adds one MAKE with the empty target after the listed ones. */
  lemma TrailingComma()
    ensures BuildPlan("a,b,") == [Step(QMAKE, None), Step(MAKE, Some("a")), Step(MAKE, Some("b")), Step(MAKE, Some(""))]
  {
    SplitTwoTargets();
    assert MakeSteps(["a", "b"]) == [Step(MAKE, Some("a")), Step(MAKE, Some("b"))];
    assert EndsWith("a,b,", ",");
  }

  /** However many commas end the list, only one MAKE with the empty target is added. */
  lemma TrailingCommas()
    ensures BuildPlan("a,,") == [Step(QMAKE, None), Step(MAKE, Some("a")), Step(MAKE, Some(""))]
  {
    SplitDoubledComma();
    assert MakeSteps(["a"]) == [Step(MAKE, Some("a"))];
    assert EndsWith("a,,", ",");
  }

  // ----- the loop -----

  lemma PrefixSnoc(xs: seq<Step>, k: nat)
    requires k < |xs|
    ensures xs[..k] + [xs[k]] == xs[..k + 1]
  {
  }

  lemma PrefixSuffix(xs: seq<Step>, k: nat)
    requires k <= |xs|
    ensures xs[..k] + xs[k..] == xs
  {
  }

  /** One more step of a plan that has succeeded so far. */
  lemma RunAdvance(run: Runner, plan: seq<Step>, k: nat, before: Progress, o: StepOutcome)
    requires 0 < k < |plan| && before == Run(run, plan[..k], 0) && Succeeded(before.result)
    requires o == run(plan[k], k)
    ensures Progress(o.result, before.trace + o.launched) == Run(run, plan[..k + 1], 0)
  {
    RunSnoc(run, plan[..k], plan[k], 0);
    PrefixSnoc(plan, k);
  }

  /** A prefix of the plan that did not succeed is the whole run. */
  lemma RunHalts(run: Runner, plan: seq<Step>, k: nat)
    requires 0 < k <= |plan| && !Succeeded(Run(run, plan[..k], 0).result)
    ensures Run(run, plan, 0) == Run(run, plan[..k], 0)
  {
    RunStopped(run, plan[..k], plan[k..], 0);
    PrefixSuffix(plan, k);
  }

  /** The loop of the BUILD branch over target.split(","): a MAKE per trimmed piece, returning early with
      the first response that is not a success. The plan lists those MAKE steps after its first step,
      which has already succeeded. */
  method RunMakes(s: Setup, ghost run: Runner, ghost plan: seq<Step>, parts: seq<string>, r0: Result<TaskResponse>, ghost trace0: seq<Launch>)
    returns (r: Result<TaskResponse>, ghost trace: seq<Launch>)
    requires forall st: Step, n: nat {:trigger StepRun(s, st, n)} :: run(st, n) == StepRun(s, st, n)
    requires 1 + |parts| <= |plan|
    requires forall i :: 0 <= i < |parts| ==> plan[1 + i] == Step(MAKE, Some(Trim(parts[i])))
    requires Succeeded(r0) && Progress(r0, trace0) == Run(run, plan[..1], 0)
    ensures Succeeded(r) ==> r == Run(run, plan[..1 + |parts|], 0).result
    ensures !Succeeded(r) ==> r == Run(run, plan, 0).result
    ensures Succeeded(r) ==> trace == Run(run, plan[..1 + |parts|], 0).trace
    ensures !Succeeded(r) ==> trace == Run(run, plan, 0).trace
  {
    r, trace := r0, trace0;
    var i := 0;
    while i < |parts|
      invariant 0 <= i <= |parts|
      invariant Succeeded(r)
      invariant Progress(r, trace) == Run(run, plan[..1 + i], 0)
    {
      ghost var before := Progress(r, trace);
      ghost var launched: seq<Launch>;
      r, launched := Process(s, Step(MAKE, Some(Trim(parts[i]))), 1 + i);
      RunAdvance(run, plan, 1 + i, before, StepOutcome(r, launched));
      trace := trace + launched;
      if !Succeeded(r) {
        RunHalts(run, plan, 2 + i);
        return;
      }
      i := i + 1;
    }
  }

  /** The MAKE without a target that a trailing comma adds, as the last step of the plan. */
  method RunTrailing(s: Setup, ghost run: Runner, ghost plan: seq<Step>, k: nat, r0: Result<TaskResponse>, ghost trace0: seq<Launch>)
    returns (r: Result<TaskResponse>, ghost trace: seq<Launch>)
    requires forall st: Step, n: nat {:trigger StepRun(s, st, n)} :: run(st, n) == StepRun(s, st, n)
    requires 0 < k && |plan| == k + 1 && plan[k] == Step(MAKE, Some(""))
    requires Succeeded(r0) && Progress(r0, trace0) == Run(run, plan[..k], 0)
    ensures r == Run(run, plan, 0).result
    ensures trace == Run(run, plan, 0).trace
  {
    ghost var launched: seq<Launch>;
    r, launched := Process(s, Step(MAKE, Some("")), k);
    RunAdvance(run, plan, k, Progress(r0, trace0), StepOutcome(r, launched));
    assert plan[..|plan|] == plan;
    trace := trace0 + launched;
  }

  /** The BUILD branch of handle/execute: QMAKE, the loop over target.split(","), then the trailing-comma
      step; each early return hands back the first response that is not a success, and an exception
      from a step ends the run with that exception. The runner is the one of the request (RunnerOf(s)). */
  method RunBuild(s: Setup, ghost run: Runner, targets: string) returns (r: Result<TaskResponse>, ghost trace: seq<Launch>)
    requires forall st: Step, n: nat {:trigger StepRun(s, st, n)} :: run(st, n) == StepRun(s, st, n)
    ensures r == Run(run, BuildPlan(targets), 0).result
    ensures trace == Run(run, BuildPlan(targets), 0).trace
  {
    ghost var plan := BuildPlan(targets);
    BuildPlanShape(targets);
    ghost var launched: seq<Launch>;
    r, launched := Process(s, Step(QMAKE, None), 0);
    trace := launched;
    assert plan[..1] == [plan[0]];
    if !Succeeded(r) {
      RunHalts(run, plan, 1);
      return;
    }
    var parts := Split(targets, {','});
    r, trace := RunMakes(s, run, plan, parts, r, trace);
    if !Succeeded(r) {
      return;
    }
    if EndsWith(targets, ",") {
      r, trace := RunTrailing(s, run, plan, 1 + |parts|, r, trace);
      return;
    }
    assert plan[..1 + |parts|] == plan;
  }
}
