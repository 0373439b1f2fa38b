/** Bringing a finished run back: which steps RetryStep and RepairRun reset, and when the rebuilt
    run can finish. */
module Recovery {
  import opened JobModel
  import opened RunMachine
  import opened RunTheorems
  import opened Bookkeeping
  import opened EdgeIndex
  import opened RunSnapshot
  import opened WorkQueue
  import opened Scheduler

  // ---------------------------------------------------------------------------
  // The steps downstream of a step

  /** p leads along edges, each step depending on the one before it. */
  ghost predicate Path(deps: seq<Dependency>, p: seq<StepId>) {
    |p| > 0 && forall i :: 0 <= i < |p| - 1 ==> Dependency(p[i + 1], p[i]) in deps
  }

  ghost predicate LeadsTo(deps: seq<Dependency>, p: seq<StepId>, x: StepId, y: StepId) {
    Path(deps, p) && p[0] == x && p[|p| - 1] == y
  }

  ghost predicate Downstream(deps: seq<Dependency>, x: StepId, y: StepId) {
    exists p :: LeadsTo(deps, p, x, y)
  }

  lemma DownstreamStep(deps: seq<Dependency>, x: StepId, y: StepId, z: StepId)
    requires Downstream(deps, x, y) && Dependency(z, y) in deps
    ensures Downstream(deps, x, z)
  {
    var p :| LeadsTo(deps, p, x, y);
    assert LeadsTo(deps, p + [z], x, z);
  }

  /** A set that holds x and is closed under dependents holds everything downstream of x. */
  lemma {:induction false} ClosedHoldsDownstream(deps: seq<Dependency>, closed: set<StepId>, p: seq<StepId>)
    requires Path(deps, p) && p[0] in closed
    requires forall d :: d in deps && d.dependsOn in closed ==> d.stepId in closed
    ensures p[|p| - 1] in closed
  {
    var n := |p| - 1;
    if n > 0 {
      ClosedHoldsDownstream(deps, closed, p[..n]);
      assert Dependency(p[n], p[n - 1]) in deps;
    }
  }

  /** Everything in found is downstream of x; what is neither queued nor being looked at has had
      its dependents found. */
  ghost predicate Searching(deps: seq<Dependency>, x: StepId, found: set<StepId>, queue: seq<StepId>, open: set<StepId>) {
    && x in found
    && (forall y :: y in found ==> Downstream(deps, x, y))
    && (forall y :: y in queue ==> y in found)
    && (forall d :: d in deps && d.dependsOn in found && d.dependsOn !in queue && d.dependsOn !in open ==> d.stepId in found)
  }

  /** The breadth-first search of RetryStep finds exactly the steps downstream of the chosen one. */
  method FindDownstream(deps: seq<Dependency>, stepId: StepId) returns (toReset: set<StepId>)
    ensures forall y :: y in toReset <==> Downstream(deps, stepId, y)
  {
    var dependents := GroupDependents(deps);
    toReset := {stepId};
    var queue := [stepId];
    ghost var universe := (set d | d in deps :: d.stepId) + {stepId};
    SearchBegins(deps, stepId);
    hide Searching;
    while queue != []
      invariant Searching(deps, stepId, toReset, queue, {}) && toReset <= universe
      decreases universe - toReset, |queue|
    {
      var curr := queue[0];
      var rest := queue[1..];
      SearchDequeues(deps, stepId, toReset, queue);
      var waiting := if curr in dependents then dependents[curr] else [];
      toReset, queue := FindDependents(deps, stepId, toReset, rest, curr, waiting, universe);
    }
    SearchEnds(deps, stepId, toReset);
  }

  lemma SearchBegins(deps: seq<Dependency>, x: StepId)
    ensures Searching(deps, x, {x}, [x], {})
  {
    assert LeadsTo(deps, [x], x, x);
  }

  lemma SearchDequeues(deps: seq<Dependency>, x: StepId, found: set<StepId>, queue: seq<StepId>)
    requires queue != [] && Searching(deps, x, found, queue, {})
    ensures Searching(deps, x, found, queue[1..], {queue[0]}) && queue[0] in found
  {
    assert queue == [queue[0]] + queue[1..];
  }

  lemma SearchEnds(deps: seq<Dependency>, x: StepId, found: set<StepId>)
    requires Searching(deps, x, found, [], {})
    ensures forall y :: y in found <==> Downstream(deps, x, y)
  {
    forall y | Downstream(deps, x, y) ensures y in found {
      var p :| LeadsTo(deps, p, x, y);
      ClosedHoldsDownstream(deps, found, p);
    }
  }

  method FindDependents(deps: seq<Dependency>, stepId: StepId, found0: set<StepId>, queue0: seq<StepId>, curr: StepId,
                        waiting: seq<StepId>, ghost universe: set<StepId>)
    returns (found: set<StepId>, queue: seq<StepId>)
    requires Searching(deps, stepId, found0, queue0, {curr}) && curr in found0
    requires waiting == DependentsOf(deps, curr) && found0 <= universe && forall d :: d in deps ==> d.stepId in universe
    ensures Searching(deps, stepId, found, queue, {}) && found0 <= found <= universe
    ensures found != found0 || queue == queue0
  {
    found, queue := found0, queue0;
    var j := 0;
    while j < |waiting|
      invariant 0 <= j <= |waiting|
      invariant Searching(deps, stepId, found, queue, {curr}) && found0 <= found <= universe
      invariant forall k :: 0 <= k < j ==> waiting[k] in found
      invariant found != found0 || queue == queue0
    {
      var dep := waiting[j];
      DependentsAreEdges(deps, curr, dep);
      if dep !in found {
        DownstreamStep(deps, stepId, curr, dep);
        ghost var before := queue;
        found, queue := found + {dep}, queue + [dep];
        assert dep in queue && forall y :: y in before ==> y in queue;
      }
      j := j + 1;
    }
    forall d | d in deps && d.dependsOn == curr ensures d.stepId in found {
      DependentsAreEdges(deps, curr, d.stepId);
    }
  }

  // ---------------------------------------------------------------------------
  // Resetting

  predicate Resettable(status: Status) {
    status == Failed || status == Skipped || status == Cancelled
  }

  function ResetStep(r: RunStep, chosen: bool): RunStep {
    if chosen && Resettable(r.status) then r.(status := Pending, attempt := 1) else r
  }

  /** steps after resetting: each step as it was, except that the chosen failed, skipped and
      cancelled ones are pending again with their first attempt ahead of them. */
  ghost predicate IsReset(steps: seq<RunStep>, chosen: set<StepId>, result: seq<RunStep>) {
    && |result| == |steps|
    && forall i :: 0 <= i < |steps| ==> result[i] == ResetStep(steps[i], steps[i].stepId in chosen)
  }

  method ResetSteps(steps: seq<RunStep>, chosen: set<StepId>) returns (result: seq<RunStep>)
    ensures IsReset(steps, chosen, result)
    ensures |result| == |steps|
    ensures forall i :: 0 <= i < |steps| ==> result[i].stepId == steps[i].stepId && result[i].config == steps[i].config
    ensures forall i :: 0 <= i < |steps| ==>
      if steps[i].stepId in chosen && (steps[i].status == Failed || steps[i].status == Skipped || steps[i].status == Cancelled)
      then result[i].status == Pending && result[i].attempt == 1
      else result[i] == steps[i]
  {
    result := [];
    for i := 0 to |steps|
      invariant |result| == i && forall j :: 0 <= j < i ==> result[j] == ResetStep(steps[j], steps[j].stepId in chosen)
    {
      result := result + [ResetStep(steps[i], steps[i].stepId in chosen)];
    }
  }

  ghost function StepIds(steps: seq<RunStep>): set<StepId> {
    set i | 0 <= i < |steps| :: steps[i].stepId
  }

  /** RepairRun applies to failed and cancelled runs only, and resets every resettable step. */
  method RepairRun(runStatus: Status, steps: seq<RunStep>, deps: seq<Dependency>)
    returns (runner: DAGRunner?, toLaunch: seq<StepId>, panicked: bool, ghost result: seq<RunStep>)
    requires ValidSteps(steps)
    ensures runner != null <==> runStatus == Failed || runStatus == Cancelled
    ensures runner != null ==> fresh(runner) && IsReset(steps, StepIds(steps), result) && ValidSteps(result)
    ensures runner != null ==> (panicked <==> StartPanics(steps, deps))
    ensures runner != null && !panicked ==> Restarted(runner, result, deps, toLaunch)
  {
    runner, toLaunch, panicked, result := null, [], false, [];
    if runStatus != Failed && runStatus != Cancelled {
      return;
    }
    var chosen := set r | r in steps :: r.stepId;
    assert chosen == StepIds(steps) by {
      forall x | x in chosen ensures x in StepIds(steps) { var r :| r in steps && r.stepId == x; }
      forall x | x in StepIds(steps) ensures x in chosen { var i :| 0 <= i < |steps| && steps[i].stepId == x; assert steps[i] in steps; }
    }
    var repaired := ResetSteps(steps, chosen);
    ResetKeepsSteps(steps, deps, chosen, repaired);
    runner, toLaunch, panicked := RebuildAndStart(repaired, deps);
    result := repaired;
  }

  /** RetryStep resets the resettable steps among the chosen step and everything downstream of it. */
  method RetryStep(stepId: StepId, steps: seq<RunStep>, deps: seq<Dependency>)
    returns (runner: DAGRunner, toLaunch: seq<StepId>, panicked: bool, ghost result: seq<RunStep>, ghost chosen: set<StepId>)
    requires ValidSteps(steps)
    ensures forall y :: y in chosen <==> Downstream(deps, stepId, y)
    ensures fresh(runner) && IsReset(steps, chosen, result) && ValidSteps(result)
    ensures panicked <==> StartPanics(steps, deps)
    ensures !panicked ==> Restarted(runner, result, deps, toLaunch)
  {
    var toReset := FindDownstream(deps, stepId);
    var retried := ResetSteps(steps, toReset);
    ResetKeepsSteps(steps, deps, toReset, retried);
    runner, toLaunch, panicked := RebuildAndStart(retried, deps);
    result, chosen := retried, toReset;
  }

  /** Builds a runner from stored steps, with the edges the job has now, and counts the completed
      steps. */
  method Rebuild(steps: seq<RunStep>, deps: seq<Dependency>) returns (runner: DAGRunner)
    requires ValidSteps(steps)
    ensures fresh(runner) && runner.Valid() && runner.deps == deps && runner.job == JobOf(steps, deps) && runner.origin == OriginOf(steps)
    ensures !runner.started && runner.Abs() == Initial(runner.job, runner.origin)
  {
    runner := new DAGRunner(steps, deps);
    runner.PreprocessCompleted(steps);
  }

  /** The runner executes the rebuilt run and has just started it. */
  ghost predicate Restarted(runner: DAGRunner, steps: seq<RunStep>, deps: seq<Dependency>, toLaunch: seq<StepId>)
    reads runner
  {
    && runner.Valid() && runner.started && runner.deps == deps && runner.job == JobOf(steps, deps) && runner.origin == OriginOf(steps)
    && Next(runner.job, Initial(runner.job, runner.origin), Start, runner.Abs())
    && LaunchList(toLaunch, {}, runner.track.outstanding)
  }

  method RebuildAndStart(steps: seq<RunStep>, deps: seq<Dependency>) returns (runner: DAGRunner, toLaunch: seq<StepId>, panicked: bool)
    requires ValidSteps(steps)
    ensures fresh(runner)
    ensures panicked <==> StartPanics(steps, deps)
    ensures !panicked ==> Restarted(runner, steps, deps, toLaunch)
  {
    runner := Rebuild(steps, deps);
    PanicsAsStored(steps, deps);
    toLaunch, panicked := runner.Start();
  }

  lemma ResetKeepsSteps(steps: seq<RunStep>, deps: seq<Dependency>, chosen: set<StepId>, result: seq<RunStep>)
    requires ValidSteps(steps) && IsReset(steps, chosen, result)
    ensures ValidSteps(result) && StepIds(result) == StepIds(steps)
    ensures StartPanics(result, deps) <==> StartPanics(steps, deps)
  {
    forall r | r in result && r.status == Pending ensures r.attempt == 1 {
      var i :| 0 <= i < |result| && result[i] == r;
      assert steps[i] in steps;
    }
    assert StepIds(result) == StepIds(steps) by {
      forall i | 0 <= i < |steps| ensures result[i].stepId in StepIds(steps) && steps[i].stepId in StepIds(result) {}
    }
    assert DoneAmong(result, |result|) == DoneAmong(steps, |steps|);
  }

  // ---------------------------------------------------------------------------
  // When a rebuilt run can start, and when it can finish. Its steps are those of the old run; its
  // edges are the job's, which may have changed since.

  /** The job has gained a step, and all that it waits for has completed in this run. */
  ghost predicate StartPanics(steps: seq<RunStep>, deps: seq<Dependency>) {
    MissingRoot(deps, StepIds(steps), DoneAmong(steps, |steps|))
  }

  lemma IdsAreKeys(steps: seq<RunStep>)
    ensures ConfigOf(steps).Keys == StepIds(steps)
  {
    SnapshotKeys(steps);
    forall x | x in ConfigOf(steps) ensures x in StepIds(steps) {
      var r :| r in steps && r.stepId == x;
      var i :| 0 <= i < |steps| && steps[i] == r;
    }
    forall x | x in StepIds(steps) ensures x in ConfigOf(steps) {
      var i :| 0 <= i < |steps| && steps[i].stepId == x;
      assert steps[i] in steps;
    }
  }

  lemma PanicsAsStored(steps: seq<RunStep>, deps: seq<Dependency>)
    requires ValidSteps(steps)
    ensures StartPanics(steps, deps) <==> MissingRoot(deps, JobOf(steps, deps).config.Keys, InitiallyDone(OriginOf(steps)))
  {
    IdsAreKeys(steps);
    DoneIsInitiallyDone(steps);
  }

  /** The step has completed or will run again. */
  predicate RunsAgain(r: RunStep, chosen: set<StepId>) {
    r.status == Completed || r.status == Pending || (Resettable(r.status) && r.stepId in chosen)
  }

  /** The step has an edge from a step that the run does not have. */
  ghost predicate WaitsOutside(steps: seq<RunStep>, deps: seq<Dependency>, x: StepId) {
    exists d :: d in deps && d.stepId == x && d.dependsOn !in StepIds(steps)
  }

  /** The steps short of Completed, and the edges among them. */
  ghost function Short(steps: seq<RunStep>): set<StepId> {
    set i | 0 <= i < |steps| && steps[i].status != Completed :: steps[i].stepId
  }

  ghost function ShortEdges(steps: seq<RunStep>, deps: seq<Dependency>): set<Dependency> {
    set d | d in deps && d.stepId in Short(steps) && d.dependsOn in Short(steps)
  }

  /** Everything short of Completed will run again, waits for steps of the run only, and not for
      itself in a circle; and there is something. */
  ghost predicate Restartable(steps: seq<RunStep>, deps: seq<Dependency>, chosen: set<StepId>) {
    && (forall i :: 0 <= i < |steps| ==> RunsAgain(steps[i], chosen))
    && (forall x :: x in Short(steps) ==> !WaitsOutside(steps, deps, x))
    && Acyclic(Short(steps), ShortEdges(steps, deps))
    && Short(steps) != {}
  }

  lemma StatusAfter(steps: seq<RunStep>, chosen: set<StepId>, result: seq<RunStep>, i: nat)
    requires ValidSteps(result) && IsReset(steps, chosen, result) && i < |steps|
    ensures steps[i].stepId in ConfigOf(result) && steps[i].stepId in OriginOf(result).status
    ensures Inert(OriginOf(result), steps[i].stepId) <==> !RunsAgain(steps[i], chosen)
    ensures RunsAgain(steps[i], chosen) ==> (OriginOf(result).status[steps[i].stepId] == Pending <==> steps[i].status != Completed)
  {
    SnapshotLookup(result, i);
  }

  lemma IndexOf(steps: seq<RunStep>, chosen: set<StepId>, result: seq<RunStep>, x: StepId) returns (i: nat)
    requires IsReset(steps, chosen, result) && x in ConfigOf(result)
    ensures i < |steps| && steps[i].stepId == x
  {
    SnapshotKeys(result);
    var r :| r in result && r.stepId == x;
    i :| 0 <= i < |result| && result[i] == r;
  }

  /** Which rebuilt steps are stuck can be read off the stored run. */
  lemma StuckAfter(steps: seq<RunStep>, deps: seq<Dependency>, chosen: set<StepId>, result: seq<RunStep>, i: nat)
    requires ValidSteps(steps) && IsReset(steps, chosen, result) && i < |steps|
    ensures Stuck(JobOf(result, deps), OriginOf(result), steps[i].stepId) <==>
      !RunsAgain(steps[i], chosen) || (steps[i].status != Completed && WaitsOutside(steps, deps, steps[i].stepId))
  {
    ResetKeepsSteps(steps, deps, chosen, result);
    IdsAreKeys(result);
    StatusAfter(steps, chosen, result, i);
    var x, job := steps[i].stepId, JobOf(result, deps);
    hide ConfigOf, StatusOf, RunsAgain, IsReset, StepIds;
    if d :| d in deps && d.stepId == x && d.dependsOn !in StepIds(steps) {
      assert d in job.edges && d.dependsOn !in job.config;
    }
    if d :| d in job.edges && d.stepId == x && d.dependsOn !in job.config {
      assert d in deps && d.dependsOn !in StepIds(steps);
    }
  }

  lemma RestartableMeansCanFinish(steps: seq<RunStep>, deps: seq<Dependency>, chosen: set<StepId>, result: seq<RunStep>)
    requires ValidSteps(steps) && IsReset(steps, chosen, result)
    ensures Restartable(steps, deps, chosen) <==>
      CanFinish(JobOf(result, deps), OriginOf(result)) && Waiting(OriginOf(result)) != {}
  {
    ResetKeepsSteps(steps, deps, chosen, result);
    var job, o := JobOf(result, deps), OriginOf(result);
    NoneStuckIff(steps, deps, chosen, result);
    if forall i :: 0 <= i < |steps| ==> RunsAgain(steps[i], chosen) {
      ShortIsWaiting(steps, deps, chosen, result);
    }
    hide ConfigOf, StatusOf, AttemptOf, Stuck, RunsAgain, IsReset, WaitsOutside, ValidSteps, Acyclic, Short, ShortEdges, Waiting, WaitingEdges, StepIds;
  }

  lemma NoneStuckIff(steps: seq<RunStep>, deps: seq<Dependency>, chosen: set<StepId>, result: seq<RunStep>)
    requires ValidSteps(steps) && IsReset(steps, chosen, result)
    ensures (forall x :: x in JobOf(result, deps).config ==> !Stuck(JobOf(result, deps), OriginOf(result), x)) <==> (
        && (forall i :: 0 <= i < |steps| ==> RunsAgain(steps[i], chosen))
        && (forall x :: x in Short(steps) ==> !WaitsOutside(steps, deps, x)))
  {
    ResetKeepsSteps(steps, deps, chosen, result);
    hide ConfigOf, StatusOf, AttemptOf, Stuck, RunsAgain, IsReset, WaitsOutside, ValidSteps;
    forall i | 0 <= i < |steps|
      ensures steps[i].stepId in ConfigOf(result)
      ensures Stuck(JobOf(result, deps), OriginOf(result), steps[i].stepId) <==>
        !RunsAgain(steps[i], chosen) || (steps[i].status != Completed && WaitsOutside(steps, deps, steps[i].stepId))
    {
      StatusAfter(steps, chosen, result, i);
      StuckAfter(steps, deps, chosen, result, i);
    }
    if forall x :: x in JobOf(result, deps).config ==> !Stuck(JobOf(result, deps), OriginOf(result), x) {
      forall x | x in Short(steps) ensures !WaitsOutside(steps, deps, x) {
        var i :| 0 <= i < |steps| && steps[i].status != Completed && steps[i].stepId == x;
      }
    } else {
      var x :| x in ConfigOf(result) && Stuck(JobOf(result, deps), OriginOf(result), x);
      var i := IndexOf(steps, chosen, result, x);
      if RunsAgain(steps[i], chosen) { assert x in Short(steps) && WaitsOutside(steps, deps, x); }
    }
  }

  lemma ShortIsWaiting(steps: seq<RunStep>, deps: seq<Dependency>, chosen: set<StepId>, result: seq<RunStep>)
    requires ValidSteps(steps) && IsReset(steps, chosen, result)
    requires forall i :: 0 <= i < |steps| ==> RunsAgain(steps[i], chosen)
    ensures Short(steps) == Waiting(OriginOf(result))
    ensures ShortEdges(steps, deps) == WaitingEdges(JobOf(result, deps), OriginOf(result))
  {
    ResetKeepsSteps(steps, deps, chosen, result);
    SnapshotKeys(result);
    hide ConfigOf, StatusOf, AttemptOf, IsReset, ValidSteps, RunsAgain;
    forall x | x in Short(steps) ensures x in Waiting(OriginOf(result)) {
      var i :| 0 <= i < |steps| && steps[i].status != Completed && steps[i].stepId == x;
      StatusAfter(steps, chosen, result, i);
    }
    forall x | x in Waiting(OriginOf(result)) ensures x in Short(steps) {
      var i := IndexOf(steps, chosen, result, x);
      StatusAfter(steps, chosen, result, i);
    }
    assert forall x :: x in Waiting(OriginOf(result)) ==> x in ConfigOf(result);
  }

  /** A rebuilt run that goes quiet has reported exactly if every step short of Completed got reset,
      waits for steps of the run only and not in a circle, and there was one. All of it can be read
      off the stored statuses and edges: for RetryStep each failed, skipped or cancelled step must
      be downstream of the chosen one; for RepairRun, which chooses all steps, see RepairRestarts.
      Nothing is assumed of the edges: they are not validated again. */
  lemma RebuiltRunReportsIff(steps: seq<RunStep>, deps: seq<Dependency>, chosen: set<StepId>, result: seq<RunStep>,
                             states: seq<RunState>, events: seq<Event>)
    requires ValidSteps(steps) && IsReset(steps, chosen, result)
    requires JobOf(result, deps).Valid() && Execution(JobOf(result, deps), OriginOf(result), states, events)
    requires var s := states[|events|]; s.started && !s.stopped && s.outstanding == {} && s.retrying == {}
    ensures |states[|events|].reports| == 1 <==> Restartable(steps, deps, chosen)
  {
    ResetKeepsSteps(steps, deps, chosen, result);
    SnapshotValid(result, deps);
    QuietRunHasReported(JobOf(result, deps), OriginOf(result), states, events);
    RestartableMeansCanFinish(steps, deps, chosen, result);
  }

  /** Repairing leaves a run that can finish exactly if no step was stored Running, one is short of
      Completed, and those neither wait for a step that was added to the job later nor for one
      another in a circle. */
  lemma RepairRestarts(steps: seq<RunStep>, deps: seq<Dependency>)
    ensures Restartable(steps, deps, StepIds(steps)) <==> (
        && (forall i :: 0 <= i < |steps| ==> steps[i].status != Running)
        && Short(steps) != {}
        && (forall x :: x in Short(steps) ==> !WaitsOutside(steps, deps, x))
        && Acyclic(Short(steps), ShortEdges(steps, deps)))
  {
    forall i | 0 <= i < |steps| ensures RunsAgain(steps[i], StepIds(steps)) <==> steps[i].status != Running {
      assert steps[i].stepId in StepIds(steps);
    }
  }

  // Jobs that show the conditions can fail.

  /** Retrying one of two unrelated failed steps leaves a run that goes quiet without a report. */
  lemma RetryLeavesUnrelatedFailure(chosen: set<StepId>, c: StepConfig, result: seq<RunStep>, states: seq<RunState>, events: seq<Event>)
    requires forall y :: y in chosen <==> Downstream([], "a", y)
    requires IsReset([RunStep("a", c, Failed, 1), RunStep("b", c, Failed, 1)], chosen, result)
    requires JobOf(result, []).Valid() && Execution(JobOf(result, []), OriginOf(result), states, events)
    requires var s := states[|events|]; s.started && !s.stopped && s.outstanding == {} && s.retrying == {}
    ensures |states[|events|].reports| != 1
  {
    var steps := [RunStep("a", c, Failed, 1), RunStep("b", c, Failed, 1)];
    assert "a"[0] != "b"[0];
    assert "b" !in chosen by {
      forall p ensures !LeadsTo([], p, "a", "b") {
        assert |p| > 1 && p[0] == "a" ==> Dependency(p[0 + 1], p[0]) !in [];
      }
    }
    assert !RunsAgain(steps[1], chosen);
    RebuiltRunReportsIff(steps, [], chosen, result, states, events);
  }

  /** A failed step that has since been made to wait for a new step: the repaired run goes quiet
      without a report. */
  lemma NewDependencyHangsRepair(c: StepConfig, result: seq<RunStep>, states: seq<RunState>, events: seq<Event>)
    requires IsReset([RunStep("a", c, Failed, 1)], {"a"}, result)
    requires JobOf(result, [Dependency("a", "new")]).Valid()
    requires Execution(JobOf(result, [Dependency("a", "new")]), OriginOf(result), states, events)
    requires var s := states[|events|]; s.started && !s.stopped && s.outstanding == {} && s.retrying == {}
    ensures |states[|events|].reports| != 1
  {
    var steps, deps := [RunStep("a", c, Failed, 1)], [Dependency("a", "new")];
    assert "a"[0] != "new"[0];
    assert deps[0] in deps && deps[0].dependsOn !in StepIds(steps);
    assert WaitsOutside(steps, deps, steps[0].stepId) && steps[0].stepId in Short(steps);
    RebuiltRunReportsIff(steps, deps, {"a"}, result, states, events);
  }

  /** Two steps that have since been made to wait for each other, which a failed rollback of
      AddDependency allows: the repaired run launches nothing and never reports. */
  lemma CycleHangsRepair(c: StepConfig, result: seq<RunStep>, states: seq<RunState>, events: seq<Event>)
    requires IsReset([RunStep("a", c, Failed, 1), RunStep("b", c, Skipped, 1)], {"a", "b"}, result)
    requires JobOf(result, [Dependency("b", "a"), Dependency("a", "b")]).Valid()
    requires Execution(JobOf(result, [Dependency("b", "a"), Dependency("a", "b")]), OriginOf(result), states, events)
    requires var s := states[|events|]; s.started && !s.stopped && s.outstanding == {} && s.retrying == {}
    ensures |states[|events|].reports| != 1
  {
    var steps := [RunStep("a", c, Failed, 1), RunStep("b", c, Skipped, 1)];
    var deps := [Dependency("b", "a"), Dependency("a", "b")];
    assert "a"[0] != "b"[0];
    assert steps[0].stepId in Short(steps) && steps[1].stepId in Short(steps);
    assert deps[0] in deps && deps[1] in deps;
    CircleIsCyclic(Short(steps), ShortEdges(steps, deps), "a", "b");
    RebuiltRunReportsIff(steps, deps, {"a", "b"}, result, states, events);
  }

  lemma CircleIsCyclic(ids: set<StepId>, edges: set<Dependency>, x: StepId, y: StepId)
    requires x in ids && y in ids && Dependency(x, y) in edges && Dependency(y, x) in edges
    ensures !Acyclic(ids, edges)
  {
    hide TopologicalOrder;
    if order :| TopologicalOrder(order, ids, edges) {
      var i, j := Places(order, ids, edges, x, y);
      var k, l := Places(order, ids, edges, y, x);
      assert false;
    }
  }

  lemma Places(order: seq<StepId>, ids: set<StepId>, edges: set<Dependency>, x: StepId, y: StepId) returns (i: nat, j: nat)
    requires TopologicalOrder(order, ids, edges) && x in ids && Dependency(x, y) in edges
    ensures Distinct(order) && j < i < |order| && order[i] == x && order[j] == y
  {
    assert x in (set z | z in order);
    i :| 0 <= i < |order| && order[i] == x;
    assert y in order[..i];
    j :| 0 <= j < i && order[j] == y;
  }

  /** A new step that waits for a completed one makes the repaired run panic at its start. */
  lemma NewDependentPanicsRepair(c: StepConfig)
    ensures StartPanics([RunStep("a", c, Completed, 1), RunStep("b", c, Failed, 1)], [Dependency("new", "a")])
  {
    var steps, deps := [RunStep("a", c, Completed, 1), RunStep("b", c, Failed, 1)], [Dependency("new", "a")];
    assert "a"[0] != "new"[0] && "b"[0] != "new"[0];
    assert deps[0] in deps && "new" in Targets(deps) && "new" !in StepIds(steps);
    assert steps[0].stepId in DoneAmong(steps, 2);
  }
}
