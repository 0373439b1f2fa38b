/** The run as the store keeps it: a list of run steps and the job's dependency edges. */
module RunSnapshot {
  import opened JobModel
  import opened RunMachine
  import opened Bookkeeping

  /** A run step as the store hands it over: the snapshot plus its mutable part. */
  datatype RunStep = RunStep(stepId: StepId, config: StepConfig, status: Status, attempt: int)

  function ConfigOf(steps: seq<RunStep>): map<StepId, StepConfig> {
    if steps == [] then map[]
    else var r := steps[|steps| - 1]; ConfigOf(steps[..|steps| - 1])[r.stepId := r.config]
  }

  function StatusOf(steps: seq<RunStep>): map<StepId, Status> {
    if steps == [] then map[]
    else var r := steps[|steps| - 1]; StatusOf(steps[..|steps| - 1])[r.stepId := r.status]
  }

  function AttemptOf(steps: seq<RunStep>): map<StepId, int> {
    if steps == [] then map[]
    else var r := steps[|steps| - 1]; AttemptOf(steps[..|steps| - 1])[r.stepId := r.attempt]
  }

  ghost function JobOf(steps: seq<RunStep>, deps: seq<Dependency>): Job {
    Job(ConfigOf(steps), set d | d in deps && d.stepId in ConfigOf(steps))
  }

  ghost function OriginOf(steps: seq<RunStep>): Origin {
    Origin(StatusOf(steps), AttemptOf(steps))
  }

  /** What the store guarantees: distinct step ids and the attempt counter of a pending step at 1.
      The edges may name steps the run does not have. */
  ghost predicate ValidSteps(steps: seq<RunStep>) {
    && (forall i, j :: 0 <= i < j < |steps| ==> steps[i].stepId != steps[j].stepId)
    && (forall r :: r in steps && r.status == Pending ==> r.attempt == 1)
  }

  lemma {:induction false} SnapshotKeys(steps: seq<RunStep>)
    ensures ConfigOf(steps).Keys == StatusOf(steps).Keys == AttemptOf(steps).Keys
    ensures forall x :: x in ConfigOf(steps) <==> exists r :: r in steps && r.stepId == x
  {
    if steps != [] {
      var n := |steps| - 1;
      SnapshotKeys(steps[..n]);
      assert steps == steps[..n] + [steps[n]];
      forall x ensures x in ConfigOf(steps) <==> exists r :: r in steps && r.stepId == x {
        if r :| r in steps && r.stepId == x {
          if r != steps[n] { assert r in steps[..n]; }
        }
        if x in ConfigOf(steps) {
          if x == steps[n].stepId { assert steps[n] in steps; }
          else { var r :| r in steps[..n] && r.stepId == x; assert r in steps; }
        }
      }
    }
  }

  lemma {:induction false} SnapshotLookup(steps: seq<RunStep>, i: nat)
    requires ValidSteps(steps) && i < |steps|
    ensures var r := steps[i];
      && r.stepId in ConfigOf(steps) && ConfigOf(steps)[r.stepId] == r.config
      && r.stepId in StatusOf(steps) && StatusOf(steps)[r.stepId] == r.status
      && r.stepId in AttemptOf(steps) && AttemptOf(steps)[r.stepId] == r.attempt
  {
    var n := |steps| - 1;
    if i < n {
      assert forall r :: r in steps[..n] ==> r in steps;
      SnapshotLookup(steps[..n], i);
    }
  }

  lemma SnapshotValid(steps: seq<RunStep>, deps: seq<Dependency>)
    requires ValidSteps(steps)
    ensures JobOf(steps, deps).Valid() && EdgesOf(JobOf(steps, deps), deps) && ValidOrigin(JobOf(steps, deps), OriginOf(steps))
  {
    SnapshotKeys(steps);
    forall x | x in StatusOf(steps) && StatusOf(steps)[x] == Pending ensures AttemptOf(steps)[x] == 1 {
      var r :| r in steps && r.stepId == x;
      var i :| 0 <= i < |steps| && steps[i] == r;
      SnapshotLookup(steps, i);
    }
  }

  /** The steps found Completed among the first n. */
  ghost function DoneAmong(steps: seq<RunStep>, n: nat): set<StepId>
    requires n <= |steps|
  {
    set i | 0 <= i < n && steps[i].status == Completed :: steps[i].stepId
  }

  lemma DoneIsInitiallyDone(steps: seq<RunStep>)
    requires ValidSteps(steps)
    ensures DoneAmong(steps, |steps|) == InitiallyDone(OriginOf(steps))
  {
    SnapshotKeys(steps);
    forall x | x in DoneAmong(steps, |steps|) ensures x in InitiallyDone(OriginOf(steps)) {
      var i :| 0 <= i < |steps| && steps[i].status == Completed && steps[i].stepId == x;
      SnapshotLookup(steps, i);
    }
    forall x | x in InitiallyDone(OriginOf(steps)) ensures x in DoneAmong(steps, |steps|) {
      var r :| r in steps && r.stepId == x;
      var i :| 0 <= i < |steps| && steps[i] == r;
      SnapshotLookup(steps, i);
    }
  }

  lemma DoneGrows(steps: seq<RunStep>, n: nat)
    requires ValidSteps(steps) && n < |steps|
    ensures steps[n].stepId !in DoneAmong(steps, n)
    ensures DoneAmong(steps, n + 1) == DoneAmong(steps, n) + (if steps[n].status == Completed then {steps[n].stepId} else {})
    ensures |DoneAmong(steps, n + 1)| == |DoneAmong(steps, n)| + (if steps[n].status == Completed then 1 else 0)
  {
    var a, b := DoneAmong(steps, n), DoneAmong(steps, n + 1);
    forall x | x in a ensures x in b {
      var i :| 0 <= i < n && steps[i].status == Completed && steps[i].stepId == x;
      assert steps[i].stepId in b;
    }
    if steps[n].status == Completed { assert steps[n].stepId in b; }
  }
}
