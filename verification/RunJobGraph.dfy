/** Jobs that start other jobs: the reference check on run_job steps keeps the whole graph of jobs acyclic. */
module RunJobGraph {

  type JobId = string

  /** The part of a step that matters here. Only steps of type "run_job" with a target refer to a job. */
  datatype JobStep = JobStep(stepId: string, taskType: string, target: JobId) {
    predicate Refers() {
      taskType == "run_job" && target != ""
    }
  }

  type Jobs = map<JobId, seq<JobStep>>

  const MAX_RUN_JOB_DEPTH := 10

  // ---------------------------------------------------------------------------
  // The check

  /** checkRunJobCycle: no error on the way down from job. A job that does not exist ends the chain;
      reading a job in failing errs. The recursion ends because the depth is capped, whatever is stored. */
  predicate CheckJob(jobs: Jobs, failing: set<JobId>, origin: JobId, job: JobId, depth: nat)
    decreases MAX_RUN_JOB_DEPTH - depth, 1, 0
  {
    && depth < MAX_RUN_JOB_DEPTH
    && job !in failing
    && (job in jobs ==> CheckSteps(jobs, failing, origin, jobs[job], depth))
  }

  predicate CheckSteps(jobs: Jobs, failing: set<JobId>, origin: JobId, steps: seq<JobStep>, depth: nat)
    requires depth < MAX_RUN_JOB_DEPTH
    decreases MAX_RUN_JOB_DEPTH - depth, 0, |steps|
  {
    if steps == [] then true
    else
      && (steps[0].Refers() ==> steps[0].target != origin && CheckJob(jobs, failing, origin, steps[0].target, depth + 1))
      && CheckSteps(jobs, failing, origin, steps[1..], depth)
  }

  // ---------------------------------------------------------------------------
  // What it means

  ghost predicate Edge(jobs: Jobs, a: JobId, b: JobId) {
    a in jobs && b != "" && exists s :: s in jobs[a] && s.taskType == "run_job" && s.target == b
  }

  ghost predicate Walk(jobs: Jobs, w: seq<JobId>) {
    |w| > 0 && forall i {:trigger w[i]} :: 0 < i < |w| ==> Edge(jobs, w[i - 1], w[i])
  }

  ghost predicate WalkFrom(jobs: Jobs, job: JobId, w: seq<JobId>) {
    Walk(jobs, w) && w[0] == job
  }

  /** What the check asks of one walk: short enough, readable at its end, and not back at the origin. */
  ghost predicate Harmless(failing: set<JobId>, origin: JobId, depth: nat, w: seq<JobId>)
    requires |w| > 0
  {
    && depth + |w| <= 10
    && w[|w| - 1] !in failing
    && (|w| > 1 ==> w[|w| - 1] != origin)
  }

  lemma {:induction false} CheckStepsAll(jobs: Jobs, failing: set<JobId>, origin: JobId, steps: seq<JobStep>, depth: nat)
    requires depth < MAX_RUN_JOB_DEPTH
    ensures CheckSteps(jobs, failing, origin, steps, depth) <==>
      forall s :: s in steps && s.Refers() ==> s.target != origin && CheckJob(jobs, failing, origin, s.target, depth + 1)
  {
    if steps != [] {
      CheckStepsAll(jobs, failing, origin, steps[1..], depth);
      assert steps == [steps[0]] + steps[1..];
    }
  }

  lemma {:induction false} AcceptedWalk(jobs: Jobs, failing: set<JobId>, origin: JobId, job: JobId, depth: nat, w: seq<JobId>)
    requires CheckJob(jobs, failing, origin, job, depth) && WalkFrom(jobs, job, w)
    ensures Harmless(failing, origin, depth, w)
    decreases |w|
  {
    if |w| > 1 {
      assert Edge(jobs, w[0], w[1]);
      CheckStepsAll(jobs, failing, origin, jobs[job], depth);
      TailWalk(jobs, w);
      AcceptedWalk(jobs, failing, origin, w[1], depth + 1, w[1..]);
    }
  }

  lemma TailWalk(jobs: Jobs, w: seq<JobId>)
    requires Walk(jobs, w) && |w| > 1
    ensures WalkFrom(jobs, w[1], w[1..])
  {
    var t := w[1..];
    forall i | 0 < i < |t| ensures Edge(jobs, t[i - 1], t[i]) {
      assert t[i] == w[i + 1] && t[i - 1] == w[i];
    }
  }

  lemma PrependWalk(jobs: Jobs, a: JobId, w: seq<JobId>)
    requires Walk(jobs, w) && Edge(jobs, a, w[0])
    ensures WalkFrom(jobs, a, [a] + w)
  {
    var t := [a] + w;
    forall i | 0 < i < |t| ensures Edge(jobs, t[i - 1], t[i]) {
      if i > 1 { assert t[i] == w[i - 1] && t[i - 1] == w[i - 2]; }
    }
  }

  lemma {:induction false} RejectedWalk(jobs: Jobs, failing: set<JobId>, origin: JobId, job: JobId, depth: nat) returns (w: seq<JobId>)
    requires !CheckJob(jobs, failing, origin, job, depth)
    ensures WalkFrom(jobs, job, w) && !Harmless(failing, origin, depth, w)
    decreases MAX_RUN_JOB_DEPTH - depth
  {
    w := [job];
    if depth < MAX_RUN_JOB_DEPTH && job !in failing {
      CheckStepsAll(jobs, failing, origin, jobs[job], depth);
      var s :| s in jobs[job] && s.Refers() && !(s.target != origin && CheckJob(jobs, failing, origin, s.target, depth + 1));
      assert Edge(jobs, job, s.target);
      w := [s.target];
      if s.target != origin {
        w := RejectedWalk(jobs, failing, origin, s.target, depth + 1);
      }
      PrependWalk(jobs, job, w);
      w := [job] + w;
    }
  }

  /** The check accepts exactly if every walk down from the target is shorter than the cap, reads
      without error and never comes to the origin. */
  lemma CheckAcceptsIff(jobs: Jobs, failing: set<JobId>, origin: JobId, job: JobId)
    ensures CheckJob(jobs, failing, origin, job, 0) <==> forall w :: WalkFrom(jobs, job, w) ==> Harmless(failing, origin, 0, w)
  {
    if CheckJob(jobs, failing, origin, job, 0) {
      forall w | WalkFrom(jobs, job, w) ensures Harmless(failing, origin, 0, w) {
        AcceptedWalk(jobs, failing, origin, job, 0, w);
      }
    } else {
      var w := RejectedWalk(jobs, failing, origin, job, 0);
      assert WalkFrom(jobs, job, w) && !Harmless(failing, origin, 0, w);
    }
  }

  // ---------------------------------------------------------------------------
  // No job starts itself, however indirectly

  ghost predicate Acyclic(jobs: Jobs) {
    forall w :: Walk(jobs, w) && |w| > 1 ==> w[0] != w[|w| - 1]
  }

  /** after has no edges but those of before and one from origin to target. */
  ghost predicate AtMostOneNewEdge(before: Jobs, after: Jobs, origin: JobId, target: JobId) {
    forall a, b {:trigger Edge(after, a, b)} :: Edge(after, a, b) ==> Edge(before, a, b) || (a == origin && b == target)
  }

  /** Where the new edge leads, nothing gets back to its origin: walks from the target are old walks. */
  lemma {:induction false} TargetWalksAreOld(before: Jobs, after: Jobs, origin: JobId, target: JobId, w: seq<JobId>)
    requires AtMostOneNewEdge(before, after, origin, target) && target != origin
    requires !Reaches(before, target, origin)
    requires WalkFrom(after, target, w)
    ensures WalkFrom(before, target, w) && w[|w| - 1] != origin
  {
    hide Edge;
    var n := |w| - 1;
    if n > 0 {
      var v := w[..n];
      PrefixWalk(after, w);
      TargetWalksAreOld(before, after, origin, target, v);
      assert v[|v| - 1] == w[n - 1] && Edge(after, w[n - 1], w[n]);
      AppendWalk(before, v, w[n]);
      assert v + [w[n]] == w;
    }
  }

  lemma PrefixWalk(jobs: Jobs, w: seq<JobId>)
    requires Walk(jobs, w) && |w| > 1
    ensures WalkFrom(jobs, w[0], w[..|w| - 1])
  {
    var p := w[..|w| - 1];
    forall i | 0 < i < |p| ensures Edge(jobs, p[i - 1], p[i]) {
      assert p[i] == w[i] && p[i - 1] == w[i - 1];
    }
  }

  lemma AppendWalk(jobs: Jobs, w: seq<JobId>, b: JobId)
    requires Walk(jobs, w) && Edge(jobs, w[|w| - 1], b)
    ensures WalkFrom(jobs, w[0], w + [b])
  {
    var t := w + [b];
    forall i | 0 < i < |t| ensures Edge(jobs, t[i - 1], t[i]) {
      if i < |w| { assert t[i] == w[i] && t[i - 1] == w[i - 1]; }
    }
  }

  /** A closed walk through the new edge, turned so that it starts behind that edge. */
  lemma TurnedWalk(jobs: Jobs, w: seq<JobId>, i: nat)
    requires Walk(jobs, w) && |w| > 1 && w[0] == w[|w| - 1] && 0 < i < |w|
    ensures var r := w[i..] + w[1..i]; Walk(jobs, r) && r[0] == w[i] && r[|r| - 1] == w[i - 1]
  {
    hide Edge;
    var r, k := w[i..] + w[1..i], |w| - i;
    forall j | 0 < j < |r| ensures Edge(jobs, r[j - 1], r[j]) {
      if j < k {
        assert r[j] == w[i + j] && r[j - 1] == w[i + j - 1];
      } else if j == k {
        assert r[j - 1] == w[|w| - 1] == w[0] && r[j] == w[1];
        assert Edge(jobs, w[0], w[1]);
      } else {
        assert r[j] == w[j - k + 1] && r[j - 1] == w[j - k];
      }
    }
  }

  /** An edge from origin to target closes no cycle if nothing leads from target back to origin. */
  lemma HarmlessEdge(before: Jobs, after: Jobs, origin: JobId, target: JobId)
    requires Acyclic(before) && AtMostOneNewEdge(before, after, origin, target)
    requires target != origin && !Reaches(before, target, origin)
    ensures Acyclic(after)
  {
    forall w | Walk(after, w) && |w| > 1 ensures w[0] != w[|w| - 1] {
      if i :| 0 < i < |w| && w[i - 1] == origin && w[i] == target {
        if w[0] == w[|w| - 1] {
          TurnedWalk(after, w, i);
          TargetWalksAreOld(before, after, origin, target, w[i..] + w[1..i]);
        }
      } else {
        forall i | 0 < i < |w| ensures Edge(before, w[i - 1], w[i]) {
          assert Edge(after, w[i - 1], w[i]);
        }
        assert Walk(before, w);
      }
    }
  }

  ghost predicate Reaches(jobs: Jobs, a: JobId, b: JobId) {
    exists w :: WalkFrom(jobs, a, w) && |w| > 1 && w[|w| - 1] == b
  }

  /** An edge accepted by the check closes no cycle anywhere. */
  lemma NewEdgeKeepsAcyclic(before: Jobs, after: Jobs, failing: set<JobId>, origin: JobId, target: JobId)
    requires Acyclic(before) && AtMostOneNewEdge(before, after, origin, target)
    requires target != origin && CheckJob(before, failing, origin, target, 0)
    ensures Acyclic(after)
  {
    forall v | WalkFrom(before, target, v) && |v| > 1 ensures v[|v| - 1] != origin {
      AcceptedWalk(before, failing, origin, target, 0, v);
    }
    HarmlessEdge(before, after, origin, target);
  }

  /** When a validated step is written some time later, what counts is the graph at the moment of
      the write: it stays acyclic exactly if the target is another job and does not lead back. */
  lemma LateWriteIff(before: Jobs, jobId: JobId, step: JobStep)
    requires Acyclic(before) && jobId in before && step.Refers()
    ensures Acyclic(before[jobId := before[jobId] + [step]]) <==> step.target != jobId && !Reaches(before, step.target, jobId)
  {
    var after := before[jobId := before[jobId] + [step]];
    assert after[jobId][|before[jobId]|] == step;
    assert Edge(after, jobId, step.target);
    forall a, b | Edge(before, a, b) ensures Edge(after, a, b) {
      if a == jobId {
        var k :| 0 <= k < |before[a]| && before[a][k].Refers() && before[a][k].target == b;
        assert after[a][k] == before[a][k];
      }
    }
    if step.target == jobId {
      assert Walk(after, [jobId, jobId]);
    } else if v :| WalkFrom(before, step.target, v) && |v| > 1 && v[|v| - 1] == jobId {
      forall i | 0 < i < |v| ensures Edge(after, v[i - 1], v[i]) {}
      PrependWalk(after, jobId, v);
      var closed := [jobId] + v;
      assert closed[0] == closed[|closed| - 1];
    } else {
      HarmlessEdge(before, after, jobId, step.target);
    }
  }

  /** The job without one of its steps. */
  function Dropped(jobs: Jobs, jobId: JobId, index: nat): Jobs
    requires jobId in jobs && index < |jobs[jobId]|
  {
    jobs[jobId := jobs[jobId][..index] + jobs[jobId][index + 1..]]
  }

  /** A delayed replacement of a step takes the replaced step's reference away as well: what counts
      is the graph at the moment of the write without it. */
  lemma LateReplaceIff(before: Jobs, jobId: JobId, index: nat, step: JobStep)
    requires Acyclic(before) && jobId in before && index < |before[jobId]| && step.Refers()
    ensures Acyclic(before[jobId := before[jobId][index := step]]) <==>
      step.target != jobId && !Reaches(Dropped(before, jobId, index), step.target, jobId)
  {
    var rest := Dropped(before, jobId, index);
    var appended, replaced := rest[jobId := rest[jobId] + [step]], before[jobId := before[jobId][index := step]];
    StepsOf(before[jobId], index, step);
    forall a, b | Edge(rest, a, b) ensures Edge(before, a, b) {
      var s :| s in rest[a] && s.Refers() && s.target == b;
      assert s in before[a];
    }
    FewerEdgesKeepAcyclic(before, rest);
    LateWriteIff(rest, jobId, step);
    forall a, b ensures Edge(appended, a, b) <==> Edge(replaced, a, b) {
      assert a in appended <==> a in replaced;
      assert a in appended ==> forall s :: s in appended[a] <==> s in replaced[a];
    }
    if Acyclic(appended) { FewerEdgesKeepAcyclic(appended, replaced); }
    if Acyclic(replaced) { FewerEdgesKeepAcyclic(replaced, appended); }
  }

  lemma StepsOf(steps: seq<JobStep>, index: nat, step: JobStep)
    requires index < |steps|
    ensures forall s :: s in steps[..index] + steps[index + 1..] ==> s in steps
    ensures var replaced, appended := steps[index := step], steps[..index] + steps[index + 1..] + [step];
      forall s :: s in replaced <==> s in appended
  {
    assert steps[index := step] == steps[..index] + [step] + steps[index + 1..];
  }

  /** So two requests that are both validated before either writes can close a cycle. */
  lemma RacingRequests(a: JobId, b: JobId)
    requires a != b && a != "" && b != ""
    ensures var jobs: Jobs := map[a := [], b := []];
      var toB, toA := JobStep("1", "run_job", b), JobStep("2", "run_job", a);
      && Acyclic(jobs) && Referable(jobs, {}, a, toB) && Referable(jobs, {}, b, toA)
      && !Acyclic(jobs[a := [toB]][b := [toA]])
  {
    var jobs: Jobs := map[a := [], b := []];
    var after := jobs[a := [JobStep("1", "run_job", b)]][b := [JobStep("2", "run_job", a)]];
    FewerEdgesKeepAcyclic(map[], jobs);
    assert Edge(after, a, b) by { assert after[a][0].Refers(); }
    assert Edge(after, b, a) by { assert after[b][0].Refers(); }
    assert Walk(after, [a, b, a]);
  }

  lemma FewerEdgesKeepAcyclic(before: Jobs, after: Jobs)
    requires Acyclic(before) && forall a, b {:trigger Edge(after, a, b)} :: Edge(after, a, b) ==> Edge(before, a, b)
    ensures Acyclic(after)
  {
    forall w | Walk(after, w) && |w| > 1 ensures w[0] != w[|w| - 1] {
      assert Walk(before, w);
    }
  }

  /** A job nobody refers to may refer to anything. */
  lemma UnreferencedKeepsAcyclic(before: Jobs, after: Jobs, job: JobId)
    requires Acyclic(before)
    requires forall a, b {:trigger Edge(after, a, b)} :: Edge(after, a, b) ==> b != job && (a == job || Edge(before, a, b))
    ensures Acyclic(after)
  {
    forall w | Walk(after, w) && |w| > 1 ensures w[0] != w[|w| - 1] {
      assert Edge(after, w[|w| - 2], w[|w| - 1]);
      if w[0] != job {
        forall i | 0 < i < |w| ensures Edge(before, w[i - 1], w[i]) {
          assert Edge(after, w[i - 1], w[i]);
          if i > 1 { assert Edge(after, w[i - 2], w[i - 1]); }
        }
        assert Walk(before, w);
      }
    }
  }

  // ---------------------------------------------------------------------------
  // The store behind the handlers

  /** Every request that succeeds leaves the graph of jobs acyclic. failing is the set of jobs whose
      read fails during the request; allowed says whether the caller may access the target job and
      whether the remaining fields are valid; writeOk whether the store's write succeeds. No other
      request writes between the validation and the write of this one: see LateWriteIff. */
  class JobStore {
    var jobs: Jobs

    constructor ()
      ensures jobs == map[] && Acyclic(jobs)
    {
      jobs := map[];
    }

    method ValidateRunJobStep(jobId: JobId, target: JobId, failing: set<JobId>, allowed: bool) returns (ok: bool)
      ensures ok <==> target != "" && target != jobId && target in jobs && allowed && CheckJob(jobs, failing, jobId, target, 0)
    {
      ok := false;
      if target == "" || target == jobId || target in failing || target !in jobs || !allowed {
        return;
      }
      ok := CheckJob(jobs, failing, jobId, target, 0);
    }

    method AddStep(jobId: JobId, step: JobStep, failing: set<JobId>, allowed: bool, writeOk: bool) returns (ok: bool)
      requires Acyclic(jobs)
      modifies this`jobs
      ensures Acyclic(jobs)
      ensures ok <==> jobId in old(jobs) && allowed && writeOk && Referable(old(jobs), failing, jobId, step)
      ensures ok ==> jobs == old(jobs)[jobId := old(jobs)[jobId] + [step]]
      ensures !ok ==> jobs == old(jobs)
    {
      ok := false;
      if jobId !in jobs || !allowed {
        return;
      }
      if step.taskType == "run_job" {
        var valid := ValidateRunJobStep(jobId, step.target, failing, allowed);
        if !valid {
          return;
        }
      }
      if !writeOk {
        return;
      }
      ghost var before := jobs;
      jobs := jobs[jobId := jobs[jobId] + [step]];
      ok := true;
      StepChangeKeepsAcyclic(before, jobs, failing, jobId, step);
    }

    method UpdateStep(jobId: JobId, index: nat, step: JobStep, failing: set<JobId>, allowed: bool, writeOk: bool) returns (ok: bool)
      requires Acyclic(jobs)
      modifies this`jobs
      ensures Acyclic(jobs)
      ensures ok <==> jobId in old(jobs) && allowed && writeOk && index < |old(jobs)[jobId]| && Referable(old(jobs), failing, jobId, step)
      ensures ok ==> jobs == old(jobs)[jobId := old(jobs)[jobId][index := step]]
      ensures !ok ==> jobs == old(jobs)
    {
      ok := false;
      if jobId !in jobs || !allowed || index >= |jobs[jobId]| {
        return;
      }
      if step.taskType == "run_job" {
        var valid := ValidateRunJobStep(jobId, step.target, failing, allowed);
        if !valid {
          return;
        }
      }
      if !writeOk {
        return;
      }
      ghost var before := jobs;
      jobs := jobs[jobId := jobs[jobId][index := step]];
      ok := true;
      StepChangeKeepsAcyclic(before, jobs, failing, jobId, step);
    }

    method DeleteStep(jobId: JobId, index: nat, writeOk: bool) returns (ok: bool)
      requires Acyclic(jobs)
      modifies this`jobs
      ensures Acyclic(jobs)
      ensures ok <==> writeOk && jobId in old(jobs) && index < |old(jobs)[jobId]|
      ensures jobs == if ok then old(jobs)[jobId := old(jobs)[jobId][..index] + old(jobs)[jobId][index + 1..]] else old(jobs)
    {
      ok := writeOk && jobId in jobs && index < |jobs[jobId]|;
      if ok {
        ghost var before := jobs;
        jobs := jobs[jobId := jobs[jobId][..index] + jobs[jobId][index + 1..]];
        FewerEdgesKeepAcyclic(before, jobs);
      }
    }

    method DeleteJob(jobId: JobId, writeOk: bool)
      requires Acyclic(jobs)
      modifies this`jobs
      ensures Acyclic(jobs) && jobs == if writeOk then old(jobs) - {jobId} else old(jobs)
    {
      if !writeOk {
        return;
      }
      ghost var before := jobs;
      jobs := jobs - {jobId};
      FewerEdgesKeepAcyclic(before, jobs);
    }

    method CreateJob(newId: JobId, writeOk: bool)
      requires Acyclic(jobs) && newId !in jobs
      modifies this`jobs
      ensures Acyclic(jobs) && jobs == if writeOk then old(jobs)[newId := []] else old(jobs)
    {
      if !writeOk {
        return;
      }
      ghost var before := jobs;
      jobs := jobs[newId := []];
      FewerEdgesKeepAcyclic(before, jobs);
    }

    /** A clone copies all references without checking them again. Its id occurs nowhere yet. */
    method CloneJob(jobId: JobId, newId: JobId, writeOk: bool) returns (ok: bool)
      requires Acyclic(jobs) && newId !in jobs && Unmentioned(jobs, newId)
      modifies this`jobs
      ensures Acyclic(jobs)
      ensures ok <==> writeOk && jobId in old(jobs)
      ensures jobs == if ok then old(jobs)[newId := old(jobs)[jobId]] else old(jobs)
    {
      ok := writeOk && jobId in jobs;
      if ok {
        ghost var before := jobs;
        jobs := jobs[newId := jobs[jobId]];
        forall a, b | Edge(jobs, a, b) ensures b != newId && (a == newId || Edge(before, a, b)) {
          assert Edge(before, if a == newId then jobId else a, b);
        }
        UnreferencedKeepsAcyclic(before, jobs, newId);
      }
    }
  }

  /** A step that is no run_job step, or one whose target exists and passes the check. */
  ghost predicate Referable(jobs: Jobs, failing: set<JobId>, jobId: JobId, step: JobStep) {
    step.taskType == "run_job" ==>
      step.target != "" && step.target != jobId && step.target in jobs && CheckJob(jobs, failing, jobId, step.target, 0)
  }

  ghost predicate Unmentioned(jobs: Jobs, job: JobId) {
    forall a :: !Edge(jobs, a, job)
  }

  /** Writing one validated step into a job, added or in place of another. */
  lemma StepChangeKeepsAcyclic(before: Jobs, after: Jobs, failing: set<JobId>, jobId: JobId, step: JobStep)
    requires Acyclic(before) && jobId in before && after.Keys == before.Keys
    requires forall a :: a in before && a != jobId ==> after[a] == before[a]
    requires forall s :: s in after[jobId] ==> s in before[jobId] || s == step
    requires step.taskType == "run_job" ==> step.target != jobId && CheckJob(before, failing, jobId, step.target, 0)
    ensures Acyclic(after)
  {
    if step.Refers() {
      NewEdgeKeepsAcyclic(before, after, failing, jobId, step.target);
    } else {
      FewerEdgesKeepAcyclic(before, after);
    }
  }
}
