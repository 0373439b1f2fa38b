/** The scheduler of one run. Each method is one critical section of the runner's mutex. */
module Scheduler {
  import opened JobModel
  import opened RunMachine
  import opened RunInvariant
  import opened Bookkeeping
  import opened EdgeIndex
  import opened WorkQueue
  import opened Sections
  import opened RunSnapshot
  import RunTheorems

  /** What the counters stand for: the part of the run that the code does not store. */
  datatype Track = Track(settled: set<StepId>, outstanding: set<StepId>, retrying: set<StepId>, launches: map<StepId, nat>, reports: seq<Status>)

  method IndexSteps(steps: seq<RunStep>)
    returns (config: map<StepId, StepConfig>, status: map<StepId, Status>, attempt: map<StepId, int>, inDegree: map<StepId, int>)
    ensures config == ConfigOf(steps) && status == StatusOf(steps) && attempt == AttemptOf(steps)
    ensures inDegree.Keys == config.Keys && forall x :: x in inDegree ==> inDegree[x] == 0
  {
    config, status, attempt, inDegree := map[], map[], map[], map[];
    var i := 0;
    while i < |steps|
      invariant 0 <= i <= |steps|
      invariant config == ConfigOf(steps[..i]) && status == StatusOf(steps[..i]) && attempt == AttemptOf(steps[..i])
      invariant inDegree.Keys == config.Keys && forall x :: x in inDegree ==> inDegree[x] == 0
    {
      var r := steps[i];
      assert steps[..i + 1][..i] == steps[..i];
      config, status, attempt := config[r.stepId := r.config], status[r.stepId := r.status], attempt[r.stepId := r.attempt];
      inDegree := inDegree[r.stepId := 0];
      i := i + 1;
    }
    assert steps[..i] == steps;
  }

  class DAGRunner {
    // Fixed when the runner is built.
    ghost const job: Job
    ghost const origin: Origin
    ghost const deps: seq<Dependency>
    const config: map<StepId, StepConfig>
    const dependents: map<StepId, seq<StepId>>
    const total: nat

    // The mutable part of the run steps.
    var status: map<StepId, Status>
    var attempt: map<StepId, int>

    // Scheduling state.
    var inDegree: map<StepId, int>
    var completed: int
    var failed: bool
    var activeSessionKeys: set<string>
    var deferredSteps: seq<StepId>
    var hasFailedUpstream: set<StepId>
    var started: bool
    var cancelled: bool
    var doneClosed: bool

    // What the counters stand for.
    ghost var track: Track

    /** The run this object is executing. */
    ghost function Abs(): RunState
      reads this
    {
      RunState(status, attempt, track.settled, track.outstanding, track.retrying, track.launches, started, cancelled, track.reports)
    }

    ghost function Ledger(): Books
      reads this
    {
      Books(inDegree, hasFailedUpstream, deferredSteps, activeSessionKeys, completed, failed)
    }

    function Dependents(x: StepId): seq<StepId> {
      if x in dependents then dependents[x] else []
    }

    ghost predicate Structured() {
      && job.Valid() && EdgesOf(job, deps) && ValidOrigin(job, origin)
      && config == job.config && total == |config|
      && forall x {:trigger Dependents(x)} :: x in config ==> Dependents(x) == DependentsOf(deps, x)
    }

    ghost predicate Valid()
      reads this
    {
      && Structured()
      && Inv(job, origin, Abs())
      && (!cancelled ==> RestBooks(job, deps, Abs(), Ledger()))
      && (!started ==> inDegree.Keys == config.Keys + Targets(deps))
    }

    /** A runner with all edges open and nothing counted yet. */
    ghost predicate Built(steps: seq<RunStep>)
      reads this
    {
      && ValidSteps(steps) && job == JobOf(steps, deps) && origin == OriginOf(steps) && Structured()
      && Abs() == Initial(job, origin).(settled := {})
      && inDegree.Keys == config.Keys + Targets(deps) && Counted(deps, inDegree, {}, [])
      && Ledger() == Books(inDegree, {}, [], {}, 0, false)
    }

    /** The fields as read from the snapshot, with nothing scheduled yet, make up a built runner. */
    lemma AssembledIsBuilt(steps: seq<RunStep>)
      requires ValidSteps(steps) && job == JobOf(steps, deps) && origin == OriginOf(steps)
      requires config == ConfigOf(steps) && status == StatusOf(steps) && attempt == AttemptOf(steps)
      requires Groups(deps, dependents) && total == |config|
      requires inDegree.Keys == config.Keys + Targets(deps) && Counted(deps, inDegree, {}, [])
      requires completed == 0 && !failed && activeSessionKeys == {} && deferredSteps == [] && hasFailedUpstream == {}
      requires !started && !cancelled && track == Track({}, {}, {}, map x | x in status :: 0, [])
      ensures Built(steps)
    {
      SnapshotValid(steps, deps);
      hide Counted, DependentsOf, EdgesOf, ValidOrigin, ValidSteps, Targets;
    }

    /** Builds the adjacency list and the in-degrees. */
    constructor (steps: seq<RunStep>, deps: seq<Dependency>)
      requires ValidSteps(steps)
      ensures this.deps == deps && Built(steps)
    {
      hide *;
      var config, status, attempt, zero := IndexSteps(steps);
      var dependents, inDegree := IndexEdges(deps, zero);
      this.deps, this.job, this.origin := deps, JobOf(steps, deps), OriginOf(steps);
      this.config, this.dependents, this.total := config, dependents, |config|;
      this.status, this.attempt, this.inDegree := status, attempt, inDegree;
      this.completed, this.failed, this.activeSessionKeys, this.deferredSteps, this.hasFailedUpstream := 0, false, {}, [], {};
      this.started, this.cancelled, this.doneClosed := false, false, false;
      this.track := Track({}, {}, {}, map x | x in status :: 0, []);
      new;
      AssembledIsBuilt(steps);
    }

    /** A run without completed steps needs no preprocessing: CreateRun starts it as built. */
    lemma FreshRunIsValid(steps: seq<RunStep>)
      requires Built(steps) && forall r :: r in steps ==> r.status != Completed
      ensures Valid() && Abs() == Initial(job, origin)
    {
      DoneIsInitiallyDone(steps);
      assert DoneAmong(steps, |steps|) == {};
      RebuiltIsValid(job, deps, origin, Abs(), Ledger());
      hide Inv, RestBooks;
    }

    /** What the counters mean between critical sections of a live run: an in-degree counts the
        edges from unsettled steps, completed counts the settled steps. */
    lemma Accounting(x: StepId)
      requires Valid() && !cancelled && x in config
      ensures x in inDegree && inDegree[x] == Open(deps, x, track.settled)
      ensures completed == |track.settled| <= total
    {
      hide Inv, PendingIsIdle, KeysHeld, FailedDep, Deferred, FailureAmong, Open, Initial;
      ShapeFacts(job, origin, Abs());
      SubsetSize(track.settled, config.Keys);
    }

    /** A session key is in use exactly if one running step, and only one, carries it. */
    lemma KeyInUseByOne(k: string)
      requires Valid() && !cancelled
      ensures k in activeSessionKeys <==> k != "" && exists y :: CarriesKey(y, k)
      ensures forall y, z :: k != "" && CarriesKey(y, k) && CarriesKey(z, k) ==> y == z
    {
      hide Inv, PendingIsIdle, FailedDep, Deferred, Counted, RestBooks;
      var s := Abs();
      ShapeFacts(job, origin, s);
      KeysOf(job, deps, s, Ledger());
      forall y | y in track.outstanding ensures status[y] == Running { OutstandingFacts(job, origin, s, y); }
      if k in activeSessionKeys { var y :| y in s.outstanding && job.Key(y) == k; assert CarriesKey(y, k); }
      if k != "" && exists y :: CarriesKey(y, k) { var y :| CarriesKey(y, k); assert y in s.outstanding && job.Key(y) == k; }
      forall y, z | k != "" && CarriesKey(y, k) && CarriesKey(z, k) ensures y == z {
        OutstandingFacts(job, origin, s, y);
        assert !Conflict(job, y, z);
      }
    }

    /** The deferred steps are exactly the pending ones whose dependencies all settled, and none of
        them has a failed dependency unless it asked to run anyway. */
    lemma DeferredCanRun(x: StepId)
      requires Valid() && started && !cancelled && x in config
      ensures x in status && x in inDegree
      ensures x in deferredSteps <==> status[x] == Pending && inDegree[x] == 0
      ensures x in deferredSteps && x in hasFailedUpstream ==> config[x].runIf == "all_done"
    {
      hide Inv, PendingIsIdle, KeysHeld, FailedDep, Counted, FailureAmong;
      ShapeFacts(job, origin, Abs());
    }

    ghost predicate CarriesKey(y: StepId, k: string)
      reads this
    {
      y in track.outstanding && y in config && y in status && status[y] == Running && config[y].sessionKey == k
    }

    /** Counts the steps found Completed and closes the edges out of them, so that a rebuilt run
        carries on where the old one ended. On a fresh run it changes nothing. */
    method PreprocessCompleted(steps: seq<RunStep>)
      requires Built(steps)
      modifies this`completed, this`inDegree, this`track
      ensures Valid() && !started && Abs() == Initial(job, origin)
    {
      hide Inv, RestBooks, EdgesOf, ValidOrigin, Counted, Targets, ConfigOf, StatusOf, AttemptOf, DoneAmong, Initial, InitiallyDone;
      NothingDone(job, deps, origin, inDegree, steps);
      CountDone(steps);
      DoneIsInitiallyDone(steps);
      RebuiltIsValid(job, deps, origin, Abs(), Ledger());
    }

    method CountDone(steps: seq<RunStep>)
      requires ValidSteps(steps) && Structured() && config == ConfigOf(steps)
      requires track.settled == DoneAmong(steps, 0) && completed == 0 && Counted(deps, inDegree, DoneAmong(steps, 0), [])
      modifies this`completed, this`inDegree, this`track
      ensures Abs() == old(Abs()).(settled := DoneAmong(steps, |steps|)) && completed == |DoneAmong(steps, |steps|)|
      ensures inDegree.Keys == old(inDegree).Keys && Counted(deps, inDegree, DoneAmong(steps, |steps|), [])
    {
      hide EdgesOf, ValidOrigin, Counted, ConfigOf, StatusOf, AttemptOf, DoneAmong;
      ghost var s := Abs();
      assert DoneAmong(steps, 0) == {} && |DoneAmong(steps, 0)| == 0 by { NothingDone(job, deps, origin, inDegree, steps); }
      for i := 0 to |steps|
        invariant Abs() == s.(settled := DoneAmong(steps, i)) && completed == |DoneAmong(steps, i)|
        invariant inDegree.Keys == old(inDegree).Keys && Counted(deps, inDegree, DoneAmong(steps, i), [])
      {
        DoneGrows(steps, i);
        if steps[i].status == Completed {
          SnapshotLookup(steps, i);
          CountCompleted(steps[i].stepId);
        }
      }
    }

    method CountCompleted(x: StepId)
      requires Structured() && x in config && x !in track.settled
      requires Counted(deps, inDegree, track.settled, [])
      modifies this`completed, this`inDegree, this`track
      ensures Abs() == old(Abs()).(settled := old(track.settled) + {x}) && completed == old(completed) + 1
      ensures inDegree.Keys == old(inDegree).Keys && Counted(deps, inDegree, track.settled, [])
    {
      hide Counted, EdgesOf, ValidOrigin;
      completed := completed + 1;
      CloseEdges(x, track.settled);
      track := track.(settled := track.settled + {x});
    }

    /** Decrements the in-degree of every dependent of x. */
    method CloseEdges(x: StepId, ghost told: set<StepId>)
      requires Structured() && x in config && x !in told
      requires Counted(deps, inDegree, told, [])
      modifies this`inDegree
      ensures inDegree.Keys == old(inDegree).Keys && Counted(deps, inDegree, told + {x}, [])
    {
      hide Counted, EdgesOf, ValidOrigin, DependentsOf;
      var waiting := Dependents(x);
      var j := 0;
      assert waiting[..0] == [];
      while j < |waiting|
        invariant 0 <= j <= |waiting| && inDegree.Keys == old(inDegree).Keys
        invariant Counted(deps, inDegree, told, waiting[..j])
      {
        DependentIsIndexed(deps, inDegree, told, waiting[..j], x, j);
        TellCounts(deps, inDegree, told, x, j);
        inDegree := inDegree[waiting[j] := inDegree[waiting[j]] - 1];
        j := j + 1;
      }
      AllTold(deps, inDegree, told, x, j);
    }

    predicate CanLaunch(x: StepId)
      requires x in config
      reads this
    {
      config[x].sessionKey == "" || config[x].sessionKey !in activeSessionKeys
    }

    method ClaimSessionKey(x: StepId)
      requires x in config
      modifies this`activeSessionKeys
      ensures activeSessionKeys == (if config[x].sessionKey != "" then old(activeSessionKeys) + {config[x].sessionKey} else old(activeSessionKeys))
    {
      if config[x].sessionKey != "" {
        activeSessionKeys := activeSessionKeys + {config[x].sessionKey};
      }
    }

    method ReleaseSessionKey(x: StepId)
      requires x in config
      modifies this`activeSessionKeys
      ensures activeSessionKeys == (if config[x].sessionKey != "" then old(activeSessionKeys) - {config[x].sessionKey} else old(activeSessionKeys))
    {
      if config[x].sessionKey != "" {
        activeSessionKeys := activeSessionKeys - {config[x].sessionKey};
      }
    }

    /** Claims the session and marks the step running; the caller hands it to the executor. */
    method Launch(x: StepId)
      requires config == job.config && x in config && x in status && x in track.launches
      modifies this`status, this`activeSessionKeys, this`track
      ensures Abs() == LaunchStep(old(Abs()), x)
      ensures Ledger() == old(Ledger()).(activeKeys := Claimed(job, old(activeSessionKeys), x))
    {
      ClaimSessionKey(x);
      status := status[x := Running];
      track := track.(outstanding := track.outstanding + {x}, launches := track.launches[x := track.launches[x] + 1]);
    }

    method Skip(x: StepId)
      requires x in status
      modifies this`status, this`completed, this`track
      ensures Abs() == SkipStep(old(Abs()), x)
      ensures Ledger() == old(Ledger()).(completed := old(completed) + 1)
    {
      status := status[x := Skipped];
      completed := completed + 1;
      track := track.(settled := track.settled + {x});
    }

    method NoteUpstream(depId: StepId, upstreamFailed: bool)
      requires depId in inDegree
      modifies this`inDegree, this`hasFailedUpstream
      ensures Abs() == old(Abs())
      ensures Ledger() == Tell(old(Ledger()), depId, upstreamFailed)
    {
      if upstreamFailed {
        hasFailedUpstream := hasFailedUpstream + {depId};
      }
      inDegree := inDegree[depId := inDegree[depId] - 1];
    }

    /** Tells depId that a step it waits for has settled, and acts if that was the last one. */
    method InformDependent(depId: StepId, upstreamFailed: bool) returns (skipped: bool, launched: bool)
      requires config == job.config && depId in inDegree && (depId in config ==> depId in status && depId in track.launches)
      modifies this`inDegree, this`hasFailedUpstream, this`status, this`completed, this`track, this`activeSessionKeys, this`deferredSteps
      ensures (Abs(), Ledger()) == Informed(job, old(Abs()), old(Ledger()), depId, upstreamFailed)
      ensures skipped <==> Turned(old(Abs()), Abs(), depId, Skipped)
      ensures launched <==> Turned(old(Abs()), Abs(), depId, Running)
    {
      skipped, launched := false, false;
      NoteUpstream(depId, upstreamFailed);
      if inDegree[depId] == 0 && depId in config && status[depId] == Pending {
        if depId in hasFailedUpstream && !config[depId].AllDone() {
          Skip(depId);
          skipped := true;
        } else if CanLaunch(depId) {
          Launch(depId);
          launched := true;
        } else {
          deferredSteps := deferredSteps + [depId];
        }
      }
    }
  
    /** Works off the queue of settled steps: each tells its dependents, and the ones that get
        skipped join the queue. */
    method ProcessReadyDependents(stepId: StepId, stepFailed: bool, ghost m: RunState, ghost told0: set<StepId>) returns (toLaunch: seq<StepId>)
      requires Structured() && Queueing(job, deps, m, Abs(), Ledger(), told0, [WorkItem(stepId, stepFailed)], [])
      modifies this`inDegree, this`hasFailedUpstream, this`status, this`completed, this`track, this`activeSessionKeys, this`deferredSteps
      ensures Queueing(job, deps, m, Abs(), Ledger(), track.settled, [], toLaunch)
    {
      hide Queueing, Visiting, Informed, EdgesOf, ValidOrigin;
      toLaunch := [];
      var queue := [WorkItem(stepId, stepFailed)];
      ghost var told := told0;
      while queue != []
        invariant Queueing(job, deps, m, Abs(), Ledger(), told, queue, toLaunch)
        decreases job.config.Keys - told
      {
        var item := queue[0];
        VisitBegins(job, deps, m, Abs(), Ledger(), told, queue, toLaunch);
        queue := queue[1..];
        var waiting := Dependents(item.stepId);
        var j := 0;
        while j < |waiting|
          invariant 0 <= j <= |waiting|
          invariant Visiting(job, deps, m, Abs(), Ledger(), told, item, j, queue, toLaunch)
        {
          var depId := waiting[j];
          ghost var s, b := Abs(), Ledger();
          VisitFacts(job, deps, m, s, b, told, item, j, queue, toLaunch);
          var skipped, launched := InformDependent(depId, item.failed);
          VisitStep(job, deps, m, s, b, told, item, j, queue, toLaunch, depId, Abs(), Ledger());
          if skipped {
            queue := queue + [WorkItem(depId, true)];
          }
          if launched {
            toLaunch := toLaunch + [depId];
          }
          j := j + 1;
        }
        VisitEnds(job, deps, m, Abs(), Ledger(), told, item, j, queue, toLaunch);
        told := told + {item.stepId};
      }
      QueueEmpty(job, deps, m, Abs(), Ledger(), told, toLaunch);
    }
  
    /** Looks at every deferred step again: launches those whose session is free, keeps the rest. */
    method ProcessDeferredSteps(toLaunch0: seq<StepId>, ghost m: RunState) returns (toLaunch: seq<StepId>)
      requires Structured() && started && Queueing(job, deps, m, Abs(), Ledger(), track.settled, [], toLaunch0)
      modifies this`status, this`activeSessionKeys, this`track, this`deferredSteps
      ensures Shaped(job, m) && Shaped(job, Abs()) && Advance(job, m, Abs())
      ensures LaunchList(toLaunch, m.outstanding, track.outstanding)
      ensures RestBooks(job, deps, Abs(), Ledger())
    {
      hide Queueing, Sweeping, LaunchStep, RestBooks, Advance, LaunchList, Shaped, EdgesOf, ValidOrigin, Claimed, Dependents;
      toLaunch := toLaunch0;
      SweepBegins(job, deps, m, Abs(), Ledger(), toLaunch);
      var pending := deferredSteps;
      var remaining: seq<StepId> := [];
      var i := 0;
      while i < |pending|
        invariant 0 <= i <= |pending| && started
        invariant Sweeping(job, deps, m, Abs(), Ledger(), remaining, pending[i..], toLaunch)
      {
        var stepId := pending[i];
        ghost var rest := pending[i..];
        assert rest[0] == stepId && rest[1..] == pending[i + 1..];
        SweepFacts(job, deps, m, Abs(), Ledger(), remaining, rest, toLaunch);
        if stepId in hasFailedUpstream && !config[stepId].AllDone() {
          // Skipping here would not tell the dependents; it never comes to that.
          assert false;
        } else if CanLaunch(stepId) {
          SweepLaunch(job, deps, m, Abs(), Ledger(), remaining, rest, toLaunch);
          Launch(stepId);
          toLaunch := toLaunch + [stepId];
        } else {
          SweepKeep(job, deps, m, Abs(), Ledger(), remaining, rest, toLaunch);
          remaining := remaining + [stepId];
        }
        i := i + 1;
      }
      assert pending[i..] == [];
      SweepEnds(job, deps, m, Abs(), Ledger(), remaining, toLaunch);
      deferredSteps := remaining;
    }
  
    /** A callback that leaves retries: the session is released and the retry timer set. */
    method ScheduleRetryOf(stepId: StepId)
      requires config == job.config && stepId in config && stepId in status && stepId in attempt && stepId in track.outstanding
      modifies this`status, this`attempt, this`activeSessionKeys, this`track
      ensures ScheduleRetry(old(Abs()), stepId, Abs())
      ensures Ledger() == old(Ledger()).(activeKeys := Released(job, old(activeSessionKeys), stepId))
    {
      ReleaseSessionKey(stepId);
      status := status[stepId := Failed];
      attempt := attempt[stepId := attempt[stepId] + 1];
      track := track.(outstanding := track.outstanding - {stepId}, retrying := track.retrying + {stepId});
    }

    /** A callback that settles the step, up to the point where its dependents are told. */
    method FinishStep(stepId: StepId, exitCode: int)
      requires config == job.config && stepId in config && stepId in status && stepId in track.outstanding
      modifies this`status, this`activeSessionKeys, this`track, this`completed, this`failed
      ensures Abs() == Finished(old(Abs()), stepId, exitCode)
      ensures Ledger() == FinishedBooks(job, old(Ledger()), stepId, exitCode)
    {
      ReleaseSessionKey(stepId);
      status := status[stepId := if exitCode != 0 then Failed else Completed];
      failed := failed || exitCode != 0;
      completed := completed + 1;
      track := track.(settled := track.settled + {stepId}, outstanding := track.outstanding - {stepId});
    }

    /** Marks pending steps skipped and running ones, other than the failed one, cancelled. */
    method SweepStatuses(stepId: StepId)
      requires stepId in status && status[stepId] == Failed
      modifies this`status
      ensures status.Keys == old(status).Keys
      ensures forall y :: y in status ==> status[y] == Swept(old(status)[y])
      ensures forall y :: y in status && old(status)[y] == Pending ==> status[y] == Skipped
      ensures forall y :: y in status && old(status)[y] == Running ==> status[y] == Status.Cancelled
      ensures forall y :: y in status && old(status)[y] != Pending && old(status)[y] != Running ==> status[y] == old(status)[y]
    {
      var todo := status.Keys;
      while todo != {}
        invariant todo <= status.Keys == old(status).Keys
        invariant forall y :: y in todo ==> status[y] == old(status)[y]
        invariant forall y :: y in status && y !in todo ==> status[y] == Swept(old(status)[y])
        decreases todo
      {
        var y :| y in todo;
        todo := todo - {y};
        if status[y] == Pending {
          status := status[y := Skipped];
        } else if status[y] == Running && y != stepId {
          status := status[y := Status.Cancelled];
        }
      }
    }

    /** An exhausted failure of a fail_run step sweeps the other steps and cancels the context. */
    method AbortBy(stepId: StepId)
      requires stepId in config && stepId in status && stepId in track.outstanding
      modifies this`status, this`activeSessionKeys, this`track, this`failed, this`cancelled, this`doneClosed
      ensures AbortRun(old(Abs()), stepId, Abs())
      ensures status.Keys == old(status).Keys && status[stepId] == Failed
      ensures forall y :: y in status && y != stepId ==>
        status[y] == if old(status)[y] == Pending then Skipped else if old(status)[y] == Running then Status.Cancelled else old(status)[y]
      ensures doneClosed && cancelled && failed
    {
      ReleaseSessionKey(stepId);
      status := status[stepId := Failed];
      failed := true;
      SweepStatuses(stepId);
      track := track.(outstanding := track.outstanding - {stepId}, reports := track.reports + [Failed]);
      cancelled := true;
      doneClosed := true;
    }

    /** Reports the run if the last step has settled. */
    method ReportIfDone(stepFailed: bool) returns (report: Option<Status>)
      modifies this`doneClosed, this`track
      ensures Ledger() == old(Ledger())
      ensures report == if completed == total then Some(Verdict(failed || stepFailed)) else None
      ensures Abs() == old(Abs()).(reports := old(track.reports) + (if report.Some? then [report.value] else []))
      ensures doneClosed == (old(doneClosed) || report.Some?)
    {
      report := None;
      if completed == total {
        report := Some(if failed || stepFailed then Failed else Completed);
        doneClosed := true;
        track := track.(reports := track.reports + [report.value]);
      }
    }

    /** A callback that settles the step: dependents are told, deferred steps looked at again, and
        the run reports if nothing is left. */
    method SettleBy(stepId: StepId, exitCode: int) returns (toLaunch: seq<StepId>, report: Option<Status>)
      requires Valid() && started && !cancelled && stepId in track.outstanding && stepId in config
      requires exitCode != 0 ==> !RetryGranted(job, Abs(), stepId) && !config[stepId].FailsRun()
      modifies this
      ensures Valid()
      ensures Next(job, old(Abs()), Callback(stepId, exitCode), Abs())
      ensures LaunchList(toLaunch, old(track.outstanding) - {stepId}, track.outstanding)
      ensures track.reports == old(track.reports) + (if report.Some? then [report.value] else [])
      ensures report.Some? ==> toLaunch == []
      ensures doneClosed == (old(doneClosed) || report.Some?)
    {
      hide Inv, RestBooks, Queueing, LaunchList, Advance, Finished, FinishedBooks, Next, Shaped, EdgesOf, ValidOrigin, RetryGranted, SomeFailed, Dependents;
      ghost var s, b := Abs(), Ledger();
      SettleBegins(job, deps, origin, s, b, stepId, exitCode);
      ghost var m := Finished(s, stepId, exitCode);
      FinishStep(stepId, exitCode);
      toLaunch := ProcessReadyDependents(stepId, exitCode != 0, m, s.settled);
      toLaunch := ProcessDeferredSteps(toLaunch, m);
      ghost var t := Abs();
      SettleCounts(job, deps, m, t, Ledger(), toLaunch);
      report := ReportIfDone(exitCode != 0);
      SettleEnds(job, deps, origin, s, stepId, exitCode, t, Ledger(), Abs());
    }
  
    /** The executor's completion callback. A callback may come once per launch; a cancelled run and
        an unknown step are ignored. The caller hands toLaunch to the executor, arms the retry timer
        if retryScheduled, and calls the run-completion callback with report. */
    method OnStepCompleted(stepId: StepId, exitCode: int) returns (toLaunch: seq<StepId>, report: Option<Status>, retryScheduled: bool)
      requires Valid() && started
      requires !cancelled && stepId in config ==> stepId in track.outstanding
      modifies this
      ensures Valid()
      ensures if old(stepId in track.outstanding) then Next(job, old(Abs()), Callback(stepId, exitCode), Abs()) else Abs() == old(Abs())
      ensures LaunchList(toLaunch, old(track.outstanding) - {stepId}, track.outstanding)
      ensures track.reports == old(track.reports) + (if report.Some? then [report.value] else [])
      ensures retryScheduled <==> track.retrying == old(track.retrying) + {stepId} && stepId !in old(track.retrying)
    {
      hide Inv, RestBooks, Next, EdgesOf, ValidOrigin;
      toLaunch, report, retryScheduled := [], None, false;
      NothingLaunched(track.outstanding - {stepId});
      ghost var s, b := Abs(), Ledger();
      ShapeFacts(job, origin, s);
      if cancelled {
        track := track.(outstanding := track.outstanding - {stepId});
        if stepId in s.outstanding {
          StoppedSection(job, origin, s, Callback(stepId, exitCode), Abs());
        } else {
          assert Abs() == s;
        }
        return;
      }
      if stepId !in config {
        return;
      }
      if exitCode != 0 && config[stepId].maxRetries > 0 && attempt[stepId] <= config[stepId].maxRetries {
        ScheduleRetryOf(stepId);
        RetrySection(job, deps, origin, s, b, stepId, exitCode, Abs());
        retryScheduled := true;
      } else if exitCode != 0 && config[stepId].FailsRun() {
        AbortBy(stepId);
        AbortSection(job, origin, s, stepId, exitCode, Abs());
        report := Some(Failed);
      } else {
        toLaunch, report := SettleBy(stepId, exitCode);
        SettleKeepsRetrying(job, s, stepId, exitCode, Abs());
      }
    }

    /** The retry goroutine wakes up: it takes its session back, or queues for it. */
    method OnRetryTimer(stepId: StepId) returns (launched: bool)
      requires Valid() && started && stepId in track.retrying
      modifies this
      ensures Valid()
      ensures Next(job, old(Abs()), RetryTimer(stepId), Abs())
      ensures launched <==> track.outstanding == old(track.outstanding) + {stepId} && stepId !in old(track.outstanding)
    {
      hide Inv, RestBooks, Next, EdgesOf, ValidOrigin, KeyFree, Claimed;
      launched := false;
      ghost var s, b := Abs(), Ledger();
      ShapeFacts(job, origin, s);
      track := track.(retrying := track.retrying - {stepId});
      if cancelled {
        StoppedSection(job, origin, s, RetryTimer(stepId), Abs());
        return;
      }
      RetryingFacts(job, deps, origin, s, b, stepId);
      KeyFreeIs(job, activeSessionKeys, stepId);
      if CanLaunch(stepId) {
        Launch(stepId);
        launched := true;
        RelaunchSection(job, deps, origin, s, b, stepId);
      } else {
        status := status[stepId := Pending];
        deferredSteps := deferredSteps + [stepId];
        RedeferSection(job, deps, origin, s, b, stepId);
      }
    }

    /** Launches the steps without open dependencies, in whatever order the map yields them. The
        map has an entry for every step an edge leads to; if one that the run does not have turns
        out to be without open dependencies, the look-up of that step yields nil, and Start panics
        with the lock held. */
    method Start() returns (toLaunch: seq<StepId>, panicked: bool)
      requires Valid() && !started
      modifies this
      ensures panicked <==> MissingRoot(deps, config.Keys, InitiallyDone(origin))
      ensures !panicked ==> Valid() && started && Next(job, old(Abs()), RunMachine.Event.Start, Abs())
      ensures !panicked ==> LaunchList(toLaunch, {}, track.outstanding)
    {
      hide Inv, RestBooks, Next, Starting, LaunchList, EdgesOf, ValidOrigin, Dependents, MissingRoot, Targets, Absent, InitiallyDone;
      ghost var s, b := Abs(), Ledger();
      ShapeFacts(job, origin, s);
      StartBegins(job, deps, origin, s, b);
      started := true;
      ghost var m := Abs();
      assert m == s.(started := true);
      StartKeys(job, deps, origin, s, b);
      toLaunch, panicked := LaunchRoots(m);
      if !panicked { StartEnds(job, deps, origin, s, m, Abs(), Ledger(), toLaunch); }
    }

    method LaunchRoots(ghost m: RunState) returns (toLaunch: seq<StepId>, panicked: bool)
      requires config == job.config && config.Keys <= inDegree.Keys
      requires Starting(job, deps, m, Abs(), Ledger(), inDegree.Keys, [])
      requires !Absent(inDegree, config.Keys, inDegree.Keys - inDegree.Keys)
      modifies this`status, this`activeSessionKeys, this`track, this`deferredSteps
      ensures panicked <==> Absent(inDegree, config.Keys, inDegree.Keys)
      ensures !panicked ==> Starting(job, deps, m, Abs(), Ledger(), {}, toLaunch)
    {
      hide Starting, Absent;
      toLaunch, panicked := [], false;
      var todo := inDegree.Keys;
      while todo != {}
        invariant todo <= inDegree.Keys
        invariant Starting(job, deps, m, Abs(), Ledger(), todo, toLaunch)
        invariant !Absent(inDegree, config.Keys, inDegree.Keys - todo)
        decreases todo
      {
        var stepId :| stepId in todo;
        AbsentGrows(inDegree, config.Keys, todo, stepId);
        if stepId in config { StartFacts(job, deps, m, Abs(), Ledger(), todo, toLaunch, stepId); }
        if inDegree[stepId] == 0 && stepId !in config {
          return toLaunch, true;
        } else if inDegree[stepId] == 0 && status[stepId] == Pending {
          toLaunch := LaunchOrDefer(stepId, m, todo, toLaunch);
        } else {
          StartPass(job, deps, m, Abs(), Ledger(), todo, toLaunch, stepId);
        }
        todo := todo - {stepId};
      }
      assert inDegree.Keys - todo == inDegree.Keys;
    }

    /** A step that is ready when the run starts. */
    method LaunchOrDefer(stepId: StepId, ghost m: RunState, ghost todo: set<StepId>, toLaunch0: seq<StepId>) returns (toLaunch: seq<StepId>)
      requires config == job.config && Starting(job, deps, m, Abs(), Ledger(), todo, toLaunch0)
      requires stepId in todo && stepId in config && stepId in inDegree && inDegree[stepId] == 0
      requires stepId in status && status[stepId] == Pending
      modifies this`status, this`activeSessionKeys, this`track, this`deferredSteps
      ensures Starting(job, deps, m, Abs(), Ledger(), todo - {stepId}, toLaunch)
    {
      hide Starting, LaunchList, KeyFree, Claimed, LaunchStep;
      toLaunch := toLaunch0;
      StartFacts(job, deps, m, Abs(), Ledger(), todo, toLaunch, stepId);
      KeyFreeIs(job, activeSessionKeys, stepId);
      if CanLaunch(stepId) {
        StartLaunch(job, deps, m, Abs(), Ledger(), todo, toLaunch, stepId);
        Launch(stepId);
        toLaunch := toLaunch + [stepId];
      } else {
        StartDefer(job, deps, m, Abs(), Ledger(), todo, toLaunch, stepId);
        deferredSteps := deferredSteps + [stepId];
      }
    }

    /** The run's context is cancelled, by Cancel or because the server shuts down. */
    method OnContextCancelled()
      requires Valid() && started && !cancelled
      modifies this`cancelled
      ensures Valid()
      ensures Next(job, old(Abs()), ContextCancelled, Abs())
    {
      ghost var s := Abs();
      cancelled := true;
      NextKeepsInv(job, origin, s, ContextCancelled, Abs());
    }

    /** Cancel closes the done channel; cancelling the context is a step of its own, and before
        Start there is no context to cancel. */
    method Cancel() returns (fireContext: bool)
      requires Valid()
      modifies this`doneClosed
      ensures Valid() && Abs() == old(Abs()) && doneClosed
      ensures fireContext <==> started
    {
      hide Inv, RestBooks, EdgesOf, ValidOrigin;
      doneClosed := true;
      fireContext := started;
    }
  }

  // ---------------------------------------------------------------------------
  // Cancel in context

  /** Between the moment a new runner can be found and its start, Cancel has no context to cancel:
      the run then starts as if nobody had cancelled it. */
  method CancelThenStart(runner: DAGRunner) returns (toLaunch: seq<StepId>, panicked: bool)
    requires runner.Valid() && !runner.started
    modifies runner
    ensures panicked <==> MissingRoot(runner.deps, runner.config.Keys, InitiallyDone(runner.origin))
    ensures !panicked ==> runner.Valid() && runner.started && !runner.cancelled
    ensures !panicked ==> (toLaunch != [] <==>
      exists x :: x in runner.config && x in runner.origin.status && runner.origin.status[x] == Pending
               && DepsSettled(runner.job, InitiallyDone(runner.origin), x))
  {
    hide Inv, RestBooks, Next, MissingRoot, DepsSettled, InitiallyDone;
    var _ := runner.Cancel();
    ghost var s := runner.Abs();
    toLaunch, panicked := runner.Start();
    if !panicked {
      RunTheorems.StartLaunchesIff(runner.job, runner.origin, s, runner.Abs());
      assert toLaunch != [] ==> toLaunch[0] in runner.track.outstanding;
    }
  }

  /** Cancelling a started run freezes it: callbacks that still come in, in any order, launch
      nothing and change no status, and no report is made. */
  method CancelStarted(runner: DAGRunner, late: seq<(StepId, int)>) returns (toLaunch: seq<StepId>)
    requires runner.Valid() && runner.started
    modifies runner
    ensures runner.Valid() && runner.cancelled && toLaunch == []
    ensures runner.status == old(runner.status) && runner.attempt == old(runner.attempt)
    ensures runner.track.launches == old(runner.track.launches) && runner.track.reports == old(runner.track.reports)
  {
    hide Inv, RestBooks;
    var fireContext := runner.Cancel();
    if fireContext && !runner.cancelled { runner.OnContextCancelled(); }
    toLaunch := [];
    for i := 0 to |late|
      invariant runner.Valid() && runner.started && runner.cancelled && toLaunch == []
      invariant runner.status == old(runner.status) && runner.attempt == old(runner.attempt)
      invariant runner.track.launches == old(runner.track.launches) && runner.track.reports == old(runner.track.reports)
    {
      ghost var s := runner.Abs();
      ShapeFacts(runner.job, runner.origin, s);
      var more, report, retryScheduled := runner.OnStepCompleted(late[i].0, late[i].1);
      assert runner.track.outstanding <= s.outstanding;
      NoneLaunched(more, s.outstanding - {late[i].0}, runner.track.outstanding);
      toLaunch := toLaunch + more;
    }
  }
}
