/** Safety and liveness of whole runs: every order of callbacks, timers and cancellation. */
module RunTheorems {
  import opened JobModel
  import opened RunMachine
  import opened RunInvariant

  /** events drives a freshly built runner through states. */
  ghost predicate Execution(job: Job, o: Origin, states: seq<RunState>, events: seq<Event>)
    requires job.Valid()
  {
    && |states| == |events| + 1
    && states[0] == Initial(job, o)
    && forall i :: 0 <= i < |events| ==> Shaped(job, states[i]) && Next(job, states[i], events[i], states[i + 1])
  }

  lemma {:induction false} ExecutionInv(job: Job, o: Origin, states: seq<RunState>, events: seq<Event>, i: nat)
    requires job.Valid() && ValidOrigin(job, o) && Execution(job, o, states, events)
    requires i < |states|
    ensures Inv(job, o, states[i])
  {
    if i == 0 {
      InitialInv(job, o);
    } else {
      ExecutionInv(job, o, states, events, i - 1);
      NextKeepsInv(job, o, states[i - 1], events[i - 1], states[i]);
    }
  }

  lemma InvIsShaped(job: Job, o: Origin, s: RunState)
    requires job.Valid() && ValidOrigin(job, o) && Inv(job, o, s)
    ensures Shaped(job, s)
  {
  }

  // ---------------------------------------------------------------------------
  // Safety

  /** A launch leaves the step outstanding in a live run. */
  lemma LaunchLeavesOutstanding(job: Job, s: RunState, e: Event, t: RunState, x: StepId)
    requires job.Valid() && Shaped(job, s) && Shaped(job, t) && Next(job, s, e, t)
    requires !s.started ==> !s.stopped
    requires x in job.config && t.launches[x] > s.launches[x]
    ensures x in t.outstanding && !t.stopped
  {
    match e {
      case Start => assert Moved(job, s.(started := true), t, x);
      case ContextCancelled =>
      case RetryTimer(y) =>
      case Callback(y, exitCode) =>
        if !s.stopped && !(exitCode != 0 && (RetryGranted(job, s, y) || job.config[y].FailsRun())) {
          assert Moved(job, Finished(s, y, exitCode), t.(reports := s.reports), x);
        }
    }
  }

  /** A step is handed to the executor only after all its dependencies settled, and unless its
      run_if is all_done, only after all of them completed. */
  lemma LaunchSafety(job: Job, o: Origin, states: seq<RunState>, events: seq<Event>, i: nat, x: StepId, d: Dependency)
    requires job.Valid() && ValidOrigin(job, o) && Execution(job, o, states, events)
    requires i < |events| && x in job.config && x in states[i + 1].launches && x in states[i].launches
    requires states[i + 1].launches[x] > states[i].launches[x]
    requires d in job.edges && d.stepId == x
    ensures d.dependsOn in states[i + 1].settled && d.dependsOn in states[i + 1].status
    ensures job.config[x].runIf != "all_done" ==> states[i + 1].status[d.dependsOn] == Completed
  {
    var s, t := states[i], states[i + 1];
    ExecutionInv(job, o, states, events, i);
    ExecutionInv(job, o, states, events, i + 1);
    LaunchLeavesOutstanding(job, s, events[i], t, x);
    assert StepInv(job, o, t, x);
  }

  /** No two steps that share a session key run at the same time. */
  lemma SessionExclusion(job: Job, o: Origin, states: seq<RunState>, events: seq<Event>, i: nat, x: StepId, y: StepId)
    requires job.Valid() && ValidOrigin(job, o) && Execution(job, o, states, events)
    requires i < |states| && !states[i].stopped
    requires x in states[i].outstanding && y in states[i].outstanding && x != y
    requires job.config.Keys >= states[i].outstanding
    ensures job.config[x].sessionKey == "" || job.config[x].sessionKey != job.config[y].sessionKey
  {
    ExecutionInv(job, o, states, events, i);
    assert !Conflict(job, x, y);
  }

  ghost predicate TruthfulReport(s: RunState) {
    && (forall x :: x in s.status ==> s.status[x] != Pending && s.status[x] != Running)
    && (s.reports == [Failed] || s.reports == [Completed])
    && (s.reports == [Failed] <==> exists x :: x in s.status && s.status[x] == Failed)
  }

  lemma ReportIsTruthful(job: Job, s: RunState)
    requires ReportInv(job, s) && s.reports != []
    ensures TruthfulReport(s)
  {
    assert s.reports == [s.reports[0]];
  }

  /** The completion callback fires at most once; when it has fired nothing is pending or
      running, and it said Failed exactly if some step is Failed. */
  lemma ReportsOnceAndTruthfully(job: Job, o: Origin, states: seq<RunState>, events: seq<Event>, i: nat)
    requires job.Valid() && ValidOrigin(job, o) && Execution(job, o, states, events)
    requires i < |states|
    ensures |states[i].reports| <= 1
    ensures states[i].reports != [] ==> TruthfulReport(states[i])
  {
    ExecutionInv(job, o, states, events, i);
    if states[i].reports != [] { ReportIsTruthful(job, states[i]); }
  }

  /** Nothing a cancelled run still hears changes a step, launches one or reports again. */
  lemma {:induction false} StoppedRunsAreFrozen(job: Job, o: Origin, states: seq<RunState>, events: seq<Event>, i: nat, j: nat)
    requires job.Valid() && ValidOrigin(job, o) && Execution(job, o, states, events)
    requires i <= j < |states| && states[i].stopped
    ensures states[j].stopped
    ensures states[j].status == states[i].status && states[j].attempt == states[i].attempt
    ensures states[j].launches == states[i].launches && states[j].reports == states[i].reports
    ensures states[j].settled == states[i].settled
  {
    hide Inv, Next, Shaped, Initial;
    if i < j {
      StoppedRunsAreFrozen(job, o, states, events, i, j - 1);
      ExecutionInv(job, o, states, events, j - 1);
      StoppedStays(job, o, states[j - 1], events[j - 1], states[j]);
    }
  }

  lemma StoppedStays(job: Job, o: Origin, s: RunState, e: Event, t: RunState)
    requires job.Valid() && ValidOrigin(job, o) && Inv(job, o, s) && s.stopped && Next(job, s, e, t)
    ensures t.stopped && t.status == s.status && t.attempt == s.attempt
    ensures t.launches == s.launches && t.reports == s.reports && t.settled == s.settled
  {
    hide Advance, AbortRun, Settle, LiveInv, ReportInv, Bounded;
  }

  /** A step found Completed when the runner was built is never launched again, and no step is
      launched more often than its retries allow. */
  lemma LaunchesBounded(job: Job, o: Origin, states: seq<RunState>, events: seq<Event>, i: nat, x: StepId)
    requires job.Valid() && ValidOrigin(job, o) && Execution(job, o, states, events)
    requires i < |states| && x in job.config && x in states[i].launches
    ensures states[i].launches[x] <= if job.config[x].maxRetries > 0 then 1 + job.config[x].maxRetries else 1
    ensures o.status[x] != Pending ==> states[i].launches[x] == 0
  {
    ExecutionInv(job, o, states, events, i);
    assert Bounded(job, o, states[i], x);
  }

  /** Starting a run launches something exactly if some pending step has only completed
      dependencies when the runner is built. Whatever happened before, the run is live then. */
  lemma StartLaunchesIff(job: Job, o: Origin, s: RunState, t: RunState)
    requires job.Valid() && ValidOrigin(job, o) && Inv(job, o, s) && !s.started && Next(job, s, Start, t)
    ensures !t.stopped
    ensures t.outstanding != {} <==> exists x :: x in job.config && o.status[x] == Pending && DepsSettled(job, InitiallyDone(o), x)
  {
    var m := s.(started := true);
    if y :| y in t.outstanding {
      assert Moved(job, m, t, y) && StepInv(job, o, s, y);
      assert o.status[y] == Pending && DepsSettled(job, InitiallyDone(o), y);
    }
    if x :| x in job.config && o.status[x] == Pending && DepsSettled(job, InitiallyDone(o), x) {
      assert Moved(job, m, t, x) && StepInv(job, o, s, x);
      if x !in t.outstanding {
        assert Ready(job, t.status, t.settled, x);
        var y :| y in t.outstanding && Conflict(job, x, y);
      }
    }
  }

  // ---------------------------------------------------------------------------
  // Deadlock freedom

  /** x can never settle: it was neither pending nor completed when the runner was built, or it is
      pending and waits for a step the run does not have. */
  ghost predicate Stuck(job: Job, o: Origin, x: StepId) {
    Inert(o, x) || (x in o.status && o.status[x] == Pending && exists d :: d in job.edges && d.stepId == x && d.dependsOn !in job.config)
  }

  /** The steps still to run when the runner is built, and the edges among them. */
  ghost function Waiting(o: Origin): set<StepId> {
    set x | x in o.status && o.status[x] == Pending
  }

  ghost function WaitingEdges(job: Job, o: Origin): set<Dependency> {
    set d | d in job.edges && d.stepId in Waiting(o) && d.dependsOn in Waiting(o)
  }

  /** No step is stuck and the steps still to run can be put in an order. Edges into completed
      steps do not matter. */
  ghost predicate CanFinish(job: Job, o: Origin) {
    && (forall x :: x in job.config ==> !Stuck(job, o, x))
    && Acyclic(Waiting(o), WaitingEdges(job, o))
  }

  /** The first unsettled step in dependency order is running, waiting for its retry timer,
      or ready and kept waiting by one that is. */
  lemma NoDeadlock(job: Job, o: Origin, s: RunState)
    requires job.Valid() && ValidOrigin(job, o) && Inv(job, o, s) && s.started && !s.stopped
    requires CanFinish(job, o) && s.settled != job.config.Keys
    ensures s.outstanding + s.retrying != {}
  {
    var order :| TopologicalOrder(order, Waiting(o), WaitingEdges(job, o));
    var x := FirstUnsettled(job, o, s, order);
    assert StepInv(job, o, s, x);
    if x !in s.outstanding && x !in s.retrying {
      assert Ready(job, s.status, s.settled, x);
      var y :| y in s.outstanding + s.retrying && Conflict(job, x, y);
    }
  }

  lemma FirstUnsettled(job: Job, o: Origin, s: RunState, order: seq<StepId>) returns (x: StepId)
    requires job.Valid() && ValidOrigin(job, o) && Shaped(job, s) && InitiallyDone(o) <= s.settled && s.settled != job.config.Keys
    requires TopologicalOrder(order, Waiting(o), WaitingEdges(job, o)) && forall y :: y in job.config ==> !Stuck(job, o, y)
    ensures x in job.config && x !in s.settled && DepsSettled(job, s.settled, x)
  {
    var w :| w in job.config && w !in s.settled;
    assert !Stuck(job, o, w) && w !in InitiallyDone(o);
    assert w in Waiting(o);
    assert w in (set z | z in order);
    var k :| 0 <= k < |order| && order[k] == w;
    var i := 0;
    while order[i] in s.settled
      invariant 0 <= i <= k
      invariant forall j :: 0 <= j < i ==> order[j] in s.settled
      decreases k - i
    {
      i := i + 1;
    }
    x := order[i];
    assert x in (set z | z in order);
    assert x in Waiting(o) && !Stuck(job, o, x);
    forall d | d in job.edges && d.stepId == x ensures d.dependsOn in s.settled {
      assert d.dependsOn in job.config && !Stuck(job, o, d.dependsOn);
      if d.dependsOn in Waiting(o) {
        assert d in WaitingEdges(job, o);
        assert d.dependsOn in order[..i];
      }
    }
  }

  /** If every step has settled, the order in which they did shows that there is one. */
  lemma SettledMeansAcyclic(job: Job, o: Origin, s: RunState)
    requires job.Valid() && ValidOrigin(job, o) && Inv(job, o, s) && !s.stopped && s.settled == job.config.Keys
    requires forall x :: x in job.config ==> !Stuck(job, o, x)
    ensures Acyclic(Waiting(o), WaitingEdges(job, o))
  {
    var order :| Builds(job, InitiallyDone(o), s.settled, order);
    hide Inv;
    forall x ensures x in order <==> x in Waiting(o) {
      if x in job.config { assert !Stuck(job, o, x); }
    }
    assert TopologicalOrder(order, Waiting(o), WaitingEdges(job, o));
  }

  /** A run that has gone quiet without being stopped has reported exactly if, when it was built, no
      step was stuck, the pending steps had no cycle, and there was one. All of it can be seen
      before the run starts: a RetryStep that leaves a failed step aside, a job without steps, a
      repair with nothing to reset and a cycle in the stored edges all hang. */
  lemma QuietRunHasReported(job: Job, o: Origin, states: seq<RunState>, events: seq<Event>)
    requires job.Valid() && ValidOrigin(job, o) && Execution(job, o, states, events)
    requires var s := states[|events|]; s.started && !s.stopped && s.outstanding == {} && s.retrying == {}
    ensures |states[|events|].reports| == 1 <==> CanFinish(job, o) && Waiting(o) != {}
  {
    ExecutionInv(job, o, states, events, |events|);
    QuietStateHasReported(job, o, states[|events|]);
  }

  lemma StuckNeverSettles(job: Job, o: Origin, s: RunState, x: StepId)
    requires job.Valid() && ValidOrigin(job, o) && Inv(job, o, s) && !s.stopped && x in job.config && Stuck(job, o, x)
    ensures x !in s.settled
  {
    assert StepInv(job, o, s, x);
  }

  lemma QuietStateHasReported(job: Job, o: Origin, s: RunState)
    requires job.Valid() && ValidOrigin(job, o) && Inv(job, o, s)
    requires s.started && !s.stopped && s.outstanding == {} && s.retrying == {}
    ensures |s.reports| == 1 <==> CanFinish(job, o) && Waiting(o) != {}
  {
    if x :| x in job.config && Stuck(job, o, x) {
      StuckNeverSettles(job, o, s, x);
    } else {
      if s.settled != job.config.Keys {
        if CanFinish(job, o) { NoDeadlock(job, o, s); }
      } else {
        SettledMeansAcyclic(job, o, s);
      }
      ReportsWhenSettled(job, o, s);
    }
  }

  lemma ReportsWhenSettled(job: Job, o: Origin, s: RunState)
    requires job.Valid() && ValidOrigin(job, o) && Inv(job, o, s) && !s.stopped
    requires forall x :: x in job.config ==> !Stuck(job, o, x)
    ensures |s.reports| == 1 <==> s.settled == job.config.Keys && Waiting(o) != {}
  {
    if x :| x in Waiting(o) {
      assert x !in InitiallyDone(o);
    } else {
      forall x | x in job.config ensures x in InitiallyDone(o) { assert !Stuck(job, o, x) && x !in Waiting(o); }
    }
  }
}
