/** Every transition of a run keeps the run invariant. */
module RunInvariant {
  import opened JobModel
  import opened RunMachine

  /** For a live run the report and launch clauses of the invariant follow from the step clauses. */
  lemma LiveGivesInv(job: Job, o: Origin, s: RunState)
    requires job.Valid() && ValidOrigin(job, o) && Shaped(job, s) && !s.stopped && LiveInv(job, o, s)
    ensures Inv(job, o, s)
  {
    forall x | x in job.config
      ensures Bounded(job, o, s, x)
      ensures x in s.settled ==> s.status[x] != Pending && s.status[x] != Running
    {
      assert StepInv(job, o, s, x);
    }
  }

  lemma GroundedStays(job: Job, settled: set<StepId>)
    ensures Grounded(job, settled, settled)
  {
    assert Builds(job, settled, settled, []);
  }

  lemma GroundedGrows(job: Job, from: set<StepId>, to: set<StepId>, y: StepId)
    requires Grounded(job, from, to) && y !in to && DepsSettled(job, to, y)
    ensures Grounded(job, from, to + {y})
  {
    var order :| Builds(job, from, to, order);
    var longer := order + [y];
    forall i, d | 0 <= i < |longer| && d in job.edges && d.stepId == longer[i]
      ensures d.dependsOn in from || d.dependsOn in longer[..i]
    {
      if i < |order| { assert longer[..i] == order[..i] && longer[i] == order[i]; } else { assert longer[..i] == order; }
    }
    assert y !in order;
    DistinctConcat(order, [y]);
    assert Builds(job, from, to + {y}, longer);
  }

  lemma GroundedChains(job: Job, from: set<StepId>, mid: set<StepId>, to: set<StepId>)
    requires Grounded(job, from, mid) && Grounded(job, mid, to)
    ensures Grounded(job, from, to)
  {
    var first :| Builds(job, from, mid, first);
    var second :| Builds(job, mid, to, second);
    var all := first + second;
    assert forall x :: x in first ==> x in mid;
    DistinctConcat(first, second);
    forall i, d | 0 <= i < |all| && d in job.edges && d.stepId == all[i]
      ensures d.dependsOn in from || d.dependsOn in all[..i]
    {
      if i < |first| {
        assert all[..i] == first[..i] && all[i] == first[i];
      } else {
        var k := i - |first|;
        assert all[..i] == first + second[..k] && all[i] == second[k];
        assert d.dependsOn in mid || d.dependsOn in second[..k];
      }
    }
    assert Builds(job, from, to, all);
  }

  /** Building a runner establishes the invariant. */
  lemma InitialInv(job: Job, o: Origin)
    requires job.Valid() && ValidOrigin(job, o)
    ensures Inv(job, o, Initial(job, o))
  {
    var s := Initial(job, o);
    forall x | x in job.config ensures StepInv(job, o, s, x) {
    }
    GroundedStays(job, s.settled);
    LiveGivesInv(job, o, s);
  }

  /** Settled statuses do not change, so failed dependencies stay failed, and a step whose
      dependencies have all settled gains no new ones. */
  lemma RunnableStable(job: Job, s: RunState, t: RunState, x: StepId)
    requires job.Valid() && Shaped(job, s) && Shaped(job, t) && x in job.config
    requires s.settled <= t.settled
    requires forall y :: y in s.settled ==> t.status[y] == s.status[y]
    requires DepsSettled(job, s.settled, x)
    ensures DepsSettled(job, t.settled, x)
    ensures Runnable(job, s.status, s.settled, x) == Runnable(job, t.status, t.settled, x)
  {
    if FailedDep(job, s.status, s.settled, x) {
      var d :| d in job.edges && d.stepId == x && d.dependsOn in s.settled && s.status[d.dependsOn] != Completed;
      assert d.dependsOn in t.settled && t.status[d.dependsOn] != Completed;
    }
    if FailedDep(job, t.status, t.settled, x) {
      var d :| d in job.edges && d.stepId == x && d.dependsOn in t.settled && t.status[d.dependsOn] != Completed;
      assert d.dependsOn in s.settled && s.status[d.dependsOn] != Completed;
    }
  }

  // Start

  lemma StartKeepsStep(job: Job, o: Origin, s: RunState, t: RunState, x: StepId)
    requires job.Valid() && ValidOrigin(job, o) && Inv(job, o, s)
    requires Next(job, s, Start, t) && x in job.config
    ensures StepInv(job, o, t, x)
  {
    var m := s.(started := true);
    forall y | y in s.settled ensures t.status[y] == s.status[y] {
      assert Moved(job, m, t, y) && StepInv(job, o, s, y);
    }
    assert StepInv(job, o, s, x) && Moved(job, m, t, x);
    if DepsSettled(job, s.settled, x) { RunnableStable(job, s, t, x); }
  }

  lemma AdvanceGivesNoStarvation(job: Job, m: RunState, t: RunState)
    requires job.Valid() && Shaped(job, m) && Advance(job, m, t)
    ensures NoStarvation(job, t)
  {
    forall x | x in job.config && Ready(job, t.status, t.settled, x)
      ensures HeldBy(job, t.outstanding + t.retrying, x)
    {
      var y :| y in t.outstanding && Conflict(job, x, y);
      assert y in t.outstanding + t.retrying;
    }
  }

  lemma StartKeepsInv(job: Job, o: Origin, s: RunState, t: RunState)
    requires job.Valid() && ValidOrigin(job, o) && Inv(job, o, s)
    requires Next(job, s, Start, t)
    ensures Inv(job, o, t)
  {
    forall x | x in job.config ensures StepInv(job, o, t, x) {
      StartKeepsStep(job, o, s, t, x);
    }
    AdvanceGivesNoStarvation(job, s.(started := true), t);
    LiveGivesInv(job, o, t);
  }

  // Completion callbacks

  lemma SettleKeepsStep(job: Job, o: Origin, s: RunState, x: StepId, exitCode: int, t: RunState, y: StepId)
    requires job.Valid() && ValidOrigin(job, o) && Shaped(job, s) && y in job.config && StepInv(job, o, s, y)
    requires x in s.outstanding
    requires exitCode != 0 ==> !RetryGranted(job, s, x) && !job.config[x].FailsRun()
    requires Settle(job, s, x, exitCode, t)
    ensures StepInv(job, o, t, y)
  {
    var m := Finished(s, x, exitCode);
    var u := t.(reports := s.reports);
    forall z | z in s.settled ensures t.status[z] == s.status[z] {
      assert Moved(job, m, u, z);
    }
    assert Moved(job, m, u, y);
    if DepsSettled(job, s.settled, y) { RunnableStable(job, s, t, y); }
  }

  /** A run reports when, and only when, its last step settles. */
  lemma SettleReports(job: Job, o: Origin, s: RunState, x: StepId, exitCode: int, t: RunState)
    requires job.Valid() && ValidOrigin(job, o) && Shaped(job, s) && LiveInv(job, o, s)
    requires x in s.outstanding && Settle(job, s, x, exitCode, t)
    ensures s.reports == []
    ensures InitiallyDone(o) <= t.settled && t.settled != InitiallyDone(o)
  {
    assert StepInv(job, o, s, x);
    assert x !in s.settled && x in t.settled && x !in InitiallyDone(o);
  }

  lemma SettleKeepsGrounded(job: Job, o: Origin, s: RunState, x: StepId, exitCode: int, t: RunState)
    requires job.Valid() && ValidOrigin(job, o) && Shaped(job, s) && LiveInv(job, o, s)
    requires x in s.outstanding && Settle(job, s, x, exitCode, t)
    ensures Grounded(job, InitiallyDone(o), t.settled)
  {
    assert StepInv(job, o, s, x);
    hide Grounded;
    GroundedGrows(job, InitiallyDone(o), s.settled, x);
    GroundedChains(job, InitiallyDone(o), s.settled + {x}, t.settled);
  }

  lemma SettleKeepsInv(job: Job, o: Origin, s: RunState, x: StepId, exitCode: int, t: RunState)
    requires job.Valid() && ValidOrigin(job, o) && Inv(job, o, s)
    requires s.started && !s.stopped && x in s.outstanding
    requires exitCode != 0 ==> !RetryGranted(job, s, x) && !job.config[x].FailsRun()
    requires Settle(job, s, x, exitCode, t)
    ensures Inv(job, o, t)
  {
    hide StepInv, Ready, Runnable, HeldBy, Moved, Exclusive, SomeFailed, Bounded;
    SettleReports(job, o, s, x, exitCode, t);
    SettleKeepsGrounded(job, o, s, x, exitCode, t);
    hide Grounded;
    assert NoStarvation(job, t) by {
      AdvanceGivesNoStarvation(job, Finished(s, x, exitCode), t.(reports := s.reports));
    }
    assert LiveInv(job, o, t) by {
      forall y | y in job.config ensures StepInv(job, o, t, y) {
        assert StepInv(job, o, s, y);
        SettleKeepsStep(job, o, s, x, exitCode, t, y);
      }
    }
    LiveGivesInv(job, o, t);
  }

  lemma RetryKeepsStep(job: Job, o: Origin, s: RunState, x: StepId, t: RunState, y: StepId)
    requires job.Valid() && ValidOrigin(job, o) && Shaped(job, s) && y in job.config
    requires StepInv(job, o, s, y)
    requires x in s.outstanding && RetryGranted(job, s, x) && ScheduleRetry(s, x, t)
    ensures StepInv(job, o, t, y)
  {
    if DepsSettled(job, s.settled, y) { RunnableStable(job, s, t, y); }
  }

  /** The step that frees its session to retry later is the one its rivals now wait for. */
  lemma RetryKeepsNoStarvation(job: Job, s: RunState, x: StepId, t: RunState)
    requires job.Valid() && Shaped(job, s) && x in s.outstanding && ScheduleRetry(s, x, t)
    requires NoStarvation(job, s)
    ensures NoStarvation(job, t)
  {
    forall y | y in job.config && Ready(job, t.status, t.settled, y)
      ensures Runnable(job, t.status, t.settled, y) && HeldBy(job, t.outstanding + t.retrying, y)
    {
      assert Ready(job, s.status, s.settled, y);
      RunnableStable(job, s, t, y);
      assert t.outstanding + t.retrying == s.outstanding + s.retrying;
    }
  }

  lemma RetryKeepsInv(job: Job, o: Origin, s: RunState, x: StepId, t: RunState)
    requires job.Valid() && ValidOrigin(job, o) && Inv(job, o, s)
    requires s.started && !s.stopped && x in s.outstanding && RetryGranted(job, s, x)
    requires ScheduleRetry(s, x, t)
    ensures Inv(job, o, t)
  {
    forall y | y in job.config ensures StepInv(job, o, t, y) {
      assert StepInv(job, o, s, y);
      RetryKeepsStep(job, o, s, x, t, y);
    }
    assert s.reports == [] by { assert StepInv(job, o, s, x); }
    RetryKeepsNoStarvation(job, s, x, t);
    LiveGivesInv(job, o, t);
  }

  lemma AbortReports(job: Job, s: RunState, x: StepId, t: RunState)
    requires Shaped(job, s) && x in s.outstanding && s.reports == [] && AbortRun(s, x, t)
    ensures Shaped(job, t) && ReportInv(job, t)
  {
    assert t.status[x] == Failed;
  }

  lemma AbortKeepsInv(job: Job, o: Origin, s: RunState, x: StepId, t: RunState)
    requires job.Valid() && ValidOrigin(job, o) && Inv(job, o, s)
    requires s.started && !s.stopped && x in s.outstanding
    requires AbortRun(s, x, t)
    ensures Inv(job, o, t)
  {
    assert s.reports == [] by { assert StepInv(job, o, s, x); }
    AbortReports(job, s, x, t);
    forall y | y in job.config ensures Bounded(job, o, t, y) {
      assert Bounded(job, o, s, y);
    }
  }

  // Retry timers

  lemma TimerKeepsStep(job: Job, o: Origin, s: RunState, x: StepId, t: RunState, y: StepId)
    requires job.Valid() && ValidOrigin(job, o) && Shaped(job, s) && y in job.config
    requires StepInv(job, o, s, y)
    requires x in s.retrying && !s.stopped && OnRetryTimer(job, s, x, t)
    ensures StepInv(job, o, t, y)
  {
    if DepsSettled(job, s.settled, y) { RunnableStable(job, s, t, y); }
  }

  /** A ready step that was waiting for the woken one now waits for whoever runs in its session. */
  lemma TimerKeepsHolder(job: Job, s: RunState, x: StepId, t: RunState, y: StepId)
    requires job.Valid() && Shaped(job, s) && x in s.retrying && !s.stopped && OnRetryTimer(job, s, x, t)
    requires y in job.config && NoStarvation(job, s) && Ready(job, t.status, t.settled, y)
    requires Runnable(job, s.status, s.settled, x)
    requires forall z :: z in s.outstanding ==> s.status[z] == Running
    ensures Runnable(job, s.status, s.settled, y) && HeldBy(job, t.outstanding + t.retrying, y)
  {
    if y == x {
      var z :| z in s.outstanding && Conflict(job, x, z);
      assert z in t.outstanding + t.retrying;
    } else {
      assert Ready(job, s.status, s.settled, y);
      var z :| z in s.outstanding + s.retrying && Conflict(job, y, z);
      if z != x {
        assert z in t.outstanding + t.retrying;
      } else if HeldBy(job, s.outstanding, x) {
        var w :| w in s.outstanding && Conflict(job, x, w);
        assert w in t.outstanding + t.retrying && Conflict(job, y, w);
      } else {
        assert x in t.outstanding + t.retrying;
      }
    }
  }

  lemma TimerKeepsNoStarvation(job: Job, s: RunState, x: StepId, t: RunState)
    requires job.Valid() && Shaped(job, s) && x in s.retrying && !s.stopped && OnRetryTimer(job, s, x, t)
    requires NoStarvation(job, s) && Runnable(job, s.status, s.settled, x)
    requires forall z :: z in s.outstanding ==> s.status[z] == Running
    ensures NoStarvation(job, t)
  {
    forall y | y in job.config && Ready(job, t.status, t.settled, y)
      ensures Runnable(job, t.status, t.settled, y) && HeldBy(job, t.outstanding + t.retrying, y)
    {
      TimerKeepsHolder(job, s, x, t, y);
      RunnableStable(job, s, t, y);
    }
  }

  lemma TimerKeepsExclusive(job: Job, s: RunState, x: StepId, t: RunState)
    requires job.Valid() && Shaped(job, s) && x in s.retrying && !s.stopped && OnRetryTimer(job, s, x, t)
    requires Exclusive(job, s.outstanding)
    ensures Exclusive(job, t.outstanding)
  {
    forall y, z | y in t.outstanding && z in t.outstanding ensures !Conflict(job, y, z) {
      if y == x && z != x { assert !Conflict(job, x, z); }
      if y != x && z == x { assert !Conflict(job, x, y); }
    }
  }

  lemma TimerKeepsInv(job: Job, o: Origin, s: RunState, x: StepId, t: RunState)
    requires job.Valid() && ValidOrigin(job, o) && Inv(job, o, s) && s.started && !s.stopped
    requires x in s.retrying && OnRetryTimer(job, s, x, t)
    ensures Inv(job, o, t)
  {
    forall y | y in job.config ensures StepInv(job, o, t, y) {
      assert StepInv(job, o, s, y);
      TimerKeepsStep(job, o, s, x, t, y);
    }
    assert StepInv(job, o, s, x);
    forall z | z in s.outstanding ensures s.status[z] == Running { assert StepInv(job, o, s, z); }
    TimerKeepsNoStarvation(job, s, x, t);
    TimerKeepsExclusive(job, s, x, t);
    LiveGivesInv(job, o, t);
  }

  /** Once the context is cancelled an event only strikes its own step off a waiting list. */
  lemma FrozenKeepsInv(job: Job, o: Origin, s: RunState, t: RunState)
    requires job.Valid() && ValidOrigin(job, o) && Inv(job, o, s) && s.started
    requires t == s.(stopped := true, outstanding := t.outstanding, retrying := t.retrying)
    requires t.outstanding <= s.outstanding && t.retrying <= s.retrying
    ensures Inv(job, o, t)
  {
    forall y | y in job.config ensures Bounded(job, o, t, y) {
      assert Bounded(job, o, s, y);
    }
  }

  /** Every event keeps the invariant. */
  lemma NextKeepsInv(job: Job, o: Origin, s: RunState, e: Event, t: RunState)
    requires job.Valid() && ValidOrigin(job, o) && Inv(job, o, s) && Next(job, s, e, t)
    ensures Inv(job, o, t)
  {
    match e
    case Start => StartKeepsInv(job, o, s, t);
    case ContextCancelled => FrozenKeepsInv(job, o, s, t);
    case RetryTimer(x) =>
      if s.stopped { FrozenKeepsInv(job, o, s, t); } else { TimerKeepsInv(job, o, s, x, t); }
    case Callback(x, exitCode) =>
      if s.stopped {
        FrozenKeepsInv(job, o, s, t);
      } else if exitCode != 0 && RetryGranted(job, s, x) {
        RetryKeepsInv(job, o, s, x, t);
      } else if exitCode != 0 && job.config[x].FailsRun() {
        AbortKeepsInv(job, o, s, x, t);
      } else {
        SettleKeepsInv(job, o, s, x, exitCode, t);
      }
  }
}
