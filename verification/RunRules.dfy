/** What a run does, in the words of its configuration: run_if, on_failure, max_retries and session
    keys as they are stored, and statuses by name. Every rule holds over every execution. */
module RunRules {
  import opened JobModel
  import opened RunMachine
  import opened RunInvariant
  import opened RunTheorems

  // ---------------------------------------------------------------------------
  // How a step ends

  /** How a settled step that had to run has ended, whatever became of the run since. */
  ghost predicate EndedByRule(job: Job, s: RunState, x: StepId)
    requires x in job.config && x in s.status && x in s.launches
  {
    var c := job.config[x];
    && (forall d :: d in job.edges && d.stepId == x ==> d.dependsOn in s.settled && d.dependsOn in s.status)
    && (s.status[x] == Completed || s.status[x] == Failed || s.status[x] == Skipped)
    && (s.status[x] == Skipped <==>
          c.runIf != "all_done" && exists d :: d in job.edges && d.stepId == x && d.dependsOn in s.status && s.status[d.dependsOn] != Completed)
    && (s.status[x] == Skipped ==> s.launches[x] == 0)
    && (s.status[x] == Completed ==> 1 <= s.launches[x] && (s.launches[x] == 1 || s.launches[x] <= 1 + c.maxRetries))
    && (s.status[x] == Failed ==> c.onFailure != "fail_run" && s.launches[x] == if c.maxRetries > 0 then 1 + c.maxRetries else 1)
  }

  /** A step that was pending at first and has settled: it was skipped exactly if some dependency did
      not complete and its run_if is not all_done, and then never launched; it failed only with its
      attempts used up, and not under fail_run. An abort or a cancellation leaves that as it is. */
  lemma {:induction false} SettledByRule(job: Job, o: Origin, states: seq<RunState>, events: seq<Event>, i: nat, x: StepId)
    requires job.Valid() && ValidOrigin(job, o) && Execution(job, o, states, events)
    requires i < |states| && x in job.config && o.status[x] == Pending && x in states[i].settled
    ensures x in states[i].status && x in states[i].launches && EndedByRule(job, states[i], x)
  {
    var t := states[i];
    ExecutionInv(job, o, states, events, i);
    if !t.stopped {
      LiveStepEnded(job, o, t, x);
    } else {
      var s := states[i - 1];
      ExecutionInv(job, o, states, events, i - 1);
      StopKeepsSettled(job, o, s, events[i - 1], t);
      SettledByRule(job, o, states, events, i - 1, x);
      assert s.status.Keys == t.status.Keys;
    }
  }

  lemma LiveStepEnded(job: Job, o: Origin, s: RunState, x: StepId)
    requires job.Valid() && ValidOrigin(job, o) && Inv(job, o, s) && !s.stopped
    requires x in s.settled && o.status[x] == Pending
    ensures EndedByRule(job, s, x)
  {
    assert StepInv(job, o, s, x);
  }

  /** The event that stops a run, and those that come later, leave the settled steps alone. */
  lemma StopKeepsSettled(job: Job, o: Origin, s: RunState, e: Event, t: RunState)
    requires job.Valid() && ValidOrigin(job, o) && Inv(job, o, s) && Shaped(job, t) && Next(job, s, e, t) && t.stopped
    ensures t.settled == s.settled && t.launches == s.launches
    ensures forall y :: y in s.settled ==> t.status[y] == s.status[y]
  {
    hide NoStarvation, Moved, Bounded, ReportInv, DepsSettled, Runnable;
    if s.stopped {
      StoppedStays(job, o, s, e, t);
    } else {
      forall y | y in s.settled ensures t.status[y] == s.status[y] { assert StepInv(job, o, s, y); }
    }
  }

  // ---------------------------------------------------------------------------
  // What a callback does

  /** A callback of a live run: the exit code decides between Completed and Failed, max_retries and
      the launches so far decide whether the step is tried again, on_failure whether the run ends. */
  lemma CallbackRule(job: Job, o: Origin, states: seq<RunState>, events: seq<Event>, i: nat)
    requires job.Valid() && ValidOrigin(job, o) && Execution(job, o, states, events)
    requires i < |events| && events[i].Callback? && !states[i].stopped
    ensures var x := events[i].step; x in job.config && x in states[i].status && x in states[i].launches && x in states[i + 1].status
    ensures
      var s, t, x, code := states[i], states[i + 1], events[i].step, events[i].exitCode;
      var again := job.config[x].maxRetries > 0 && s.launches[x] <= job.config[x].maxRetries;
      && s.status[x] == Running
      && t.status[x] == (if code == 0 then Completed else Failed)
      && (x in t.retrying <==> code != 0 && again)
      && (t.stopped <==> code != 0 && !again && job.config[x].onFailure == "fail_run")
      && (x in t.settled <==> code == 0 || (!again && job.config[x].onFailure != "fail_run"))
  {
    ExecutionInv(job, o, states, events, i);
    hide Inv;
    CallbackStep(job, o, states[i], events[i].step, events[i].exitCode, states[i + 1]);
  }

  lemma CallbackStep(job: Job, o: Origin, s: RunState, x: StepId, code: int, t: RunState)
    requires job.Valid() && ValidOrigin(job, o) && Shaped(job, s) && Inv(job, o, s) && Next(job, s, Callback(x, code), t) && !s.stopped
    ensures x in job.config && x in s.status && x in s.launches && x in t.status
    ensures
      var again := job.config[x].maxRetries > 0 && s.launches[x] <= job.config[x].maxRetries;
      && s.status[x] == Running
      && t.status[x] == (if code == 0 then Completed else Failed)
      && (x in t.retrying <==> code != 0 && again)
      && (t.stopped <==> code != 0 && !again && job.config[x].onFailure == "fail_run")
      && (x in t.settled <==> code == 0 || (!again && job.config[x].onFailure != "fail_run"))
  {
    RunningStep(job, o, s, x);
    hide Inv, Shaped;
    if code != 0 && (RetryGranted(job, s, x) || job.config[x].FailsRun()) {
      hide Settle;
      assert x in s.outstanding && x in job.config && x !in s.settled && x !in s.retrying && x in s.status;
    } else {
      SettlingStep(job, s, x, code, t);
      hide Settle;
    }
  }

  lemma RunningStep(job: Job, o: Origin, s: RunState, x: StepId)
    requires job.Valid() && ValidOrigin(job, o) && Inv(job, o, s) && !s.stopped && x in s.outstanding
    ensures x in job.config && x in s.status && x in s.launches && x in s.attempt && x !in s.settled && x !in s.retrying
    ensures s.status[x] == Running && s.attempt[x] == s.launches[x]
  {
    assert StepInv(job, o, s, x);
    hide DepsSettled, Runnable, NoStarvation, Bounded, ReportInv;
  }

  lemma SettlingStep(job: Job, s: RunState, x: StepId, code: int, t: RunState)
    requires job.Valid() && Shaped(job, s) && x in s.outstanding && x in job.config && !s.stopped && Settle(job, s, x, code, t)
    ensures x in t.status && t.status[x] == (if code == 0 then Completed else Failed)
    ensures x in t.settled && x !in t.retrying && !t.stopped
  {
    assert Moved(job, Finished(s, x, code), t.(reports := s.reports), x);
    hide DepsSettled, Runnable, Grounded, Exclusive, SomeFailed;
  }

  /** The event that stops a live run, if it is not a cancellation, is the last permitted failure of a
      fail_run step: that step is Failed, every other pending step Skipped, every other running one
      Cancelled, nothing else changes, and the run reports Failed. */
  lemma AbortRule(job: Job, o: Origin, states: seq<RunState>, events: seq<Event>, i: nat, y: StepId)
    requires job.Valid() && ValidOrigin(job, o) && Execution(job, o, states, events)
    requires i < |events| && !states[i].stopped && states[i + 1].stopped && events[i] != ContextCancelled
    requires y in job.config
    ensures events[i].Callback? && y in states[i].status && y in states[i + 1].status
    ensures
      var s, t, x := states[i], states[i + 1], events[i].step;
      && (y == x ==> t.status[y] == Failed)
      && (y != x && s.status[y] == Pending ==> t.status[y] == Skipped)
      && (y != x && s.status[y] == Running ==> t.status[y] == Cancelled)
      && (y != x && s.status[y] != Pending && s.status[y] != Running ==> t.status[y] == s.status[y])
    ensures states[i + 1].reports == [Failed]
    ensures states[i + 1].settled == states[i].settled && states[i + 1].launches == states[i].launches
    ensures states[i + 1].outstanding == states[i].outstanding - {events[i].step} && states[i + 1].retrying == states[i].retrying
  {
    var s, t, e := states[i], states[i + 1], events[i];
    ExecutionInv(job, o, states, events, i);
    ExecutionInv(job, o, states, events, i + 1);
    StopIsAbort(job, o, s, e, t);
  }

  lemma StopIsAbort(job: Job, o: Origin, s: RunState, e: Event, t: RunState)
    requires job.Valid() && ValidOrigin(job, o) && Inv(job, o, s) && Inv(job, o, t) && Next(job, s, e, t)
    requires !s.stopped && t.stopped && e != ContextCancelled
    ensures e.Callback? && AbortRun(s, e.step, t) && e.step in s.status && t.reports == [Failed]
  {
    hide StepInv, NoStarvation, Moved, Bounded;
    assert t.reports == s.reports + [Failed] && |t.reports| <= 1;
  }

  // ---------------------------------------------------------------------------
  // Who waits

  /** Same non-empty session key, different steps. */
  ghost predicate SameSession(job: Job, x: StepId, y: StepId)
    requires x in job.config && y in job.config
  {
    x != y && job.config[x].sessionKey == job.config[y].sessionKey && job.config[x].sessionKey != ""
  }

  /** In a live, started run a pending step with all dependencies settled may run by its run_if, and
      waits only because another step with its session key runs or is about to be tried again. */
  lemma WaitingRule(job: Job, o: Origin, states: seq<RunState>, events: seq<Event>, i: nat, x: StepId)
    requires job.Valid() && ValidOrigin(job, o) && Execution(job, o, states, events)
    requires i < |states| && states[i].started && !states[i].stopped
    requires x in job.config && x in states[i].status && states[i].status[x] == Pending
    requires forall d :: d in job.edges && d.stepId == x ==> d.dependsOn in states[i].settled
    ensures job.config[x].runIf == "all_done" ||
      forall d :: d in job.edges && d.stepId == x ==> d.dependsOn in states[i].status && states[i].status[d.dependsOn] == Completed
    ensures exists y :: y in job.config && y in states[i].outstanding + states[i].retrying && SameSession(job, x, y)
  {
    var s := states[i];
    ExecutionInv(job, o, states, events, i);
    assert Ready(job, s.status, s.settled, x);
    var y :| y in s.outstanding + s.retrying && Conflict(job, x, y);
    assert SameSession(job, x, y);
  }

  /** A step whose retry timer fires in a live run runs again at once, unless another running step has
      its session key; then it is pending again. */
  lemma RetryRule(job: Job, o: Origin, states: seq<RunState>, events: seq<Event>, i: nat)
    requires job.Valid() && ValidOrigin(job, o) && Execution(job, o, states, events)
    requires i < |events| && events[i].RetryTimer? && !states[i].stopped
    ensures var x := events[i].step; x in job.config && x in states[i].status && x in states[i].launches
                                     && x in states[i + 1].status && x in states[i + 1].launches
    ensures
      var s, t, x := states[i], states[i + 1], events[i].step;
      var held := exists y :: y in job.config && y in s.outstanding && SameSession(job, x, y);
      && s.status[x] == Failed && x !in t.retrying
      && t.status[x] == (if held then Pending else Running)
      && (x in t.outstanding <==> !held)
      && t.launches[x] == s.launches[x] + (if held then 0 else 1)
  {
    var s, x := states[i], events[i].step;
    ExecutionInv(job, o, states, events, i);
    assert Next(job, s, events[i], states[i + 1]);
    assert StepInv(job, o, s, x);
    if y :| y in s.outstanding && Conflict(job, x, y) { assert y in job.config && SameSession(job, x, y); }
    if y :| y in job.config && y in s.outstanding && SameSession(job, x, y) { assert Conflict(job, x, y); }
  }
}
