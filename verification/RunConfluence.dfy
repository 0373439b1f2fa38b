/** The outcome of a run does not depend on how its callbacks, timers and session hand-overs interleave. */
module RunConfluence {
  import opened JobModel
  import opened RunMachine
  import opened RunTheorems

  /** Says whether attempt number a of step x would succeed. */
  type Oracle = (StepId, int) -> bool

  ghost predicate Succeeds(job: Job, oracle: Oracle, x: StepId)
    requires x in job.config
  {
    exists a :: 1 <= a <= job.config[x].MaxLaunches() && oracle(x, a)
  }

  /** How step x ends, given how its dependencies end. */
  ghost function Outcome(job: Job, o: Origin, oracle: Oracle, ends: map<StepId, Status>, x: StepId): Status
    requires ValidOrigin(job, o) && x in job.config
  {
    if o.status[x] == Completed then Completed
    else if !job.config[x].AllDone() &&
            (exists d :: d in job.edges && d.stepId == x && d.dependsOn in ends && ends[d.dependsOn] != Completed) then Skipped
    else if Succeeds(job, oracle, x) then Completed
    else Failed
  }

  /** The reference outcome, computed step by step in dependency order, with no schedule in sight. */
  ghost function Ends(job: Job, o: Origin, oracle: Oracle, order: seq<StepId>): map<StepId, Status>
    requires ValidOrigin(job, o) && forall x :: x in order ==> x in job.config
  {
    if order == [] then map[]
    else
      var n := |order| - 1;
      var before := Ends(job, o, oracle, order[..n]);
      before[order[n] := Outcome(job, o, oracle, before, order[n])]
  }

  ghost predicate ConsistentEvent(oracle: Oracle, s: RunState, e: Event) {
    e.Callback? && !s.stopped && e.step in s.attempt ==> (e.exitCode == 0 <==> oracle(e.step, s.attempt[e.step]))
  }

  ghost predicate Consistent(oracle: Oracle, states: seq<RunState>, events: seq<Event>)
    requires |states| == |events| + 1
  {
    forall i :: 0 <= i < |events| ==> ConsistentEvent(oracle, states[i], events[i])
  }

  // ---------------------------------------------------------------------------
  // What the attempts so far say about the oracle

  ghost predicate OracleStep(job: Job, o: Origin, oracle: Oracle, s: RunState, x: StepId)
    requires ValidOrigin(job, o) && Shaped(job, s) && x in job.config
  {
    o.status[x] == Pending ==>
      && (forall a :: 1 <= a < s.attempt[x] ==> !oracle(x, a))
      && (x in s.settled && s.status[x] == Completed ==> oracle(x, s.attempt[x]))
      && (x in s.settled && s.status[x] == Failed ==> !oracle(x, s.attempt[x]))
  }

  ghost predicate OracleInv(job: Job, o: Origin, oracle: Oracle, s: RunState)
    requires ValidOrigin(job, o) && Shaped(job, s)
  {
    forall x {:trigger OracleStep(job, o, oracle, s, x)} :: x in job.config ==> OracleStep(job, o, oracle, s, x)
  }

  lemma MovedKeepsOracleStep(job: Job, o: Origin, oracle: Oracle, m: RunState, t: RunState, x: StepId)
    requires job.Valid() && ValidOrigin(job, o) && Shaped(job, m) && AdvancePart(job, m, t) && x in job.config
    requires OracleStep(job, o, oracle, m, x)
    ensures OracleStep(job, o, oracle, t, x)
  {
    hide DepsSettled, Runnable, Exclusive;
    assert Moved(job, m, t, x);
  }

  lemma RetryKeepsOracleStep(job: Job, o: Origin, oracle: Oracle, s: RunState, y: StepId, t: RunState, x: StepId)
    requires job.Valid() && ValidOrigin(job, o) && Shaped(job, s) && Shaped(job, t) && x in job.config
    requires y in s.outstanding && ScheduleRetry(s, y, t) && !oracle(y, s.attempt[y]) && OracleStep(job, o, oracle, s, x)
    ensures OracleStep(job, o, oracle, t, x)
  {
  }

  lemma FinishKeepsOracleStep(job: Job, o: Origin, oracle: Oracle, s: RunState, y: StepId, exitCode: int, x: StepId)
    requires job.Valid() && ValidOrigin(job, o) && Shaped(job, s) && Shaped(job, Finished(s, y, exitCode)) && x in job.config
    requires y in s.outstanding && (exitCode == 0 <==> oracle(y, s.attempt[y])) && OracleStep(job, o, oracle, s, x)
    ensures OracleStep(job, o, oracle, Finished(s, y, exitCode), x)
  {
  }

  lemma CallbackKeepsOracleStep(job: Job, o: Origin, oracle: Oracle, s: RunState, y: StepId, exitCode: int, t: RunState, x: StepId)
    requires job.Valid() && ValidOrigin(job, o) && Shaped(job, s) && Shaped(job, t) && x in job.config
    requires y in s.outstanding && !t.stopped && OnCallback(job, s, y, exitCode, t)
    requires ConsistentEvent(oracle, s, Callback(y, exitCode)) && OracleStep(job, o, oracle, s, x)
    ensures OracleStep(job, o, oracle, t, x)
  {
    hide OracleStep, Advance, AdvancePart, Moved;
    if exitCode != 0 && RetryGranted(job, s, y) {
      RetryKeepsOracleStep(job, o, oracle, s, y, t, x);
    } else {
      FinishKeepsOracleStep(job, o, oracle, s, y, exitCode, x);
      SettledKeepsOracleStep(job, o, oracle, s, y, exitCode, t, x);
    }
  }

  lemma SettledKeepsOracleStep(job: Job, o: Origin, oracle: Oracle, s: RunState, y: StepId, exitCode: int, t: RunState, x: StepId)
    requires job.Valid() && ValidOrigin(job, o) && Shaped(job, s) && Shaped(job, t) && x in job.config
    requires y in s.outstanding && Settle(job, s, y, exitCode, t)
    requires Shaped(job, Finished(s, y, exitCode)) && OracleStep(job, o, oracle, Finished(s, y, exitCode), x)
    ensures OracleStep(job, o, oracle, t, x)
  {
    hide Moved, SomeFailed;
    MovedKeepsOracleStep(job, o, oracle, Finished(s, y, exitCode), t.(reports := s.reports), x);
  }

  lemma NextKeepsOracleStep(job: Job, o: Origin, oracle: Oracle, s: RunState, e: Event, t: RunState, x: StepId)
    requires job.Valid() && ValidOrigin(job, o) && Shaped(job, s) && Shaped(job, t) && x in job.config
    requires Next(job, s, e, t) && ConsistentEvent(oracle, s, e) && !t.stopped
    requires OracleStep(job, o, oracle, s, x)
    ensures OracleStep(job, o, oracle, t, x)
  {
    match e {
      case Start => assert Moved(job, s.(started := true), t, x);
      case RetryTimer(y) =>
      case Callback(y, exitCode) => CallbackKeepsOracleStep(job, o, oracle, s, y, exitCode, t, x);
    }
  }

  lemma {:induction false} ExecutionOracleInv(job: Job, o: Origin, oracle: Oracle, states: seq<RunState>, events: seq<Event>, i: nat)
    requires job.Valid() && ValidOrigin(job, o) && Execution(job, o, states, events) && Consistent(oracle, states, events)
    requires i < |states| && !states[i].stopped
    ensures Shaped(job, states[i]) && OracleInv(job, o, oracle, states[i])
  {
    ExecutionInv(job, o, states, events, i);
    if i > 0 {
      assert !states[i - 1].stopped by {
        if states[i - 1].stopped { StoppedRunsAreFrozen(job, o, states, events, i - 1, i); }
      }
      ExecutionOracleInv(job, o, oracle, states, events, i - 1);
      forall x | x in job.config ensures OracleStep(job, o, oracle, states[i], x) {
        assert OracleStep(job, o, oracle, states[i - 1], x);
        NextKeepsOracleStep(job, o, oracle, states[i - 1], events[i - 1], states[i], x);
      }
    }
  }

  // ---------------------------------------------------------------------------
  // The reference outcome

  ghost predicate Solves(job: Job, o: Origin, oracle: Oracle, ends: map<StepId, Status>)
    requires ValidOrigin(job, o)
  {
    && ends.Keys == job.config.Keys
    && forall x :: x in job.config ==> ends[x] == Outcome(job, o, oracle, ends, x)
  }

  lemma {:induction false} EndsPrefix(job: Job, o: Origin, oracle: Oracle, order: seq<StepId>, i: nat)
    requires ValidOrigin(job, o) && forall x :: x in order ==> x in job.config
    requires forall j, k :: 0 <= j < k < |order| ==> order[j] != order[k]
    requires i < |order|
    ensures Ends(job, o, oracle, order).Keys == (set x | x in order)
    ensures Ends(job, o, oracle, order)[order[i]] == Outcome(job, o, oracle, Ends(job, o, oracle, order[..i]), order[i])
    ensures Ends(job, o, oracle, order[..i]).Keys == set x | x in order[..i]
    ensures forall x :: x in Ends(job, o, oracle, order[..i]) ==>
      Ends(job, o, oracle, order)[x] == Ends(job, o, oracle, order[..i])[x]
  {
    hide Outcome, ValidOrigin, Ends;
    var n := |order| - 1;
    EndsUnfold(job, o, oracle, order);
    EndsKeys(job, o, oracle, order);
    EndsKeys(job, o, oracle, order[..i]);
    var before := Ends(job, o, oracle, order[..n]);
    EndsKeys(job, o, oracle, order[..n]);
    assert order[n] !in order[..n];
    if i < n {
      EndsPrefix(job, o, oracle, order[..n], i);
      assert order[..n][..i] == order[..i];
      assert order[i] in order[..n] && forall x :: x in order[..i] ==> x in order[..n];
    }
  }

  lemma EndsUnfold(job: Job, o: Origin, oracle: Oracle, order: seq<StepId>)
    requires ValidOrigin(job, o) && (forall x :: x in order ==> x in job.config) && order != []
    ensures var n := |order| - 1; var before := Ends(job, o, oracle, order[..n]);
      Ends(job, o, oracle, order) == before[order[n] := Outcome(job, o, oracle, before, order[n])]
  {
    hide Outcome, ValidOrigin;
  }

  lemma {:induction false} EndsKeys(job: Job, o: Origin, oracle: Oracle, order: seq<StepId>)
    requires ValidOrigin(job, o) && forall x :: x in order ==> x in job.config
    ensures Ends(job, o, oracle, order).Keys == (set x | x in order)
  {
    if order != [] {
      EndsKeys(job, o, oracle, order[..|order| - 1]);
    }
  }

  /** Step x ends as its dependencies, its run_if, its max_retries and its attempts say. */
  ghost predicate RuleHolds(job: Job, o: Origin, oracle: Oracle, ends: map<StepId, Status>, x: StepId)
    requires x in job.config && x in o.status && x in ends
  {
    var c := job.config[x];
    var blocked := c.runIf != "all_done" && exists d :: d in job.edges && d.stepId == x && d.dependsOn in ends && ends[d.dependsOn] != Completed;
    var succeeds := exists a :: 1 <= a && (a == 1 || a <= 1 + c.maxRetries) && oracle(x, a);
    if o.status[x] == Completed then ends[x] == Completed
    else ends[x] == if blocked then Skipped else if succeeds then Completed else Failed
  }

  /** The reference outcome satisfies the rule of every step at once. */
  lemma EndsSolves(job: Job, o: Origin, oracle: Oracle, order: seq<StepId>)
    requires job.Valid() && ValidOrigin(job, o) && TopologicalOrder(order, job.config.Keys, job.Inner())
    ensures forall x :: x in order ==> x in job.config
    ensures Solves(job, o, oracle, Ends(job, o, oracle, order))
    ensures forall x :: x in job.config ==> RuleHolds(job, o, oracle, Ends(job, o, oracle, order), x)
  {
    hide Outcome;
    assert forall x :: x in order ==> x in (set y | y in order);
    EndsKeys(job, o, oracle, order);
    hide Ends;
    var ends := Ends(job, o, oracle, order);
    forall x | x in job.config ensures ends[x] == Outcome(job, o, oracle, ends, x) {
      assert x in (set y | y in order);
      var i :| 0 <= i < |order| && order[i] == x;
      EndsPrefix(job, o, oracle, order, i);
      var before := Ends(job, o, oracle, order[..i]);
      forall d | d in job.edges && d.stepId == x
        ensures d.dependsOn in before <==> d.dependsOn in ends
        ensures d.dependsOn in before ==> before[d.dependsOn] == ends[d.dependsOn]
      {
        if d.dependsOn in ends {
          assert d in job.Inner();
          assert d.dependsOn in order[..i];
        } else {
          assert forall y :: y in order[..i] ==> y in order;
        }
      }
      OutcomeReadsDependencies(job, o, oracle, before, ends, x);
    }
    forall x | x in job.config ensures RuleHolds(job, o, oracle, ends, x) { OutcomeIsRule(job, o, oracle, ends, x); }
  }

  lemma OutcomeIsRule(job: Job, o: Origin, oracle: Oracle, ends: map<StepId, Status>, x: StepId)
    requires ValidOrigin(job, o) && x in job.config && x in ends && ends[x] == Outcome(job, o, oracle, ends, x)
    ensures RuleHolds(job, o, oracle, ends, x)
  {
  }

  lemma OutcomeReadsDependencies(job: Job, o: Origin, oracle: Oracle, before: map<StepId, Status>, ends: map<StepId, Status>, x: StepId)
    requires ValidOrigin(job, o) && x in job.config
    requires forall d :: d in job.edges && d.stepId == x ==>
      (d.dependsOn in before <==> d.dependsOn in ends) && (d.dependsOn in before ==> before[d.dependsOn] == ends[d.dependsOn])
    ensures Outcome(job, o, oracle, before, x) == Outcome(job, o, oracle, ends, x)
  {
  }

  ghost predicate MatchesUpTo(s: RunState, ends: map<StepId, Status>, order: seq<StepId>, i: nat)
    requires i <= |order|
  {
    forall x :: x in order[..i] && x in s.settled ==> x in ends && x in s.status && s.status[x] == ends[x]
  }

  /** In any live state the settled steps already have their reference outcome. */
  lemma {:induction false} SettledStepsMatch(
    job: Job, o: Origin, oracle: Oracle, s: RunState, ends: map<StepId, Status>, order: seq<StepId>, i: nat)
    requires job.Valid() && ValidOrigin(job, o) && Shaped(job, s) && LiveInv(job, o, s) && OracleInv(job, o, oracle, s)
    requires TopologicalOrder(order, job.config.Keys, job.Inner()) && Solves(job, o, oracle, ends)
    requires i <= |order|
    ensures MatchesUpTo(s, ends, order, i)
  {
    if i > 0 {
      hide *;
      SettledStepsMatch(job, o, oracle, s, ends, order, i - 1);
      NextStepMatches(job, o, oracle, s, ends, order, i - 1);
    }
  }

  lemma NextStepMatches(job: Job, o: Origin, oracle: Oracle, s: RunState, ends: map<StepId, Status>, order: seq<StepId>, i: nat)
    requires job.Valid() && ValidOrigin(job, o) && Shaped(job, s) && LiveInv(job, o, s) && OracleInv(job, o, oracle, s)
    requires TopologicalOrder(order, job.config.Keys, job.Inner()) && Solves(job, o, oracle, ends)
    requires i < |order| && MatchesUpTo(s, ends, order, i)
    ensures MatchesUpTo(s, ends, order, i + 1)
  {
    hide *;
    OrderedStep(job, order, i);
    SameKeys(job, o, oracle, s, ends);
    if order[i] in s.settled {
      EarlierMatch(job, s, ends, order, i);
      StepMatches(job, o, oracle, s, ends, order[i]);
    }
    MatchGrows(s, ends, order, i);
  }

  lemma SameKeys(job: Job, o: Origin, oracle: Oracle, s: RunState, ends: map<StepId, Status>)
    requires ValidOrigin(job, o) && Shaped(job, s) && Solves(job, o, oracle, ends)
    ensures ends.Keys == s.status.Keys == job.config.Keys && s.settled <= job.config.Keys
  {
  }

  lemma MatchGrows(s: RunState, ends: map<StepId, Status>, order: seq<StepId>, i: nat)
    requires i < |order| && MatchesUpTo(s, ends, order, i)
    requires order[i] in s.settled ==> order[i] in ends && order[i] in s.status && s.status[order[i]] == ends[order[i]]
    ensures MatchesUpTo(s, ends, order, i + 1)
  {
    assert order[..i + 1] == order[..i] + [order[i]];
  }

  lemma OrderedStep(job: Job, order: seq<StepId>, i: nat)
    requires TopologicalOrder(order, job.config.Keys, job.Inner()) && i < |order|
    ensures order[i] in job.config
  {
    assert order[i] in (set y | y in order);
  }

  lemma EarlierMatch(job: Job, s: RunState, ends: map<StepId, Status>, order: seq<StepId>, i: nat)
    requires job.Valid() && Shaped(job, s) && ends.Keys == job.config.Keys && i < |order|
    requires TopologicalOrder(order, job.config.Keys, job.Inner())
    requires MatchesUpTo(s, ends, order, i)
    ensures DependenciesMatch(job, s, ends, order[i])
  {
    forall d | d in job.edges && d.stepId == order[i] && d.dependsOn in s.settled
      ensures d.dependsOn in ends && s.status[d.dependsOn] == ends[d.dependsOn]
    {
      assert d in job.Inner();
      assert d.dependsOn in order[..i];
    }
  }

  ghost predicate DependenciesMatch(job: Job, s: RunState, ends: map<StepId, Status>, x: StepId)
    requires Shaped(job, s)
  {
    forall d :: d in job.edges && d.stepId == x && d.dependsOn in s.settled ==>
      d.dependsOn in ends && s.status[d.dependsOn] == ends[d.dependsOn]
  }

  lemma StepMatches(job: Job, o: Origin, oracle: Oracle, s: RunState, ends: map<StepId, Status>, x: StepId)
    requires job.Valid() && ValidOrigin(job, o) && Shaped(job, s) && Solves(job, o, oracle, ends)
    requires x in s.settled && LiveInv(job, o, s) && OracleInv(job, o, oracle, s) && DependenciesMatch(job, s, ends, x)
    ensures s.status[x] == ends[x]
  {
    assert StepInv(job, o, s, x) && OracleStep(job, o, oracle, s, x);
    assert ends.Keys == job.config.Keys && ends[x] == Outcome(job, o, oracle, ends, x);
    hide LiveInv, OracleInv, Solves;
    if o.status[x] == Pending {
      FailuresMatch(job, s, ends, x);
      AttemptsTell(job, o, oracle, s, x);
      hide OracleStep, FailedDep, Succeeds, DepsSettled, DependenciesMatch;
    }
  }

  lemma FailuresMatch(job: Job, s: RunState, ends: map<StepId, Status>, x: StepId)
    requires Shaped(job, s) && DependenciesMatch(job, s, ends, x) && DepsSettled(job, s.settled, x)
    ensures FailedDep(job, s.status, s.settled, x) <==>
      exists d :: d in job.edges && d.stepId == x && d.dependsOn in ends && ends[d.dependsOn] != Completed
  {
    if d :| d in job.edges && d.stepId == x && d.dependsOn in s.settled && s.status[d.dependsOn] != Completed {
      assert d.dependsOn in ends && ends[d.dependsOn] != Completed;
    }
    if d :| d in job.edges && d.stepId == x && d.dependsOn in ends && ends[d.dependsOn] != Completed {
      assert d.dependsOn in s.settled && s.status[d.dependsOn] != Completed;
    }
  }

  /** A settled step that ran tells whether one of its permitted attempts succeeds. */
  lemma AttemptsTell(job: Job, o: Origin, oracle: Oracle, s: RunState, x: StepId)
    requires job.Valid() && ValidOrigin(job, o) && Shaped(job, s) && x in s.settled && o.status[x] == Pending
    requires StepInv(job, o, s, x) && OracleStep(job, o, oracle, s, x)
    ensures s.status[x] == Completed ==> Succeeds(job, oracle, x)
    ensures s.status[x] == Failed ==> !Succeeds(job, oracle, x)
  {
    hide DepsSettled, Runnable;
  }

  // ---------------------------------------------------------------------------
  // Confluence

  lemma SettledStateMatches(job: Job, o: Origin, oracle: Oracle, s: RunState, ends: map<StepId, Status>, order: seq<StepId>)
    requires job.Valid() && ValidOrigin(job, o) && Inv(job, o, s) && !s.stopped && OracleInv(job, o, oracle, s)
    requires TopologicalOrder(order, job.config.Keys, job.Inner()) && Solves(job, o, oracle, ends)
    ensures forall x :: x in s.settled ==> s.status[x] == ends[x]
  {
    SettledStepsMatch(job, o, oracle, s, ends, order, |order|);
    SameKeys(job, o, oracle, s, ends);
    assert order[..|order|] == order;
    forall x | x in s.settled ensures x in order { assert x in (set y | y in order); }
    hide Inv, OracleInv, Solves, TopologicalOrder;
  }

  /** A run in which every step settled ended exactly as the reference says. */
  lemma SettledRunMatches(job: Job, o: Origin, oracle: Oracle, states: seq<RunState>, events: seq<Event>, order: seq<StepId>, i: nat)
    requires job.Valid() && ValidOrigin(job, o) && Execution(job, o, states, events) && Consistent(oracle, states, events)
    requires TopologicalOrder(order, job.config.Keys, job.Inner())
    requires i < |states| && !states[i].stopped && states[i].settled == job.config.Keys
    ensures forall x :: x in order ==> x in job.config
    ensures states[i].status == Ends(job, o, oracle, order)
  {
    ExecutionInv(job, o, states, events, i);
    ExecutionOracleInv(job, o, oracle, states, events, i);
    EndsSolves(job, o, oracle, order);
    SettledStateMatches(job, o, oracle, states[i], Ends(job, o, oracle, order), order);
  }

  /** A runnable step that has failed every permitted attempt is Failed in the reference outcome. */
  lemma ExhaustedStepFails(job: Job, o: Origin, oracle: Oracle, s: RunState, x: StepId, ends: map<StepId, Status>)
    requires job.Valid() && ValidOrigin(job, o) && Shaped(job, s) && x in s.outstanding
    requires StepInv(job, o, s, x) && OracleStep(job, o, oracle, s, x)
    requires Solves(job, o, oracle, ends) && forall y :: y in s.settled ==> s.status[y] == ends[y]
    requires !RetryGranted(job, s, x) && !oracle(x, s.attempt[x])
    ensures ends[x] == Failed
  {
    assert ends.Keys == job.config.Keys && ends[x] == Outcome(job, o, oracle, ends, x);
    assert DependenciesMatch(job, s, ends, x);
    hide Solves, DependenciesMatch;
    FailuresMatch(job, s, ends, x);
    NothingSucceeds(job, o, oracle, s, x);
    hide OracleStep, FailedDep, Succeeds, DepsSettled;
  }

  lemma NothingSucceeds(job: Job, o: Origin, oracle: Oracle, s: RunState, x: StepId)
    requires job.Valid() && ValidOrigin(job, o) && Shaped(job, s) && x in s.outstanding
    requires StepInv(job, o, s, x) && OracleStep(job, o, oracle, s, x) && !RetryGranted(job, s, x) && !oracle(x, s.attempt[x])
    ensures !Succeeds(job, oracle, x)
  {
    hide DepsSettled, Runnable;
  }

  /** The one event that both reports and stops is an exhausted failure of a fail_run step. */
  lemma StoppingReportIsAbort(job: Job, o: Origin, s: RunState, e: Event, t: RunState)
    requires job.Valid() && ValidOrigin(job, o) && Inv(job, o, s) && Next(job, s, e, t)
    requires t.stopped && s.reports == [] && t.reports != []
    ensures e.Callback? && e.exitCode != 0 && !s.stopped && !RetryGranted(job, s, e.step)
    ensures t.reports == [Failed]
  {
  }

  lemma AbortVerdictMatches(job: Job, o: Origin, oracle: Oracle, s: RunState, e: Event, t: RunState, ends: map<StepId, Status>, order: seq<StepId>)
    requires job.Valid() && ValidOrigin(job, o) && Inv(job, o, s) && OracleInv(job, o, oracle, s)
    requires Next(job, s, e, t) && ConsistentEvent(oracle, s, e)
    requires t.stopped && s.reports == [] && t.reports != []
    requires TopologicalOrder(order, job.config.Keys, job.Inner()) && Solves(job, o, oracle, ends)
    ensures t.reports == [Verdict(SomeFailed(ends))]
  {
    StoppingReportIsAbort(job, o, s, e, t);
    SettledStateMatches(job, o, oracle, s, ends, order);
    assert StepInv(job, o, s, e.step) && OracleStep(job, o, oracle, s, e.step);
    ExhaustedStepFails(job, o, oracle, s, e.step, ends);
  }

  /** A live run has reported only if all its steps settled. */
  lemma LiveReportMeansSettled(job: Job, o: Origin, s: RunState)
    requires job.Valid() && ValidOrigin(job, o) && Inv(job, o, s) && !s.stopped && s.reports != []
    ensures s.settled == job.config.Keys && s.reports == [Verdict(SomeFailed(s.status))]
  {
  }

  lemma LiveVerdict(job: Job, o: Origin, oracle: Oracle, s: RunState, ends: map<StepId, Status>, order: seq<StepId>)
    requires job.Valid() && ValidOrigin(job, o) && Inv(job, o, s) && !s.stopped && OracleInv(job, o, oracle, s) && s.reports != []
    requires TopologicalOrder(order, job.config.Keys, job.Inner()) && Solves(job, o, oracle, ends)
    ensures s.reports == [Verdict(SomeFailed(ends))]
  {
    hide *;
    LiveReportMeansSettled(job, o, s);
    InvIsShaped(job, o, s);
    SameKeys(job, o, oracle, s, ends);
    SettledStateMatches(job, o, oracle, s, ends, order);
    assert s.status == ends;
  }

  lemma StepVerdict(job: Job, o: Origin, oracle: Oracle, s: RunState, e: Event, t: RunState, ends: map<StepId, Status>, order: seq<StepId>)
    requires job.Valid() && ValidOrigin(job, o) && Inv(job, o, s) && Inv(job, o, t) && Next(job, s, e, t) && ConsistentEvent(oracle, s, e)
    requires (!s.stopped ==> OracleInv(job, o, oracle, s)) && (!t.stopped ==> OracleInv(job, o, oracle, t))
    requires TopologicalOrder(order, job.config.Keys, job.Inner()) && Solves(job, o, oracle, ends)
    requires s.reports != [] ==> s.reports == [Verdict(SomeFailed(ends))]
    ensures t.reports != [] ==> t.reports == [Verdict(SomeFailed(ends))]
  {
    hide Inv, Next, OracleInv, Solves, TopologicalOrder, ConsistentEvent, SomeFailed;
    if t.reports != [] {
      if s.reports != [] {
        ReportsStay(job, o, s, e, t);
      } else if t.stopped {
        UnreportedIsLive(job, o, s, e, t);
        AbortVerdictMatches(job, o, oracle, s, e, t, ends, order);
      } else {
        LiveVerdict(job, o, oracle, t, ends, order);
      }
    }
  }

  lemma {:induction false} EveryVerdict(
    job: Job, o: Origin, oracle: Oracle, states: seq<RunState>, events: seq<Event>, ends: map<StepId, Status>, order: seq<StepId>, i: nat)
    requires job.Valid() && ValidOrigin(job, o) && Execution(job, o, states, events) && Consistent(oracle, states, events)
    requires TopologicalOrder(order, job.config.Keys, job.Inner()) && Solves(job, o, oracle, ends) && i < |states|
    ensures states[i].reports != [] ==> states[i].reports == [Verdict(SomeFailed(ends))]
  {
    hide Inv, Next, OracleInv, Solves, TopologicalOrder, ConsistentEvent, SomeFailed, Initial, Shaped;
    if i == 0 {
      StartsUnstopped(job, o);
    } else {
      EveryVerdict(job, o, oracle, states, events, ends, order, i - 1);
      ExecutionInv(job, o, states, events, i - 1);
      ExecutionInv(job, o, states, events, i);
      if !states[i - 1].stopped { ExecutionOracleInv(job, o, oracle, states, events, i - 1); }
      if !states[i].stopped { ExecutionOracleInv(job, o, oracle, states, events, i); }
      StepVerdict(job, o, oracle, states[i - 1], events[i - 1], states[i], ends, order);
    }
  }

  /** Whatever the schedule, and even when a fail_run step cuts the run short, the verdict
      reported is the one the reference outcome has. */
  lemma VerdictMatches(
    job: Job, o: Origin, oracle: Oracle, states: seq<RunState>, events: seq<Event>, order: seq<StepId>, i: nat)
    requires job.Valid() && ValidOrigin(job, o) && Execution(job, o, states, events) && Consistent(oracle, states, events)
    requires TopologicalOrder(order, job.config.Keys, job.Inner())
    requires i < |states| && states[i].reports != []
    ensures forall x :: x in order ==> x in job.config
    ensures states[i].reports == [Verdict(SomeFailed(Ends(job, o, oracle, order)))]
  {
    EndsSolves(job, o, oracle, order);
    hide *;
    EveryVerdict(job, o, oracle, states, events, Ends(job, o, oracle, order), order, i);
  }

  lemma UnreportedIsLive(job: Job, o: Origin, s: RunState, e: Event, t: RunState)
    requires job.Valid() && ValidOrigin(job, o) && Inv(job, o, s) && Next(job, s, e, t)
    requires t.stopped && s.reports == [] && t.reports != []
    ensures !s.stopped
  {
    StoppingReportIsAbort(job, o, s, e, t);
  }

  lemma ReportsStay(job: Job, o: Origin, s: RunState, e: Event, t: RunState)
    requires job.Valid() && ValidOrigin(job, o) && Inv(job, o, s) && Inv(job, o, t) && Next(job, s, e, t)
    requires s.reports != []
    ensures t.reports == s.reports
  {
    ReportsGrow(job, s, e, t);
    hide Next, LiveInv, Bounded, Shaped;
    assert |s.reports| == 1 && |t.reports| <= 1;
  }

  lemma ReportsGrow(job: Job, s: RunState, e: Event, t: RunState)
    requires job.Valid() && Shaped(job, s) && Next(job, s, e, t)
    ensures s.reports <= t.reports
  {
    hide Moved, Grounded, Exclusive, SomeFailed, Ready, Runnable, HeldBy;
  }

  // ---------------------------------------------------------------------------
  // Runs that come to rest

  /** Some fail_run step fails for good in the reference outcome. */
  ghost predicate Fatal(job: Job, ends: map<StepId, Status>) {
    exists x :: x in job.config && x in ends && job.config[x].FailsRun() && ends[x] == Failed
  }

  /** Started, with no callback and no retry timer to wait for. */
  ghost predicate Quiet(s: RunState) {
    s.started && s.outstanding == {} && s.retrying == {}
  }

  lemma AbortIsFatal(job: Job, o: Origin, oracle: Oracle, s: RunState, e: Event, t: RunState, ends: map<StepId, Status>, order: seq<StepId>)
    requires job.Valid() && ValidOrigin(job, o) && Inv(job, o, s) && OracleInv(job, o, oracle, s) && !s.stopped
    requires Next(job, s, e, t) && ConsistentEvent(oracle, s, e) && t.stopped && !e.ContextCancelled?
    requires TopologicalOrder(order, job.config.Keys, job.Inner()) && Solves(job, o, oracle, ends)
    ensures Fatal(job, ends)
  {
    hide TopologicalOrder;
    assert e.Callback? && e.exitCode != 0 && !RetryGranted(job, s, e.step) && job.config[e.step].FailsRun();
    SettledStateMatches(job, o, oracle, s, ends, order);
    assert StepInv(job, o, s, e.step) && OracleStep(job, o, oracle, s, e.step);
    ExhaustedStepFails(job, o, oracle, s, e.step, ends);
  }

  lemma StepNeverStops(job: Job, o: Origin, oracle: Oracle, s: RunState, e: Event, t: RunState, ends: map<StepId, Status>, order: seq<StepId>)
    requires job.Valid() && ValidOrigin(job, o) && Shaped(job, s) && Inv(job, o, s) && OracleInv(job, o, oracle, s) && !s.stopped
    requires Next(job, s, e, t) && ConsistentEvent(oracle, s, e) && e != ContextCancelled
    requires TopologicalOrder(order, job.config.Keys, job.Inner()) && Solves(job, o, oracle, ends) && !Fatal(job, ends)
    ensures !t.stopped
  {
    if t.stopped {
      AbortIsFatal(job, o, oracle, s, e, t, ends, order);
    }
  }

  /** Without a cancellation, and without a fatal step in the reference outcome, a run never stops. */
  lemma {:induction false} NeverStops(
    job: Job, o: Origin, oracle: Oracle, states: seq<RunState>, events: seq<Event>, ends: map<StepId, Status>, order: seq<StepId>, i: nat)
    requires job.Valid() && ValidOrigin(job, o) && Execution(job, o, states, events) && Consistent(oracle, states, events)
    requires TopologicalOrder(order, job.config.Keys, job.Inner()) && Solves(job, o, oracle, ends)
    requires ContextCancelled !in events && !Fatal(job, ends)
    requires i < |states|
    ensures !states[i].stopped
  {
    hide TopologicalOrder, Solves, Fatal, ConsistentEvent, Inv, OracleInv, Next, Initial, Shaped;
    if i > 0 {
      NeverStops(job, o, oracle, states, events, ends, order, i - 1);
      ExecutionInv(job, o, states, events, i - 1);
      ExecutionOracleInv(job, o, oracle, states, events, i - 1);
      assert events[i - 1] in events;
      StepNeverStops(job, o, oracle, states[i - 1], events[i - 1], states[i], ends, order);
    } else {
      StartsUnstopped(job, o);
    }
  }

  lemma StartsUnstopped(job: Job, o: Origin)
    ensures !Initial(job, o).stopped && Initial(job, o).reports == []
  {
  }

  lemma OrderLets(job: Job, o: Origin, order: seq<StepId>)
    requires ValidOrigin(job, o) && TopologicalOrder(order, job.config.Keys, job.Inner())
    ensures Acyclic(Waiting(o), WaitingEdges(job, o))
  {
    hide TopologicalOrder, Acyclic;
    PartOfOrder(order, job.config.Keys, job.Inner(), Waiting(o));
    assert WaitingEdges(job, o) == set d | d in job.Inner() && d.stepId in Waiting(o) && d.dependsOn in Waiting(o);
  }

  lemma QuietSettles(job: Job, o: Origin, s: RunState, order: seq<StepId>)
    requires job.Valid() && ValidOrigin(job, o) && Inv(job, o, s) && !s.stopped && Quiet(s)
    requires TopologicalOrder(order, job.config.Keys, job.Inner()) && forall x :: x in job.config ==> !Stuck(job, o, x)
    ensures s.settled == job.config.Keys
  {
    OrderLets(job, o, order);
    hide Inv, Stuck, TopologicalOrder, Acyclic, Waiting, WaitingEdges;
    if s.settled != job.config.Keys { NoDeadlock(job, o, s); }
  }

  /** A run that nobody cancels, without stuck or fatal steps, comes to rest exactly in the
      reference outcome, whatever the order of its callbacks and timers. RunsTerminate says that
      it does come to rest. */
  lemma QuietRunMatches(job: Job, o: Origin, oracle: Oracle, states: seq<RunState>, events: seq<Event>, order: seq<StepId>)
    requires job.Valid() && ValidOrigin(job, o) && Execution(job, o, states, events) && Consistent(oracle, states, events)
    requires TopologicalOrder(order, job.config.Keys, job.Inner()) && forall x :: x in order ==> x in job.config
    requires ContextCancelled !in events && !Fatal(job, Ends(job, o, oracle, order))
    requires (forall x :: x in job.config ==> !Stuck(job, o, x)) && Quiet(states[|events|])
    ensures states[|events|].status == Ends(job, o, oracle, order)
  {
    var s := states[|events|];
    EndsSolves(job, o, oracle, order);
    NeverStops(job, o, oracle, states, events, Ends(job, o, oracle, order), order, |events|);
    ExecutionInv(job, o, states, events, |events|);
    QuietSettles(job, o, s, order);
    hide *;
    SettledRunMatches(job, o, oracle, states, events, order, |events|);
  }

  /** Such a run is cut short exactly if some fail_run step fails in the reference outcome: which runs
      are aborted does not depend on the schedule either. */
  lemma QuietRunAbortsIff(job: Job, o: Origin, oracle: Oracle, states: seq<RunState>, events: seq<Event>, order: seq<StepId>)
    requires job.Valid() && ValidOrigin(job, o) && Execution(job, o, states, events) && Consistent(oracle, states, events)
    requires TopologicalOrder(order, job.config.Keys, job.Inner()) && forall x :: x in order ==> x in job.config
    requires ContextCancelled !in events
    requires (forall x :: x in job.config ==> !Stuck(job, o, x)) && Quiet(states[|events|])
    ensures var ends := Ends(job, o, oracle, order);
      states[|events|].stopped <==> exists x :: x in job.config && x in ends && job.config[x].onFailure == "fail_run" && ends[x] == Failed
  {
    var s, ends := states[|events|], Ends(job, o, oracle, order);
    EndsSolves(job, o, oracle, order);
    ExecutionInv(job, o, states, events, |events|);
    if Fatal(job, ends) {
      var x :| x in job.config && x in ends && job.config[x].FailsRun() && ends[x] == Failed;
      if !s.stopped {
        QuietSettles(job, o, s, order);
        SettledRunMatches(job, o, oracle, states, events, order, |events|);
        NoFatalSettles(job, o, s, x);
      }
      assert job.config[x].onFailure == "fail_run";
    } else {
      NeverStops(job, o, oracle, states, events, ends, order, |events|);
    }
    hide Inv, Execution, Consistent, TopologicalOrder, Solves, Ends, Stuck;
  }

  lemma NoFatalSettles(job: Job, o: Origin, s: RunState, x: StepId)
    requires job.Valid() && ValidOrigin(job, o) && Inv(job, o, s) && !s.stopped && x in s.settled && job.config.Keys == s.settled
    requires x in s.status && s.status[x] == Failed
    ensures x in job.config && !job.config[x].FailsRun()
  {
    assert StepInv(job, o, s, x);
  }

  /** Two runs of the same job whose attempts have the same outcomes report the same verdict, and
      if nobody cancels them and no step is stuck or fatal they come to rest in the same status
      map. */
  lemma Confluence(
    job: Job, o: Origin, oracle: Oracle, order: seq<StepId>,
    states: seq<RunState>, events: seq<Event>, states': seq<RunState>, events': seq<Event>)
    requires job.Valid() && ValidOrigin(job, o)
    requires TopologicalOrder(order, job.config.Keys, job.Inner()) && forall x :: x in order ==> x in job.config
    requires Execution(job, o, states, events) && Consistent(oracle, states, events)
    requires Execution(job, o, states', events') && Consistent(oracle, states', events')
    ensures var s, s' := states[|events|], states'[|events'|];
      && (s.reports != [] && s'.reports != [] ==> s.reports == s'.reports)
      && (Quiet(s) && Quiet(s') && ContextCancelled !in events + events'
          && (forall x :: x in job.config ==> !Stuck(job, o, x)) && !Fatal(job, Ends(job, o, oracle, order))
          ==> s.status == s'.status)
  {
    var s, s' := states[|events|], states'[|events'|];
    if s.reports != [] && s'.reports != [] {
      VerdictMatches(job, o, oracle, states, events, order, |events|);
      VerdictMatches(job, o, oracle, states', events', order, |events'|);
    }
    if Quiet(s) && Quiet(s') && ContextCancelled !in events + events'
       && (forall x :: x in job.config ==> !Stuck(job, o, x)) && !Fatal(job, Ends(job, o, oracle, order)) {
      QuietRunMatches(job, o, oracle, states, events, order);
      QuietRunMatches(job, o, oracle, states', events', order);
    }
  }
}
