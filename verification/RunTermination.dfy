/** Every run is finite, and a run that is not cancelled ends with its completion report. */
module RunTermination {
  import opened JobModel
  import opened RunMachine
  import opened RunTheorems

  ghost function Sum(ids: seq<StepId>, f: map<StepId, nat>): nat
    requires forall x :: x in ids ==> x in f
  {
    if ids == [] then 0 else f[ids[|ids| - 1]] + Sum(ids[..|ids| - 1], f)
  }

  lemma {:induction false} SumMonotone(ids: seq<StepId>, f: map<StepId, nat>, g: map<StepId, nat>)
    requires forall x :: x in ids ==> x in f && x in g && f[x] <= g[x]
    ensures Sum(ids, f) <= Sum(ids, g)
  {
    if ids != [] {
      SumMonotone(ids[..|ids| - 1], f, g);
    }
  }

  lemma {:induction false} SumStrict(ids: seq<StepId>, f: map<StepId, nat>, g: map<StepId, nat>, x: StepId)
    requires forall y :: y in ids ==> y in f && y in g && f[y] <= g[y]
    requires x in ids && f[x] < g[x]
    ensures Sum(ids, f) < Sum(ids, g)
  {
    var n := |ids| - 1;
    if x in ids[..n] {
      SumStrict(ids[..n], f, g, x);
    } else {
      assert ids[n] == x;
      SumMonotone(ids[..n], f, g);
    }
  }

  lemma {:induction false} SumScale(ids: seq<StepId>, f: map<StepId, nat>, g: map<StepId, nat>, k: nat)
    requires forall x :: x in ids ==> x in f && x in g && g[x] == k * f[x]
    ensures Sum(ids, g) == k * Sum(ids, f)
  {
    if ids != [] {
      SumScale(ids[..|ids| - 1], f, g, k);
    }
  }

  // ---------------------------------------------------------------------------
  // The measure

  /** What a step may still cost the run: three units per attempt left, plus where it stands in
      the current attempt (waiting for its timer, pending, running). */
  ghost function Rank(job: Job, s: RunState, x: StepId): nat
    requires Shaped(job, s) && x in job.config
  {
    var max := job.config[x].MaxLaunches();
    var left: nat := if s.attempt[x] <= max then 3 * (max - s.attempt[x]) else 0;
    if x in s.retrying then left + 3
    else if x in s.outstanding then left + 1
    else if s.status[x] == Pending then left + 2
    else 0
  }

  ghost function Ranks(job: Job, s: RunState): map<StepId, nat>
    requires Shaped(job, s)
  {
    map x | x in job.config :: Rank(job, s, x)
  }

  ghost function Budget(job: Job): map<StepId, nat> {
    map x | x in job.config :: job.config[x].MaxLaunches()
  }

  ghost predicate IsProgress(e: Event) {
    e.Callback? || e.RetryTimer?
  }

  lemma MovedRankDrops(job: Job, m: RunState, t: RunState, x: StepId)
    requires job.Valid() && Shaped(job, m) && AdvancePart(job, m, t) && x in job.config
    ensures Rank(job, t, x) <= Rank(job, m, x)
  {
    hide DepsSettled, Runnable, Exclusive;
    assert Moved(job, m, t, x);
  }

  lemma AbortRankDrops(job: Job, o: Origin, s: RunState, y: StepId, t: RunState, x: StepId)
    requires job.Valid() && Shaped(job, s) && Shaped(job, t) && x in job.config && y in s.outstanding && AbortRun(s, y, t)
    requires ValidOrigin(job, o) && Bounded(job, o, s, x)
    ensures Rank(job, t, x) <= Rank(job, s, x)
    ensures y == x ==> Rank(job, t, x) < Rank(job, s, x)
  {
  }

  lemma SettleRankDrops(job: Job, o: Origin, s: RunState, y: StepId, exitCode: int, t: RunState, x: StepId)
    requires job.Valid() && Shaped(job, s) && Shaped(job, t) && x in job.config && y in s.outstanding
    requires ValidOrigin(job, o) && Bounded(job, o, s, x) && Settle(job, s, y, exitCode, t)
    ensures Rank(job, t, x) <= Rank(job, s, x)
    ensures y == x ==> Rank(job, t, x) < Rank(job, s, x)
  {
    MovedRankDrops(job, Finished(s, y, exitCode), t.(reports := s.reports), x);
    hide Advance;
  }

  lemma CallbackRankDrops(job: Job, o: Origin, s: RunState, y: StepId, exitCode: int, t: RunState, x: StepId)
    requires job.Valid() && ValidOrigin(job, o) && Shaped(job, s) && Shaped(job, t) && x in job.config && y in s.outstanding
    requires Bounded(job, o, s, x) && Bounded(job, o, t, x) && OnCallback(job, s, y, exitCode, t)
    ensures Rank(job, t, x) <= Rank(job, s, x)
    ensures y == x ==> Rank(job, t, x) < Rank(job, s, x)
  {
    if s.stopped {
    } else if exitCode != 0 && RetryGranted(job, s, y) {
      assert ScheduleRetry(s, y, t);
    } else if exitCode != 0 && job.config[y].FailsRun() {
      AbortRankDrops(job, o, s, y, t, x);
    } else {
      SettleRankDrops(job, o, s, y, exitCode, t, x);
    }
    hide Advance, AbortRun;
  }

  /** No event raises the rank of a step, and the step of a callback or timer event loses rank. */
  lemma RankDrops(job: Job, o: Origin, s: RunState, e: Event, t: RunState, x: StepId)
    requires job.Valid() && ValidOrigin(job, o) && Inv(job, o, s) && Inv(job, o, t) && Next(job, s, e, t)
    requires x in job.config
    ensures Rank(job, t, x) <= Rank(job, s, x)
    ensures IsProgress(e) && e.step == x ==> Rank(job, t, x) < Rank(job, s, x)
  {
    assert Bounded(job, o, s, x) && Bounded(job, o, t, x);
    match e {
      case Start => assert Moved(job, s.(started := true), t, x);
      case ContextCancelled =>
      case RetryTimer(y) =>
      case Callback(y, exitCode) => CallbackRankDrops(job, o, s, y, exitCode, t, x);
    }
  }

  lemma MeasureDrops(job: Job, o: Origin, s: RunState, e: Event, t: RunState, ids: seq<StepId>)
    requires job.Valid() && ValidOrigin(job, o) && Inv(job, o, s) && Inv(job, o, t) && Next(job, s, e, t)
    requires (set x | x in ids) == job.config.Keys
    ensures Sum(ids, Ranks(job, t)) + (if IsProgress(e) then 1 else 0) <= Sum(ids, Ranks(job, s))
  {
    forall x | x in ids ensures x in job.config && Rank(job, t, x) <= Rank(job, s, x) {
      assert x in (set y | y in ids);
      RankDrops(job, o, s, e, t, x);
    }
    if IsProgress(e) {
      assert e.step in (set y | y in ids);
      RankDrops(job, o, s, e, t, e.step);
      SumStrict(ids, Ranks(job, t), Ranks(job, s), e.step);
    } else {
      SumMonotone(ids, Ranks(job, t), Ranks(job, s));
    }
  }

  lemma {:induction false} MeasureBoundsLength(job: Job, o: Origin, states: seq<RunState>, events: seq<Event>, ids: seq<StepId>, i: nat)
    requires job.Valid() && ValidOrigin(job, o) && Execution(job, o, states, events)
    requires (set x | x in ids) == job.config.Keys && i <= |events|
    ensures Shaped(job, states[i]) && forall x :: x in ids ==> x in job.config
    ensures i + Sum(ids, Ranks(job, states[i])) <=
      Sum(ids, Ranks(job, Initial(job, o))) + (if states[i].started then 1 else 0) + (if states[i].stopped then 1 else 0)
  {
    hide Inv, Next, Initial, Sum, Ranks, ValidOrigin, Job.Valid;
    assert forall x :: x in ids ==> x in (set y | y in ids);
    ExecutionInv(job, o, states, events, i);
    InvIsShaped(job, o, states[i]);
    hide Shaped;
    if i > 0 {
      MeasureBoundsLength(job, o, states, events, ids, i - 1);
      ExecutionInv(job, o, states, events, i - 1);
      MeasureStep(job, o, states[i - 1], events[i - 1], states[i], ids);
    }
  }

  /** Each event costs a unit of the measure, or is the start or the cancellation. */
  lemma MeasureStep(job: Job, o: Origin, s: RunState, e: Event, t: RunState, ids: seq<StepId>)
    requires job.Valid() && ValidOrigin(job, o) && Inv(job, o, s) && Inv(job, o, t) && Next(job, s, e, t)
    requires (set x | x in ids) == job.config.Keys && forall x :: x in ids ==> x in job.config
    ensures 1 + Sum(ids, Ranks(job, t)) + (if s.started then 1 else 0) + (if s.stopped then 1 else 0) <=
      Sum(ids, Ranks(job, s)) + (if t.started then 1 else 0) + (if t.stopped then 1 else 0)
  {
    MeasureDrops(job, o, s, e, t, ids);
    FlagsGrow(job, s, e, t);
    hide Sum, Ranks, Next, LiveInv, ReportInv, Bounded;
  }

  lemma FlagsGrow(job: Job, s: RunState, e: Event, t: RunState)
    requires job.Valid() && Shaped(job, s) && Next(job, s, e, t)
    ensures s.started ==> t.started
    ensures s.stopped ==> t.stopped
    ensures e.Start? ==> !s.started && t.started
    ensures e.ContextCancelled? ==> !s.stopped && t.stopped
  {
  }

  /** However callbacks, timers and cancellation interleave, a run sees at most three events per
      permitted attempt, plus its start and one cancellation. */
  lemma RunsTerminate(job: Job, o: Origin, states: seq<RunState>, events: seq<Event>, ids: seq<StepId>)
    requires job.Valid() && ValidOrigin(job, o) && Execution(job, o, states, events)
    requires (set x | x in ids) == job.config.Keys
    ensures forall x :: x in ids ==> x in job.config
    ensures |events| <= 3 * Sum(ids, Budget(job)) + 2
  {
    MeasureBoundsLength(job, o, states, events, ids, |events|);
    var cap: map<StepId, nat> := map x | x in job.config :: 3 * job.config[x].MaxLaunches();
    SumMonotone(ids, Ranks(job, Initial(job, o)), cap);
    SumScale(ids, Budget(job), cap, 3);
  }

  /** The executor is asked to run a step at most once per permitted attempt, all steps together. */
  lemma TotalLaunchesBounded(job: Job, o: Origin, states: seq<RunState>, events: seq<Event>, ids: seq<StepId>, i: nat)
    requires job.Valid() && ValidOrigin(job, o) && Execution(job, o, states, events)
    requires (set x | x in ids) == job.config.Keys && i < |states|
    ensures forall x :: x in ids ==> x in job.config && x in states[i].launches
    ensures Sum(ids, states[i].launches) <= Sum(ids, Budget(job))
  {
    ExecutionInv(job, o, states, events, i);
    forall x | x in ids ensures x in job.config && states[i].launches[x] <= job.config[x].MaxLaunches() {
      assert x in (set y | y in ids);
      LaunchesBounded(job, o, states, events, i, x);
    }
    SumMonotone(ids, states[i].launches, Budget(job));
  }

  // ---------------------------------------------------------------------------
  // Liveness

  lemma {:induction false} StopMeansReportOrCancel(job: Job, o: Origin, states: seq<RunState>, events: seq<Event>, i: nat)
    requires job.Valid() && ValidOrigin(job, o) && Execution(job, o, states, events)
    requires i < |states| && states[i].stopped && ContextCancelled !in events
    ensures |states[i].reports| == 1
  {
    ExecutionInv(job, o, states, events, i);
    if i > 0 {
      assert Next(job, states[i - 1], events[i - 1], states[i]);
      if states[i - 1].stopped {
        StopMeansReportOrCancel(job, o, states, events, i - 1);
      } else {
        assert events[i - 1] in events;
      }
    }
  }

  /** A run that nobody cancels, that had something pending when it was built, no stuck step and no
      cycle among the pending ones, can only come to rest having reported exactly once. Together
      with RunsTerminate: it does come to rest. */
  lemma UncancelledRunReports(job: Job, o: Origin, states: seq<RunState>, events: seq<Event>)
    requires job.Valid() && ValidOrigin(job, o) && Execution(job, o, states, events)
    requires ContextCancelled !in events && CanFinish(job, o) && Waiting(o) != {}
    requires var s := states[|events|]; s.started && s.outstanding == {} && s.retrying == {}
    ensures |states[|events|].reports| == 1
  {
    if states[|events|].stopped {
      StopMeansReportOrCancel(job, o, states, events, |events|);
    } else {
      QuietRunHasReported(job, o, states, events);
    }
  }
}
