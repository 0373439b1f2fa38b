/** What a job run may do, told without the scheduler's counters and lists. */
module RunMachine {
  import opened JobModel

  /** A run between two critical sections of the scheduler.
      settled: counted as finished and made known to the dependents.
      outstanding: handed to the executor, which still owes its completion callback.
      retrying: failed with retries left, waiting for the retry timer.
      launches: executor calls so far, per step.
      stopped: the run's context is cancelled.
      reports: the arguments of the run-completion callback, in call order. */
  datatype RunState = RunState(
    status: map<StepId, Status>,
    attempt: map<StepId, int>,
    settled: set<StepId>,
    outstanding: set<StepId>,
    retrying: set<StepId>,
    launches: map<StepId, nat>,
    started: bool,
    stopped: bool,
    reports: seq<Status>)

  datatype Event =
    | Start
    | Callback(step: StepId, exitCode: int)
    | RetryTimer(step: StepId)
    | ContextCancelled

  ghost predicate Shaped(job: Job, s: RunState) {
    && s.status.Keys == s.attempt.Keys == s.launches.Keys == job.config.Keys
    && s.settled <= job.config.Keys
    && s.outstanding <= job.config.Keys
    && s.retrying <= job.config.Keys
    && s.settled !! s.outstanding !! s.retrying
  }

  ghost predicate DepsSettled(job: Job, settled: set<StepId>, x: StepId) {
    forall d :: d in job.edges && d.stepId == x ==> d.dependsOn in settled
  }

  /** Some settled dependency of x ended other than Completed. */
  ghost predicate FailedDep(job: Job, status: map<StepId, Status>, settled: set<StepId>, x: StepId)
    requires settled <= status.Keys
  {
    exists d :: d in job.edges && d.stepId == x && d.dependsOn in settled && status[d.dependsOn] != Completed
  }

  ghost predicate Runnable(job: Job, status: map<StepId, Status>, settled: set<StepId>, x: StepId)
    requires settled <= status.Keys && x in job.config
  {
    job.config[x].AllDone() || !FailedDep(job, status, settled, x)
  }

  ghost predicate Ready(job: Job, status: map<StepId, Status>, settled: set<StepId>, x: StepId)
    requires x in status
  {
    status[x] == Pending && DepsSettled(job, settled, x)
  }

  /** x and y are different steps that want the same session. */
  predicate Conflict(job: Job, x: StepId, y: StepId)
    requires x in job.config && y in job.config
  {
    x != y && job.Key(x) != "" && job.Key(x) == job.Key(y)
  }

  ghost predicate HeldBy(job: Job, holders: set<StepId>, x: StepId)
    requires holders <= job.config.Keys && x in job.config
  {
    exists y :: y in holders && Conflict(job, x, y)
  }

  ghost predicate Exclusive(job: Job, holders: set<StepId>)
    requires holders <= job.config.Keys
  {
    forall x, y {:trigger Conflict(job, x, y)} :: x in holders && y in holders ==> !Conflict(job, x, y)
  }

  ghost predicate SomeFailed(status: map<StepId, Status>) {
    exists x :: x in status && status[x] == Failed
  }

  function Verdict(failed: bool): Status {
    if failed then Failed else Completed
  }

  // ---------------------------------------------------------------------------
  // Transitions

  /** The steps of to that are not in from, listed so that each depends only on from and on steps
      listed before it. */
  ghost predicate Builds(job: Job, from: set<StepId>, to: set<StepId>, order: seq<StepId>) {
    && Distinct(order) && (forall x :: x in order ==> x !in from) && (forall x :: x in to <==> x in from || x in order)
    && (forall i, d :: 0 <= i < |order| && d in job.edges && d.stepId == order[i] ==> d.dependsOn in from || d.dependsOn in order[..i])
  }

  /** Steps settle one after the other, none before its dependencies. */
  ghost predicate Grounded(job: Job, from: set<StepId>, to: set<StepId>) {
    exists order :: Builds(job, from, to, order)
  }

  /** Skips and launches that follow from the settled set of m. Which of several steps
      wanting one free session gets it is left open; that some step gets it is not. */
  ghost predicate Advance(job: Job, m: RunState, t: RunState)
    requires job.Valid() && Shaped(job, m)
  {
    && AdvancePart(job, m, t)
    && (forall x {:trigger Ready(job, t.status, t.settled, x)} :: x in job.config && Ready(job, t.status, t.settled, x) ==> Runnable(job, t.status, t.settled, x) && HeldBy(job, t.outstanding, x))
  }

  ghost predicate AdvancePart(job: Job, m: RunState, t: RunState)
    requires job.Valid() && Shaped(job, m)
  {
    && Shaped(job, t)
    && m.settled <= t.settled && m.outstanding <= t.outstanding && Grounded(job, m.settled, t.settled)
    && t.attempt == m.attempt && t.retrying == m.retrying
    && t.started == m.started && t.stopped == m.stopped && t.reports == m.reports
    && (forall x {:trigger Moved(job, m, t, x)} :: x in job.config ==> Moved(job, m, t, x))
    && Exclusive(job, t.outstanding)
  }

  /** What Advance does to one step. */
  ghost predicate Moved(job: Job, m: RunState, t: RunState, x: StepId)
    requires job.Valid() && Shaped(job, m) && Shaped(job, t) && x in job.config
  {
    if x in t.settled && x !in m.settled then
      && m.status[x] == Pending && t.status[x] == Skipped && t.launches[x] == m.launches[x]
      && DepsSettled(job, t.settled, x) && !Runnable(job, t.status, t.settled, x)
    else if x in t.outstanding && x !in m.outstanding then
      && m.status[x] == Pending && t.status[x] == Running && t.launches[x] == m.launches[x] + 1
      && DepsSettled(job, t.settled, x) && Runnable(job, t.status, t.settled, x)
    else
      t.status[x] == m.status[x] && t.launches[x] == m.launches[x]
  }

  predicate RetryGranted(job: Job, s: RunState, x: StepId)
    requires x in job.config && x in s.attempt
  {
    job.config[x].maxRetries > 0 && s.attempt[x] <= job.config[x].maxRetries
  }

  ghost predicate ScheduleRetry(s: RunState, x: StepId, t: RunState)
    requires x in s.attempt
  {
    t == s.(status := s.status[x := Failed], attempt := s.attempt[x := s.attempt[x] + 1],
            outstanding := s.outstanding - {x}, retrying := s.retrying + {x})
  }

  function Swept(st: Status): Status {
    match st
    case Pending => Skipped
    case Running => Cancelled
    case _ => st
  }

  ghost predicate AbortRun(s: RunState, x: StepId, t: RunState) {
    && t == s.(status := t.status, outstanding := s.outstanding - {x}, stopped := true, reports := s.reports + [Failed])
    && t.status.Keys == s.status.Keys
    && forall y :: y in s.status ==> t.status[y] == if y == x then Failed else Swept(s.status[y])
  }

  function Finished(s: RunState, x: StepId, exitCode: int): RunState {
    s.(status := s.status[x := if exitCode == 0 then Completed else Failed],
       settled := s.settled + {x}, outstanding := s.outstanding - {x})
  }

  ghost predicate Settle(job: Job, s: RunState, x: StepId, exitCode: int, t: RunState)
    requires job.Valid() && Shaped(job, s) && x in s.outstanding
  {
    && Advance(job, Finished(s, x, exitCode), t.(reports := s.reports))
    && t.reports == if t.settled == job.config.Keys then s.reports + [Verdict(SomeFailed(t.status))] else s.reports
  }

  ghost predicate OnCallback(job: Job, s: RunState, x: StepId, exitCode: int, t: RunState)
    requires job.Valid() && Shaped(job, s) && x in s.outstanding
  {
    if s.stopped then
      t == s.(outstanding := s.outstanding - {x})
    else if exitCode != 0 && RetryGranted(job, s, x) then
      ScheduleRetry(s, x, t)
    else if exitCode != 0 && job.config[x].FailsRun() then
      AbortRun(s, x, t)
    else
      Settle(job, s, x, exitCode, t)
  }

  ghost predicate OnRetryTimer(job: Job, s: RunState, x: StepId, t: RunState)
    requires job.Valid() && Shaped(job, s) && x in s.retrying
  {
    var woken := s.(retrying := s.retrying - {x});
    if s.stopped then
      t == woken
    else if HeldBy(job, s.outstanding, x) then
      t == woken.(status := s.status[x := Pending])
    else
      t == woken.(status := s.status[x := Running], outstanding := s.outstanding + {x},
                  launches := s.launches[x := s.launches[x] + 1])
  }

  ghost predicate Enabled(s: RunState, e: Event) {
    match e
    case Start => !s.started
    case Callback(x, _) => x in s.outstanding
    case RetryTimer(x) => x in s.retrying
    case ContextCancelled => s.started && !s.stopped
  }

  ghost predicate Next(job: Job, s: RunState, e: Event, t: RunState)
    requires job.Valid() && Shaped(job, s)
  {
    && Enabled(s, e)
    && match e
       case Start => Advance(job, s.(started := true), t) && t.settled == s.settled
       case Callback(x, exitCode) => OnCallback(job, s, x, exitCode, t)
       case RetryTimer(x) => OnRetryTimer(job, s, x, t)
       case ContextCancelled => t == s.(stopped := true)
  }

  // ---------------------------------------------------------------------------
  // Invariant

  /** The statuses a runner may be built from, with the attempt counters a fresh run or a
      reset leaves: the runner treats everything but Pending and Completed as inert. */
  datatype Origin = Origin(status: map<StepId, Status>, attempt: map<StepId, int>)

  ghost predicate ValidOrigin(job: Job, o: Origin) {
    && o.status.Keys == o.attempt.Keys == job.config.Keys
    && forall x :: x in o.status && o.status[x] == Pending ==> o.attempt[x] == 1
  }

  ghost function InitiallyDone(o: Origin): set<StepId> {
    set x | x in o.status && o.status[x] == Completed
  }

  ghost predicate Inert(o: Origin, x: StepId) {
    x in o.status && o.status[x] != Pending && o.status[x] != Completed
  }

  ghost function Initial(job: Job, o: Origin): RunState {
    RunState(o.status, o.attempt, InitiallyDone(o), {}, {}, map x | x in o.status :: 0, false, false, [])
  }

  /** Where one step of a live run stands. */
  ghost predicate StepInv(job: Job, o: Origin, s: RunState, x: StepId)
    requires job.Valid() && ValidOrigin(job, o) && Shaped(job, s) && x in job.config
  {
    if x in s.settled then
      if o.status[x] == Completed then
        s.status[x] == Completed && s.launches[x] == 0
      else
        && o.status[x] == Pending
        && DepsSettled(job, s.settled, x)
        && (s.status[x] == Completed || s.status[x] == Failed || s.status[x] == Skipped)
        && (s.status[x] == Skipped <==> !Runnable(job, s.status, s.settled, x))
        && s.launches[x] == (if s.status[x] == Skipped then 0 else s.attempt[x])
        && 1 <= s.attempt[x] <= job.config[x].MaxLaunches()
        && (s.status[x] == Failed ==> s.attempt[x] == job.config[x].MaxLaunches() && !job.config[x].FailsRun())
    else if o.status[x] == Pending then
      && 1 <= s.attempt[x] <= job.config[x].MaxLaunches()
      && s.launches[x] == s.attempt[x] - (if x in s.outstanding then 0 else 1)
      && s.status[x] == (if x in s.outstanding then Running else if x in s.retrying then Failed else Pending)
      && (x in s.outstanding || x in s.retrying || s.attempt[x] > 1 ==> DepsSettled(job, s.settled, x) && Runnable(job, s.status, s.settled, x))
    else
      && Inert(o, x) && s.status[x] == o.status[x] && s.launches[x] == 0
      && x !in s.outstanding && x !in s.retrying
  }

  /** A started run leaves a ready step waiting only for a session that a running step
      holds or a retrying step is coming back for. */
  ghost predicate NoStarvation(job: Job, s: RunState)
    requires job.Valid() && Shaped(job, s)
  {
    forall x {:trigger Ready(job, s.status, s.settled, x)} :: x in job.config && Ready(job, s.status, s.settled, x) ==>
      Runnable(job, s.status, s.settled, x) && HeldBy(job, s.outstanding + s.retrying, x)
  }

  ghost predicate LiveInv(job: Job, o: Origin, s: RunState)
    requires job.Valid() && ValidOrigin(job, o) && Shaped(job, s)
  {
    && (forall x {:trigger StepInv(job, o, s, x)} :: x in job.config ==> StepInv(job, o, s, x))
    && Exclusive(job, s.outstanding)
    && InitiallyDone(o) <= s.settled && Grounded(job, InitiallyDone(o), s.settled)
    && (if s.started then NoStarvation(job, s)
        else s.settled == InitiallyDone(o) && s.outstanding == {} && s.retrying == {} &&
             forall x {:trigger s.attempt[x]} :: x in job.config ==> s.attempt[x] == o.attempt[x])
    && s.reports == (if s.settled == job.config.Keys && s.settled != InitiallyDone(o) then [Verdict(SomeFailed(s.status))] else [])
  }

  /** What stays true once the context is cancelled. */
  ghost predicate ReportInv(job: Job, s: RunState) {
    && |s.reports| <= 1
    && (s.reports != [] ==>
        && (forall x :: x in s.status ==> s.status[x] != Pending && s.status[x] != Running)
        && s.reports[0] == Verdict(SomeFailed(s.status)))
  }

  /** Launches are bounded, and only steps that were pending at the start are ever touched. */
  ghost predicate Bounded(job: Job, o: Origin, s: RunState, x: StepId)
    requires job.Valid() && ValidOrigin(job, o) && Shaped(job, s) && x in job.config
  {
    if o.status[x] == Pending then
      && s.launches[x] <= job.config[x].MaxLaunches() && 1 <= s.attempt[x] <= job.config[x].MaxLaunches()
      && (x in s.outstanding || x in s.retrying ==> s.status[x] != Pending)
    else
      s.launches[x] == 0 && s.status[x] != Pending && x !in s.outstanding && x !in s.retrying
  }

  ghost predicate Inv(job: Job, o: Origin, s: RunState)
    requires job.Valid() && ValidOrigin(job, o)
  {
    && Shaped(job, s)
    && (!s.started ==> !s.stopped)
    && (!s.stopped ==> LiveInv(job, o, s))
    && ReportInv(job, s)
    && (forall x {:trigger Bounded(job, o, s, x)} :: x in job.config ==> Bounded(job, o, s, x))
  }
}
