/** Each critical section of the scheduler, seen from outside: it takes a run with sound books to a
    run with sound books, by one transition of the run machine. */
module Sections {
  import opened JobModel
  import opened RunMachine
  import opened RunInvariant
  import opened Bookkeeping
  import opened WorkQueue
  import opened RunSnapshot

  function Released(job: Job, keys: set<string>, x: StepId): set<string>
    requires x in job.config
  {
    if job.Key(x) != "" then keys - {job.Key(x)} else keys
  }

  lemma ReleasedKeeps(job: Job, keys: set<string>, outstanding: set<StepId>, x: StepId)
    requires outstanding <= job.config.Keys && x in outstanding
    requires KeysHeld(job, keys, outstanding) && Exclusive(job, outstanding)
    ensures KeysHeld(job, Released(job, keys, x), outstanding - {x})
  {
    ReleaseKeeps(job, keys, outstanding, x);
    if job.Key(x) == "" { assert "" !in keys; assert keys - {job.Key(x)} == keys; }
  }

  function FinishedBooks(job: Job, b: Books, x: StepId, exitCode: int): Books
    requires x in job.config
  {
    b.(activeKeys := Released(job, b.activeKeys, x), completed := b.completed + 1, failed := b.failed || exitCode != 0)
  }

  // ---------------------------------------------------------------------------
  // A callback settles a step

  /** What the invariant says about an outstanding step of a live run. */
  lemma OutstandingFacts(job: Job, o: Origin, s: RunState, x: StepId)
    requires job.Valid() && ValidOrigin(job, o) && Inv(job, o, s) && !s.stopped && x in s.outstanding
    ensures Shaped(job, s) && x in job.config && x !in s.settled && s.status[x] == Running && s.reports == []
    ensures Exclusive(job, s.outstanding)
  {
    assert StepInv(job, o, s, x);
  }

  lemma FinishMoves(job: Job, s: RunState, x: StepId, exitCode: int)
    requires job.Valid() && Shaped(job, s) && x in s.outstanding && x !in s.settled
    ensures MovesOnly(s, Finished(s, x, exitCode), x)
  {
  }

  lemma FinishTotals(job: Job, s: RunState, b: Books, x: StepId, exitCode: int)
    requires job.Valid() && Shaped(job, s) && PendingIsIdle(s) && Totals(job, s, b)
    requires x in s.outstanding && x !in s.settled && Exclusive(job, s.outstanding)
    ensures Shaped(job, Finished(s, x, exitCode)) && PendingIsIdle(Finished(s, x, exitCode))
    ensures Totals(job, Finished(s, x, exitCode), FinishedBooks(job, b, x, exitCode))
  {
    FinishMoves(job, s, x, exitCode);
    MoveKeepsShape(job, s, Finished(s, x, exitCode), x);
    hide MovesOnly, KeysHeld, Released, Exclusive, PendingIsIdle, FailureAmong;
    ReleasedKeeps(job, b.activeKeys, s.outstanding, x);
    FailureJoins(s.status, s.settled, x, if exitCode == 0 then Completed else Failed);
  }

  lemma FinishBooks(job: Job, deps: seq<Dependency>, s: RunState, b: Books, x: StepId, exitCode: int)
    requires job.Valid() && Shaped(job, s) && QueueBooks(job, deps, s, b, s.settled)
    requires x in s.outstanding && x !in s.settled && Exclusive(job, s.outstanding) && s.status[x] == Running
    ensures Shaped(job, Finished(s, x, exitCode))
    ensures QueueBooks(job, deps, Finished(s, x, exitCode), FinishedBooks(job, b, x, exitCode), s.settled)
  {
    hide Totals, PendingIsIdle, Counted, FailedDep, Deferred, Released, Exclusive;
    var m := Finished(s, x, exitCode);
    FinishTotals(job, s, b, x, exitCode);
    forall y ensures FailedDep(job, s.status, s.settled, y) <==> FailedDep(job, m.status, s.settled, y) {
      FailedDepIgnores(job, s.status, m.status, s.settled, y);
    }
    DeferredUnmoved(job, s, b, x, m.status[x]);
  }

  /** A step that was not pending and does not become pending does not concern the deferred list. */
  lemma DeferredUnmoved(job: Job, s: RunState, b: Books, x: StepId, st: Status)
    requires job.Valid() && Shaped(job, s) && Totals(job, s, b) && x in job.config && s.status[x] != Pending && st != Pending
    requires Deferred(job, s.status, b.inDegree, b.failedUpstream, b.deferred)
    ensures Deferred(job, s.status[x := st], b.inDegree, b.failedUpstream, b.deferred)
  {
  }

  lemma AdvanceReflexive(job: Job, m: RunState)
    requires job.Valid() && Shaped(job, m) && Exclusive(job, m.outstanding)
    ensures AdvancePart(job, m, m)
  {
    GroundedStays(job, m.settled);
    forall x | x in job.config ensures Moved(job, m, m, x) {
    }
  }

  lemma SettleBegins(job: Job, deps: seq<Dependency>, o: Origin, s: RunState, b: Books, x: StepId, exitCode: int)
    requires job.Valid() && EdgesOf(job, deps) && ValidOrigin(job, o) && Inv(job, o, s) && s.started && !s.stopped
    requires x in s.outstanding && RestBooks(job, deps, s, b)
    ensures x in job.config && x in s.status
    ensures Finished(s, x, exitCode).outstanding == s.outstanding - {x} && Finished(s, x, exitCode).reports == s.reports
    ensures FinishedBooks(job, b, x, exitCode).failed <==> b.failed || exitCode != 0
    ensures Queueing(job, deps, Finished(s, x, exitCode), Finished(s, x, exitCode), FinishedBooks(job, b, x, exitCode),
                     s.settled, [WorkItem(x, exitCode != 0)], [])
  {
    hide Inv, Counted, Totals, Deferred, PendingIsIdle, FailedDep, Exclusive, QueueOk, AdvancePart, LaunchList;
    OutstandingFacts(job, o, s, x);
    var m := Finished(s, x, exitCode);
    FinishBooks(job, deps, s, b, x, exitCode);
    ExclusiveShrinks(job, s.outstanding, x);
    AdvanceReflexive(job, m);
    QueueBegins(m, s.settled, x, exitCode != 0);
    NothingLaunched(m.outstanding);
    hide QueueBooks;
  }

  lemma ExclusiveShrinks(job: Job, holders: set<StepId>, x: StepId)
    requires holders <= job.config.Keys && Exclusive(job, holders)
    ensures Exclusive(job, holders - {x})
  {
  }

  lemma NothingLaunched(outstanding: set<StepId>)
    ensures LaunchList([], outstanding, outstanding)
  {
    assert outstanding == outstanding + set x | x in [];
  }

  /** Counting tells whether every step has settled, and the failed flag whether one failed. */
  lemma SettleCounts(job: Job, deps: seq<Dependency>, m: RunState, t: RunState, b: Books, list: seq<StepId>)
    requires job.Valid() && Shaped(job, m) && Shaped(job, t) && Advance(job, m, t)
    requires RestBooks(job, deps, t, b) && LaunchList(list, m.outstanding, t.outstanding)
    ensures t.reports == m.reports
    ensures b.completed == |job.config| <==> t.settled == job.config.Keys
    ensures t.settled == job.config.Keys ==> (b.failed <==> SomeFailed(t.status)) && list == []
  {
    SubsetSize(t.settled, job.config.Keys);
    if list != [] {
      assert list[0] in t.outstanding && list[0] !in t.settled;
    }
  }

  lemma RestIgnoresReports(job: Job, deps: seq<Dependency>, t: RunState, b: Books, reports: seq<Status>)
    requires job.Valid() && Shaped(job, t) && RestBooks(job, deps, t, b)
    ensures Shaped(job, t.(reports := reports)) && RestBooks(job, deps, t.(reports := reports), b)
  {
  }

  lemma SettleIsNext(job: Job, s: RunState, x: StepId, exitCode: int, t: RunState, u: RunState)
    requires job.Valid() && Shaped(job, s) && !s.stopped && x in s.outstanding
    requires exitCode != 0 ==> !RetryGranted(job, s, x) && !job.config[x].FailsRun()
    requires Shaped(job, Finished(s, x, exitCode)) && Advance(job, Finished(s, x, exitCode), t)
    requires u == t.(reports := if t.settled == job.config.Keys then s.reports + [Verdict(SomeFailed(t.status))] else s.reports)
    ensures Next(job, s, Callback(x, exitCode), u)
  {
    assert t.reports == s.reports;
    assert u.(reports := s.reports) == t;
    hide Advance, AdvancePart, SomeFailed;
  }

  lemma SettleEnds(job: Job, deps: seq<Dependency>, o: Origin, s: RunState, x: StepId, exitCode: int, t: RunState, b: Books, u: RunState)
    requires job.Valid() && ValidOrigin(job, o) && Inv(job, o, s) && s.started && !s.stopped && x in s.outstanding
    requires exitCode != 0 ==> !RetryGranted(job, s, x) && !job.config[x].FailsRun()
    requires Shaped(job, Finished(s, x, exitCode)) && Shaped(job, t) && Advance(job, Finished(s, x, exitCode), t)
    requires RestBooks(job, deps, t, b)
    requires u == t.(reports := if t.settled == job.config.Keys then s.reports + [Verdict(SomeFailed(t.status))] else s.reports)
    ensures Next(job, s, Callback(x, exitCode), u) && Inv(job, o, u) && RestBooks(job, deps, u, b)
  {
    SettleIsNext(job, s, x, exitCode, t, u);
    hide Inv, RestBooks, Advance, Next, Shaped;
    RestIgnoresReports(job, deps, t, b, u.reports);
    NextKeepsInv(job, o, s, Callback(x, exitCode), u);
  }

  // ---------------------------------------------------------------------------
  // A callback leaves the step to its retry timer

  lemma RetryTotals(job: Job, s: RunState, b: Books, x: StepId, t: RunState)
    requires job.Valid() && Shaped(job, s) && PendingIsIdle(s) && Totals(job, s, b) && Exclusive(job, s.outstanding)
    requires x in s.outstanding && ScheduleRetry(s, x, t)
    ensures Shaped(job, t) && PendingIsIdle(t) && Totals(job, t, b.(activeKeys := Released(job, b.activeKeys, x)))
  {
    hide KeysHeld, Released, Exclusive, FailureAmong;
    ReleasedKeeps(job, b.activeKeys, s.outstanding, x);
    FailureElsewhere(s.status, s.settled, x, Failed);
    RetryMoves(job, s, x, t);
    hide PendingIsIdle, MovesOnly;
    MoveKeepsShape(job, s, t, x);
  }

  lemma RetryMoves(job: Job, s: RunState, x: StepId, t: RunState)
    requires job.Valid() && Shaped(job, s) && x in s.outstanding && ScheduleRetry(s, x, t)
    ensures MovesOnly(s, t, x)
  {
  }

  lemma RetrySection(job: Job, deps: seq<Dependency>, o: Origin, s: RunState, b: Books, x: StepId, exitCode: int, t: RunState)
    requires job.Valid() && ValidOrigin(job, o) && Inv(job, o, s) && s.started && !s.stopped && RestBooks(job, deps, s, b)
    requires x in s.outstanding && exitCode != 0 && RetryGranted(job, s, x) && ScheduleRetry(s, x, t)
    ensures Next(job, s, Callback(x, exitCode), t) && Inv(job, o, t)
    ensures RestBooks(job, deps, t, b.(activeKeys := Released(job, b.activeKeys, x)))
  {
    hide LiveInv, ReportInv, Bounded, Counted, Totals, Deferred, PendingIsIdle, FailedDep, Exclusive, Released;
    NextKeepsInv(job, o, s, Callback(x, exitCode), t);
    OutstandingFacts(job, o, s, x);
    RetryTotals(job, s, b, x, t);
    forall y ensures FailedDep(job, s.status, s.settled, y) <==> FailedDep(job, t.status, t.settled, y) {
      FailedDepIgnores(job, s.status, t.status, s.settled, y);
    }
    DeferredUnmoved(job, s, b, x, Failed);
  }

  // ---------------------------------------------------------------------------
  // A callback aborts the run, or finds it stopped

  lemma AbortSection(job: Job, o: Origin, s: RunState, x: StepId, exitCode: int, t: RunState)
    requires job.Valid() && ValidOrigin(job, o) && Inv(job, o, s) && s.started && !s.stopped
    requires x in s.outstanding && exitCode != 0 && !RetryGranted(job, s, x) && job.config[x].FailsRun() && AbortRun(s, x, t)
    ensures Next(job, s, Callback(x, exitCode), t) && Inv(job, o, t)
  {
    NextKeepsInv(job, o, s, Callback(x, exitCode), t);
  }

  lemma StoppedSection(job: Job, o: Origin, s: RunState, e: Event, t: RunState)
    requires job.Valid() && ValidOrigin(job, o) && Inv(job, o, s) && s.stopped && Enabled(s, e)
    requires match e
      case Callback(x, _) => t == s.(outstanding := s.outstanding - {x})
      case RetryTimer(x) => t == s.(retrying := s.retrying - {x})
      case _ => false
    ensures Next(job, s, e, t) && Inv(job, o, t)
  {
    NextKeepsInv(job, o, s, e, t);
  }

  // ---------------------------------------------------------------------------
  // A retry timer fires

  /** What the invariant says about a step waiting for its timer. */
  lemma RetryingFacts(job: Job, deps: seq<Dependency>, o: Origin, s: RunState, b: Books, x: StepId)
    requires job.Valid() && ValidOrigin(job, o) && EdgesOf(job, deps) && Inv(job, o, s) && !s.stopped && x in s.retrying
    requires RestBooks(job, deps, s, b)
    ensures Shaped(job, s) && x in job.config && x in s.launches && s.status[x] == Failed && x !in b.deferred
    ensures b.inDegree[x] == 0 && (job.config[x].AllDone() || x !in b.failedUpstream)
    ensures HeldBy(job, s.outstanding, x) <==> !KeyFree(job, b.activeKeys, x)
  {
    assert StepInv(job, o, s, x);
    OpenZero(deps, x, s.settled);
    KeyInUse(job, b.activeKeys, s.outstanding, x);
  }

  function Relaunched(s: RunState, x: StepId): RunState
    requires x in s.launches
  {
    LaunchStep(s.(retrying := s.retrying - {x}), x)
  }

  function Redeferred(s: RunState, x: StepId): RunState {
    s.(retrying := s.retrying - {x}, status := s.status[x := Pending])
  }

  lemma RelaunchTotals(job: Job, s: RunState, b: Books, x: StepId)
    requires job.Valid() && Shaped(job, s) && PendingIsIdle(s) && Totals(job, s, b) && x in s.retrying
    ensures Shaped(job, Relaunched(s, x)) && PendingIsIdle(Relaunched(s, x))
    ensures Totals(job, Relaunched(s, x), b.(activeKeys := Claimed(job, b.activeKeys, x)))
  {
    TimerMoves(job, s, x);
    hide FailureAmong, KeysHeld, Claimed, PendingIsIdle, MovesOnly;
    ClaimKeeps(job, b.activeKeys, s.outstanding, x);
    FailureElsewhere(s.status, s.settled, x, Running);
    MoveKeepsShape(job, s, Relaunched(s, x), x);
  }

  lemma TimerMoves(job: Job, s: RunState, x: StepId)
    requires job.Valid() && Shaped(job, s) && x in s.retrying
    ensures MovesOnly(s, Relaunched(s, x), x) && MovesOnly(s, Redeferred(s, x), x)
  {
  }

  lemma RelaunchSection(job: Job, deps: seq<Dependency>, o: Origin, s: RunState, b: Books, x: StepId)
    requires job.Valid() && ValidOrigin(job, o) && EdgesOf(job, deps) && Inv(job, o, s) && s.started && !s.stopped
    requires RestBooks(job, deps, s, b) && x in s.retrying && x in job.config && KeyFree(job, b.activeKeys, x)
    ensures Shaped(job, s) && Next(job, s, RetryTimer(x), Relaunched(s, x)) && Inv(job, o, Relaunched(s, x))
    ensures RestBooks(job, deps, Relaunched(s, x), b.(activeKeys := Claimed(job, b.activeKeys, x)))
  {
    hide LiveInv, ReportInv, Bounded, Counted, Totals, Deferred, PendingIsIdle, FailedDep, Exclusive, Claimed, KeyFree, HeldBy;
    var t := Relaunched(s, x);
    RetryingFacts(job, deps, o, s, b, x);
    NextKeepsInv(job, o, s, RetryTimer(x), t);
    RelaunchTotals(job, s, b, x);
    forall y ensures FailedDep(job, s.status, s.settled, y) <==> FailedDep(job, t.status, t.settled, y) {
      FailedDepIgnores(job, s.status, t.status, s.settled, y);
    }
    DeferredUnmoved(job, s, b, x, Running);
  }

  lemma RedeferTotals(job: Job, s: RunState, b: Books, x: StepId)
    requires job.Valid() && Shaped(job, s) && PendingIsIdle(s) && Totals(job, s, b) && x in s.retrying
    ensures Shaped(job, Redeferred(s, x)) && PendingIsIdle(Redeferred(s, x))
    ensures Totals(job, Redeferred(s, x), b.(deferred := b.deferred + [x]))
  {
    TimerMoves(job, s, x);
    hide FailureAmong, KeysHeld, PendingIsIdle, MovesOnly;
    FailureElsewhere(s.status, s.settled, x, Pending);
    MoveKeepsShape(job, s, Redeferred(s, x), x);
  }

  lemma RedeferDeferred(job: Job, s: RunState, b: Books, x: StepId)
    requires job.Valid() && Shaped(job, s) && Totals(job, s, b) && x in job.config && x !in b.deferred && b.inDegree[x] == 0
    requires job.config[x].AllDone() || x !in b.failedUpstream
    requires Deferred(job, s.status, b.inDegree, b.failedUpstream, b.deferred)
    ensures Deferred(job, s.status[x := Pending], b.inDegree, b.failedUpstream, b.deferred + [x])
  {
  }

  lemma RedeferSection(job: Job, deps: seq<Dependency>, o: Origin, s: RunState, b: Books, x: StepId)
    requires job.Valid() && ValidOrigin(job, o) && EdgesOf(job, deps) && Inv(job, o, s) && s.started && !s.stopped
    requires RestBooks(job, deps, s, b) && x in s.retrying && x in job.config && !KeyFree(job, b.activeKeys, x)
    ensures Shaped(job, s) && Next(job, s, RetryTimer(x), Redeferred(s, x)) && Inv(job, o, Redeferred(s, x))
    ensures RestBooks(job, deps, Redeferred(s, x), b.(deferred := b.deferred + [x]))
  {
    hide LiveInv, ReportInv, Bounded, Counted, Totals, Deferred, PendingIsIdle, FailedDep, Exclusive, KeyFree, HeldBy;
    var t := Redeferred(s, x);
    RetryingFacts(job, deps, o, s, b, x);
    NextKeepsInv(job, o, s, RetryTimer(x), t);
    RedeferTotals(job, s, b, x);
    forall y ensures FailedDep(job, s.status, s.settled, y) <==> FailedDep(job, t.status, t.settled, y) {
      FailedDepIgnores(job, s.status, t.status, s.settled, y);
    }
    RedeferDeferred(job, s, b, x);
  }

  // ---------------------------------------------------------------------------
  // Start

  /** The deferred list while the steps in todo are still to be looked at. */
  ghost predicate PartlyDeferred(job: Job, s: RunState, b: Books, todo: set<StepId>)
    requires job.Valid() && Shaped(job, s) && job.config.Keys <= b.inDegree.Keys
  {
    && Distinct(b.deferred)
    && (forall y :: y in b.deferred ==> y in job.config)
    && (forall y {:trigger y in b.deferred} {:trigger b.inDegree[y]} :: y in job.config ==>
        (y in b.deferred <==> y !in todo && s.status[y] == Pending && b.inDegree[y] == 0))
  }

  ghost predicate AllHeld(job: Job, s: RunState, deferred: seq<StepId>)
    requires Shaped(job, s)
  {
    forall y :: y in deferred ==> y in job.config && HeldBy(job, s.outstanding, y)
  }

  ghost predicate SettledAreCompleted(s: RunState)
    requires s.settled <= s.status.Keys
  {
    forall y :: y in s.settled ==> s.status[y] == Completed
  }

  ghost predicate Starting(job: Job, deps: seq<Dependency>, m: RunState, s: RunState, b: Books, todo: set<StepId>, list: seq<StepId>) {
    && job.Valid() && EdgesOf(job, deps) && Shaped(job, m) && Shaped(job, s) && AdvancePart(job, m, s)
    && s.settled == m.settled && SettledAreCompleted(s)
    && EdgeBooks(job, deps, s, b, s.settled)
    && PartlyDeferred(job, s, b, todo)
    && AllHeld(job, s, b.deferred)
    && LaunchList(list, m.outstanding, s.outstanding)
  }

  lemma StartBegins(job: Job, deps: seq<Dependency>, o: Origin, s: RunState, b: Books)
    requires job.Valid() && ValidOrigin(job, o) && EdgesOf(job, deps) && Inv(job, o, s) && !s.started && RestBooks(job, deps, s, b)
    ensures Starting(job, deps, s.(started := true), s.(started := true), b, b.inDegree.Keys, [])
  {
    var m := s.(started := true);
    AdvanceReflexive(job, m);
    NothingLaunched(m.outstanding);
    forall y | y in s.settled ensures s.status[y] == Completed { assert StepInv(job, o, s, y); }
    assert EdgeBooks(job, deps, m, b, m.settled);
  }

  lemma StartFacts(job: Job, deps: seq<Dependency>, m: RunState, s: RunState, b: Books, todo: set<StepId>, list: seq<StepId>, x: StepId)
    requires Starting(job, deps, m, s, b, todo, list) && x in job.config
    ensures x in b.inDegree && x in s.status && x in s.launches
    ensures b.inDegree[x] == 0 && s.status[x] == Pending ==>
      Ready(job, s.status, s.settled, x) && Runnable(job, s.status, s.settled, x) && PendingIsIdle(s) &&
      (HeldBy(job, s.outstanding, x) <==> !KeyFree(job, b.activeKeys, x))
  {
    if b.inDegree[x] == 0 && s.status[x] == Pending {
      OpenZero(deps, x, s.settled);
      assert x !in s.outstanding;
      KeyInUse(job, b.activeKeys, s.outstanding, x);
    }
  }

  lemma StartPass(job: Job, deps: seq<Dependency>, m: RunState, s: RunState, b: Books, todo: set<StepId>, list: seq<StepId>, x: StepId)
    requires Starting(job, deps, m, s, b, todo, list) && x in todo && x in b.inDegree
    requires x in job.config ==> b.inDegree[x] != 0 || (x in s.status && s.status[x] != Pending)
    ensures Starting(job, deps, m, s, b, todo - {x}, list)
  {
    hide AdvancePart, Counted, Totals, PendingIsIdle, FailedDep, HeldBy, LaunchList;
  }

  lemma StartLaunch(job: Job, deps: seq<Dependency>, m: RunState, s: RunState, b: Books, todo: set<StepId>, list: seq<StepId>, x: StepId)
    requires Starting(job, deps, m, s, b, todo, list) && x in todo && x in job.config && x in s.launches
    requires b.inDegree[x] == 0 && s.status[x] == Pending && KeyFree(job, b.activeKeys, x)
    ensures Starting(job, deps, m, LaunchStep(s, x), b.(activeKeys := Claimed(job, b.activeKeys, x)), todo - {x}, list + [x])
  {
    hide AdvancePart, EdgeBooks, PendingIsIdle, FailedDep, HeldBy, LaunchList, KeyFree, Claimed, Runnable;
    var t := LaunchStep(s, x);
    StartFacts(job, deps, m, s, b, todo, list, x);
    LaunchAdvances(job, m, s, x);
    EdgeBooksIgnore(job, deps, s, b, x);
    assert x !in s.outstanding && x !in s.settled by { IdleFacts(s, x); }
    LaunchListGrows(list, m.outstanding, s.outstanding, x);
    forall z | z in b.deferred ensures HeldBy(job, s.outstanding + {x}, z) {
      HeldByMore(job, s.outstanding, x, z);
    }
  }

  lemma IdleFacts(s: RunState, x: StepId)
    requires s.settled <= s.status.Keys && s.outstanding <= s.status.Keys && s.retrying <= s.status.Keys
    requires PendingIsIdle(s) && x in s.status && s.status[x] == Pending
    ensures x !in s.settled && x !in s.outstanding && x !in s.retrying
  {
  }

  lemma StartDefer(job: Job, deps: seq<Dependency>, m: RunState, s: RunState, b: Books, todo: set<StepId>, list: seq<StepId>, x: StepId)
    requires Starting(job, deps, m, s, b, todo, list) && x in todo && x in job.config
    requires b.inDegree[x] == 0 && s.status[x] == Pending && !KeyFree(job, b.activeKeys, x)
    ensures Starting(job, deps, m, s, b.(deferred := b.deferred + [x]), todo - {x}, list)
  {
    hide AdvancePart, Counted, PendingIsIdle, FailedDep, HeldBy, LaunchList, KeysHeld, Runnable, KeyFree, Ready;
    StartFacts(job, deps, m, s, b, todo, list, x);
  }

  lemma StartEnds(job: Job, deps: seq<Dependency>, o: Origin, s: RunState, m: RunState, t: RunState, b: Books, list: seq<StepId>)
    requires job.Valid() && ValidOrigin(job, o) && Inv(job, o, s) && !s.started && m == s.(started := true)
    requires Starting(job, deps, m, t, b, {}, list)
    ensures Next(job, s, Start, t) && Inv(job, o, t) && RestBooks(job, deps, t, b)
    ensures LaunchList(list, {}, t.outstanding)
  {
    hide LiveInv, ReportInv, Bounded, Counted, Totals, PendingIsIdle, Moved;
    StartDeferred(job, deps, t, b);
    AdvanceComplete(job, deps, m, t, b);
    NextKeepsInv(job, o, s, Start, t);
    NothingOutstanding(job, o, s);
  }

  lemma NothingOutstanding(job: Job, o: Origin, s: RunState)
    requires job.Valid() && ValidOrigin(job, o) && Inv(job, o, s) && !s.started
    ensures s.outstanding == {}
  {
  }

  lemma StartDeferred(job: Job, deps: seq<Dependency>, t: RunState, b: Books)
    requires job.Valid() && Shaped(job, t) && EdgeBooks(job, deps, t, b, t.settled) && SettledAreCompleted(t)
    requires PartlyDeferred(job, t, b, {})
    ensures Deferred(job, t.status, b.inDegree, b.failedUpstream, b.deferred)
  {
  }

  // ---------------------------------------------------------------------------

  lemma ShapeFacts(job: Job, o: Origin, s: RunState)
    requires job.Valid() && ValidOrigin(job, o) && Inv(job, o, s)
    ensures Shaped(job, s) && (!s.started ==> !s.stopped)
  {
  }

  lemma KeyFreeIs(job: Job, keys: set<string>, x: StepId)
    requires x in job.config
    ensures KeyFree(job, keys, x) <==> job.config[x].sessionKey == "" || job.config[x].sessionKey !in keys
  {
  }

  /** Among the steps looked at there is one that would be launched but does not exist. */
  ghost predicate Absent(inDegree: map<StepId, int>, ids: set<StepId>, seen: set<StepId>) {
    exists y :: y in seen && y in inDegree && y !in ids && inDegree[y] == 0
  }

  lemma AbsentGrows(inDegree: map<StepId, int>, ids: set<StepId>, todo: set<StepId>, x: StepId)
    requires x in todo && x in inDegree
    ensures Absent(inDegree, ids, inDegree.Keys - (todo - {x})) <==>
      Absent(inDegree, ids, inDegree.Keys - todo) || (x !in ids && inDegree[x] == 0)
    ensures x !in ids && inDegree[x] == 0 ==> Absent(inDegree, ids, inDegree.Keys)
  {
    if y :| y in inDegree.Keys - (todo - {x}) && y in inDegree && y !in ids && inDegree[y] == 0 {
      assert y == x || y in inDegree.Keys - todo;
    }
    if y :| y in inDegree.Keys - todo && y in inDegree && y !in ids && inDegree[y] == 0 {
      assert y in inDegree.Keys - (todo - {x});
    }
    if x !in ids && inDegree[x] == 0 { assert x in inDegree.Keys - (todo - {x}); }
  }

  lemma StartKeys(job: Job, deps: seq<Dependency>, o: Origin, s: RunState, b: Books)
    requires job.Valid() && ValidOrigin(job, o) && Inv(job, o, s) && !s.started && RestBooks(job, deps, s, b)
    requires b.inDegree.Keys == job.config.Keys + Targets(deps)
    ensures MissingRoot(deps, job.config.Keys, InitiallyDone(o)) <==> Absent(b.inDegree, job.config.Keys, b.inDegree.Keys)
    ensures !Absent(b.inDegree, job.config.Keys, b.inDegree.Keys - b.inDegree.Keys)
  {
    MissingRootCounts(deps, job.config.Keys, InitiallyDone(o), b.inDegree);
  }

  lemma SettleKeepsRetrying(job: Job, s: RunState, x: StepId, exitCode: int, t: RunState)
    requires job.Valid() && Shaped(job, s) && x in s.outstanding && !s.stopped
    requires exitCode != 0 ==> !RetryGranted(job, s, x) && !job.config[x].FailsRun()
    requires Next(job, s, Callback(x, exitCode), t)
    ensures t.retrying == s.retrying
  {
  }

  /** A runner whose completed steps are counted and told is at rest. */
  lemma RebuiltIsValid(job: Job, deps: seq<Dependency>, o: Origin, s: RunState, b: Books)
    requires job.Valid() && ValidOrigin(job, o) && s == Initial(job, o)
    requires job.config.Keys <= b.inDegree.Keys && Counted(deps, b.inDegree, s.settled, [])
    requires b == Books(b.inDegree, {}, [], {}, |s.settled|, false)
    ensures Inv(job, o, s) && RestBooks(job, deps, s, b)
  {
    InitialInv(job, o);
    hide Inv;
  }

  lemma DependentIsIndexed(deps: seq<Dependency>, inDegree: map<StepId, int>, told: set<StepId>, seen: seq<StepId>, x: StepId, j: nat)
    requires j < |DependentsOf(deps, x)| && Counted(deps, inDegree, told, seen)
    ensures DependentsOf(deps, x)[j] in inDegree
  {
    DependentsAreEdges(deps, x, DependentsOf(deps, x)[j]);
  }

  lemma AllTold(deps: seq<Dependency>, inDegree: map<StepId, int>, told: set<StepId>, x: StepId, n: nat)
    requires x !in told && n == |DependentsOf(deps, x)| && Counted(deps, inDegree, told, DependentsOf(deps, x)[..n])
    ensures Counted(deps, inDegree, told + {x}, [])
  {
    assert DependentsOf(deps, x)[..n] == DependentsOf(deps, x);
    forall y | y in inDegree ensures inDegree[y] == Open(deps, y, told + {x}) {
      OpenDrop(deps, y, told, x);
    }
  }

  lemma NothingDone(job: Job, deps: seq<Dependency>, o: Origin, inDegree: map<StepId, int>, steps: seq<RunStep>)
    ensures DoneAmong(steps, 0) == {} && |DoneAmong(steps, 0)| == 0
    ensures Initial(job, o).settled == InitiallyDone(o) && !Initial(job, o).started
  {
  }

  lemma KeysOf(job: Job, deps: seq<Dependency>, s: RunState, b: Books)
    requires job.Valid() && Shaped(job, s) && RestBooks(job, deps, s, b)
    ensures KeysHeld(job, b.activeKeys, s.outstanding)
  {
  }
}
