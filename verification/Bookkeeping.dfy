/** The scheduler's counters and lists, and what they stand for in terms of the run. */
module Bookkeeping {
  import opened JobModel
  import opened RunMachine
  import opened RunInvariant

  /** The number of edges into y whose source is not in settled. Duplicate edges count twice. */
  function Open(deps: seq<Dependency>, y: StepId, settled: set<StepId>): nat {
    if deps == [] then 0
    else
      var d := deps[|deps| - 1];
      Open(deps[..|deps| - 1], y, settled) + (if d.stepId == y && d.dependsOn !in settled then 1 else 0)
  }

  /** The steps that wait for x, one entry per edge, in edge order. */
  function DependentsOf(deps: seq<Dependency>, x: StepId): seq<StepId> {
    if deps == [] then []
    else
      var d := deps[|deps| - 1];
      DependentsOf(deps[..|deps| - 1], x) + (if d.dependsOn == x then [d.stepId] else [])
  }

  lemma {:induction false} OpenZero(deps: seq<Dependency>, y: StepId, settled: set<StepId>)
    ensures Open(deps, y, settled) == 0 <==> forall d :: d in deps && d.stepId == y ==> d.dependsOn in settled
  {
    if deps != [] {
      var n := |deps| - 1;
      OpenZero(deps[..n], y, settled);
      assert deps == deps[..n] + [deps[n]];
    }
  }

  /** Settling x closes exactly the edges out of x. */
  lemma {:induction false} OpenDrop(deps: seq<Dependency>, y: StepId, settled: set<StepId>, x: StepId)
    requires x !in settled
    ensures Open(deps, y, settled) == Open(deps, y, settled + {x}) + multiset(DependentsOf(deps, x))[y]
  {
    if deps != [] {
      OpenDrop(deps[..|deps| - 1], y, settled, x);
    }
  }

  lemma {:induction false} DependentsAreEdges(deps: seq<Dependency>, x: StepId, y: StepId)
    ensures y in DependentsOf(deps, x) <==> Dependency(y, x) in deps
  {
    if deps != [] {
      var n := |deps| - 1;
      DependentsAreEdges(deps[..n], x, y);
      assert deps == deps[..n] + [deps[n]];
    }
  }

  // ---------------------------------------------------------------------------

  datatype Books = Books(
    inDegree: map<StepId, int>,
    failedUpstream: set<StepId>,
    deferred: seq<StepId>,
    activeKeys: set<string>,
    completed: int,
    failed: bool)

  /** The job's edges are the stored ones that lead to its steps. */
  ghost predicate EdgesOf(job: Job, deps: seq<Dependency>) {
    forall d :: d in job.edges <==> d in deps && d.stepId in job.config
  }

  ghost function Targets(deps: seq<Dependency>): set<StepId> {
    set d | d in deps :: d.stepId
  }

  ghost predicate KeysHeld(job: Job, keys: set<string>, outstanding: set<StepId>)
    requires outstanding <= job.config.Keys
  {
    forall k :: k in keys <==> k != "" && exists z :: z in outstanding && job.Key(z) == k
  }

  /** The books of a run while item is telling its dependents that it settled: the steps in told
      have told all of theirs, item has told those in seen. */
  ghost predicate Counted(deps: seq<Dependency>, inDegree: map<StepId, int>, told: set<StepId>, seen: seq<StepId>) {
    && (forall d :: d in deps ==> d.stepId in inDegree)
    && (forall y {:trigger inDegree[y]} :: y in inDegree ==> inDegree[y] == Open(deps, y, told) - multiset(seen)[y])
  }

  ghost predicate Flagged(job: Job, status: map<StepId, Status>, failedUpstream: set<StepId>,
                          told: set<StepId>, item: StepId, seen: seq<StepId>)
    requires told <= status.Keys && item in status
  {
    forall y {:trigger y in failedUpstream} :: y in job.config ==>
      (y in failedUpstream <==> FailedDep(job, status, told, y) || (status[item] != Completed && y in seen))
  }

  /** Deferred are exactly the pending steps with nothing left to wait for but a session. */
  ghost predicate Deferred(job: Job, status: map<StepId, Status>, inDegree: map<StepId, int>,
                           failedUpstream: set<StepId>, deferred: seq<StepId>)
    requires status.Keys == job.config.Keys <= inDegree.Keys
  {
    && Distinct(deferred)
    && (forall y :: y in deferred ==> y in job.config)
    && (forall y {:trigger y in deferred} {:trigger inDegree[y]} :: y in job.config ==>
        (y in deferred <==> status[y] == Pending && inDegree[y] == 0))
    && (forall y :: y in deferred ==> job.config[y].AllDone() || y !in failedUpstream)
  }

  ghost predicate FailureAmong(status: map<StepId, Status>, settled: set<StepId>)
    requires settled <= status.Keys
  {
    exists x :: x in settled && status[x] == Failed
  }

  lemma FailureElsewhere(status: map<StepId, Status>, settled: set<StepId>, x: StepId, st: Status)
    requires settled <= status.Keys && x !in settled
    ensures FailureAmong(status[x := st], settled) <==> FailureAmong(status, settled)
  {
    if y :| y in settled && status[y] == Failed {
      assert status[x := st][y] == Failed;
    }
  }

  lemma FailureJoins(status: map<StepId, Status>, settled: set<StepId>, x: StepId, st: Status)
    requires settled <= status.Keys && x !in settled
    ensures FailureAmong(status[x := st], settled + {x}) <==> FailureAmong(status, settled) || st == Failed
  {
    var changed := status[x := st];
    if y :| y in settled && status[y] == Failed {
      assert y in settled + {x} && changed[y] == Failed;
    }
    if st == Failed { assert x in settled + {x} && changed[x] == Failed; }
  }

  /** What the books say apart from edges and deferrals. */
  ghost predicate Totals(job: Job, s: RunState, b: Books)
    requires job.Valid() && Shaped(job, s)
  {
    && job.config.Keys <= b.inDegree.Keys
    && KeysHeld(job, b.activeKeys, s.outstanding)
    && b.completed == |s.settled|
    && (b.failed <==> FailureAmong(s.status, s.settled))
  }

  /** No step is pending and something else at once. */
  ghost predicate PendingIsIdle(s: RunState)
    requires s.settled <= s.status.Keys && s.outstanding <= s.status.Keys && s.retrying <= s.status.Keys
  {
    && (forall x :: x in s.settled ==> s.status[x] != Pending)
    && (forall x :: x in s.outstanding ==> s.status[x] != Pending)
    && (forall x :: x in s.retrying ==> s.status[x] != Pending)
  }

  /** The books while item is telling its dependents that it settled. */
  ghost predicate MidBooks(job: Job, deps: seq<Dependency>, s: RunState, b: Books,
                           told: set<StepId>, item: StepId, seen: seq<StepId>)
    requires job.Valid() && Shaped(job, s)
  {
    && told <= s.settled && item in s.settled && item !in told
    && PendingIsIdle(s)
    && Totals(job, s, b)
    && Counted(deps, b.inDegree, told, seen)
    && Flagged(job, s.status, b.failedUpstream, told, item, seen)
    && Deferred(job, s.status, b.inDegree, b.failedUpstream, b.deferred)
  }

  /** The edges out of the steps in told are closed, the others open. */
  ghost predicate EdgeBooks(job: Job, deps: seq<Dependency>, s: RunState, b: Books, told: set<StepId>)
    requires job.Valid() && Shaped(job, s)
  {
    && told <= s.settled
    && PendingIsIdle(s)
    && Totals(job, s, b)
    && Counted(deps, b.inDegree, told, [])
    && (forall y {:trigger y in b.failedUpstream} :: y in job.config ==> (y in b.failedUpstream <==> FailedDep(job, s.status, told, y)))
  }

  /** The books while the settled steps not in told queue up to tell their dependents. */
  ghost predicate QueueBooks(job: Job, deps: seq<Dependency>, s: RunState, b: Books, told: set<StepId>)
    requires job.Valid() && Shaped(job, s)
  {
    EdgeBooks(job, deps, s, b, told) && Deferred(job, s.status, b.inDegree, b.failedUpstream, b.deferred)
  }

  /** The books of a run between critical sections. */
  ghost predicate RestBooks(job: Job, deps: seq<Dependency>, s: RunState, b: Books)
    requires job.Valid() && Shaped(job, s)
  {
    && EdgeBooks(job, deps, s, b, s.settled)
    && (if s.started then Deferred(job, s.status, b.inDegree, b.failedUpstream, b.deferred) else b.deferred == [])
  }

  /** Some step that edges lead to is not among ids, and nothing is left for it to wait for. */
  ghost predicate MissingRoot(deps: seq<Dependency>, ids: set<StepId>, settled: set<StepId>) {
    exists y :: y in Targets(deps) && y !in ids && forall d :: d in deps && d.stepId == y ==> d.dependsOn in settled
  }

  lemma MissingRootCounts(deps: seq<Dependency>, ids: set<StepId>, settled: set<StepId>, inDegree: map<StepId, int>)
    requires Counted(deps, inDegree, settled, []) && inDegree.Keys == ids + Targets(deps)
    ensures MissingRoot(deps, ids, settled) <==> exists y :: y in inDegree && y !in ids && inDegree[y] == 0
  {
    forall y | y in inDegree
      ensures inDegree[y] == 0 <==> forall d :: d in deps && d.stepId == y ==> d.dependsOn in settled
    {
      OpenZero(deps, y, settled);
    }
  }

  // ---------------------------------------------------------------------------
  // One dependent hears that item settled

  function SkipStep(s: RunState, y: StepId): RunState {
    s.(status := s.status[y := Skipped], settled := s.settled + {y})
  }

  function LaunchStep(s: RunState, y: StepId): RunState
    requires y in s.launches
  {
    s.(status := s.status[y := Running], outstanding := s.outstanding + {y},
       launches := s.launches[y := s.launches[y] + 1])
  }

  /** The books after the dependent y was told, before anything is done about it. */
  function Tell(b: Books, y: StepId, upstreamFailed: bool): Books
    requires y in b.inDegree
  {
    b.(inDegree := b.inDegree[y := b.inDegree[y] - 1],
       failedUpstream := if upstreamFailed then b.failedUpstream + {y} else b.failedUpstream)
  }

  lemma TellCounts(deps: seq<Dependency>, inDegree: map<StepId, int>, told: set<StepId>, item: StepId, j: nat)
    requires item !in told && j < |DependentsOf(deps, item)|
    requires Counted(deps, inDegree, told, DependentsOf(deps, item)[..j])
    requires DependentsOf(deps, item)[j] in inDegree
    ensures var y := DependentsOf(deps, item)[j];
      && inDegree[y] >= 1
      && Counted(deps, inDegree[y := inDegree[y] - 1], told, DependentsOf(deps, item)[..j + 1])
      && (inDegree[y] == 1 ==> Open(deps, y, told + {item}) == 0)
  {
    hide DependentsOf, Open;
    var all := DependentsOf(deps, item);
    var y := all[j];
    assert all[..j + 1] == all[..j] + [y];
    assert all == all[..j + 1] + all[j + 1..];
    OpenDrop(deps, y, told, item);
  }

  lemma TellFlags(job: Job, status: map<StepId, Status>, flags: set<StepId>, told: set<StepId>, item: StepId, all: seq<StepId>, j: nat)
    requires told <= status.Keys && item in status && j < |all|
    requires Flagged(job, status, flags, told, item, all[..j])
    ensures Flagged(job, status, if status[item] != Completed then flags + {all[j]} else flags, told, item, all[..j + 1])
  {
    assert all[..j + 1] == all[..j] + [all[j]];
  }

  /** The state of play for y = the j-th dependent of item, told or about to be told. */
  ghost predicate Telling(job: Job, deps: seq<Dependency>, s: RunState, b: Books, told: set<StepId>, item: StepId, j: nat)
    requires job.Valid()
  {
    && EdgesOf(job, deps) && Shaped(job, s) && j < |DependentsOf(deps, item)|
    && MidBooks(job, deps, s, b, told, item, DependentsOf(deps, item)[..j])
  }

  lemma TellKeeps(job: Job, deps: seq<Dependency>, s: RunState, b: Books, told: set<StepId>, item: StepId, j: nat, y: StepId)
    requires job.Valid() && Telling(job, deps, s, b, told, item, j) && y == DependentsOf(deps, item)[j]
    ensures y in b.inDegree && b.inDegree[y] >= 1 && y !in b.deferred
    ensures Counted(deps, Tell(b, y, s.status[item] != Completed).inDegree, told, DependentsOf(deps, item)[..j + 1])
    ensures Flagged(job, s.status, Tell(b, y, s.status[item] != Completed).failedUpstream, told, item, DependentsOf(deps, item)[..j + 1])
  {
    hide PendingIsIdle, KeysHeld, FailureAmong, Flagged, Open, DependentsOf;
    assert y in b.inDegree by {
      assert y in DependentsOf(deps, item);
      DependentsAreEdges(deps, item, y);
    }
    hide Counted;
    assert b.inDegree[y] >= 1 && Counted(deps, Tell(b, y, s.status[item] != Completed).inDegree, told, DependentsOf(deps, item)[..j + 1]) by {
      TellCounts(deps, b.inDegree, told, item, j);
    }
    assert Flagged(job, s.status, Tell(b, y, s.status[item] != Completed).failedUpstream, told, item, DependentsOf(deps, item)[..j + 1]) by {
      TellFlags(job, s.status, b.failedUpstream, told, item, DependentsOf(deps, item), j);
    }
  }

  /** The last edge into y closes: all its dependencies have settled, and its flag says whether one failed. */
  lemma TellReady(job: Job, deps: seq<Dependency>, s: RunState, b: Books, told: set<StepId>, item: StepId, j: nat, y: StepId)
    requires job.Valid() && Telling(job, deps, s, b, told, item, j) && y == DependentsOf(deps, item)[j]
    requires y in job.config && b.inDegree[y] == 1
    ensures DepsSettled(job, s.settled, y)
    ensures y in Tell(b, y, s.status[item] != Completed).failedUpstream <==> FailedDep(job, s.status, s.settled, y)
  {
    assert y in DependentsOf(deps, item);
    DependentsAreEdges(deps, item, y);
    TellCounts(deps, b.inDegree, told, item, j);
    OpenZero(deps, y, told + {item});
    assert DepsSettled(job, told + {item}, y);
    FlagIsFailedDep(job, deps, s, told, item, y);
    TellKeeps(job, deps, s, b, told, item, j, y);
    assert y in DependentsOf(deps, item)[..j + 1] by { assert DependentsOf(deps, item)[..j + 1][j] == y; }
  }

  /** Once all dependencies of y are told, its flag speaks about all of them. */
  lemma FlagIsFailedDep(job: Job, deps: seq<Dependency>, s: RunState, told: set<StepId>, item: StepId, y: StepId)
    requires job.Valid() && Shaped(job, s) && EdgesOf(job, deps)
    requires told <= s.settled && item in s.settled && DepsSettled(job, told + {item}, y)
    requires Dependency(y, item) in deps && y in job.config
    ensures FailedDep(job, s.status, s.settled, y) <==> FailedDep(job, s.status, told, y) || s.status[item] != Completed
  {
    if FailedDep(job, s.status, s.settled, y) {
      var d :| d in job.edges && d.stepId == y && d.dependsOn in s.settled && s.status[d.dependsOn] != Completed;
      assert d.dependsOn in told + {item};
    }
    if s.status[item] != Completed {
      assert Dependency(y, item) in job.edges;
    }
  }

  /** y still has unsettled dependencies, or is not pending any more: nothing to do. */
  lemma PassKeeps(job: Job, deps: seq<Dependency>, s: RunState, b: Books, told: set<StepId>, item: StepId, j: nat, y: StepId)
    requires job.Valid() && Telling(job, deps, s, b, told, item, j) && y == DependentsOf(deps, item)[j]
    requires y in b.inDegree && (y !in job.config || b.inDegree[y] != 1 || s.status[y] != Pending)
    ensures MidBooks(job, deps, s, Tell(b, y, s.status[item] != Completed), told, item, DependentsOf(deps, item)[..j + 1])
  {
    TellKeeps(job, deps, s, b, told, item, j, y);
    var c := Tell(b, y, s.status[item] != Completed);
    assert Deferred(job, s.status, c.inDegree, c.failedUpstream, c.deferred);
  }

  /** A step that leaves Pending without having been deferred does not concern the deferred list. */
  lemma DeferredIgnores(job: Job, s: RunState, b: Books, y: StepId, upstreamFailed: bool, st: Status)
    requires job.Valid() && Shaped(job, s) && Totals(job, s, b) && y in job.config && st != Pending
    requires Deferred(job, s.status, b.inDegree, b.failedUpstream, b.deferred) && y !in b.deferred
    ensures Deferred(job, s.status[y := st], Tell(b, y, upstreamFailed).inDegree, Tell(b, y, upstreamFailed).failedUpstream, b.deferred)
  {
  }

  /** t differs from s only in what it says about x, which has at most one role. */
  ghost predicate MovesOnly(s: RunState, t: RunState, x: StepId) {
    && x in s.status && x in t.status && t.status == s.status[x := t.status[x]]
    && s.attempt.Keys == t.attempt.Keys && s.launches.Keys == t.launches.Keys
    && t.settled - {x} == s.settled - {x} && t.outstanding - {x} == s.outstanding - {x} && t.retrying - {x} == s.retrying - {x}
    && !(x in t.settled && x in t.outstanding) && !(x in t.settled && x in t.retrying) && !(x in t.outstanding && x in t.retrying)
    && (x in t.settled || x in t.outstanding || x in t.retrying ==> t.status[x] != Pending)
  }

  lemma MoveKeepsShape(job: Job, s: RunState, t: RunState, x: StepId)
    requires job.Valid() && Shaped(job, s) && PendingIsIdle(s) && MovesOnly(s, t, x)
    ensures Shaped(job, t) && PendingIsIdle(t)
  {
    assert forall y :: y != x ==> (y in t.settled <==> y in s.settled - {x});
    assert forall y :: y != x ==> (y in t.outstanding <==> y in s.outstanding - {x});
    assert forall y :: y != x ==> (y in t.retrying <==> y in s.retrying - {x});
  }

  lemma PendingMoves(job: Job, s: RunState, y: StepId)
    requires job.Valid() && Shaped(job, s) && PendingIsIdle(s) && y in job.config && s.status[y] == Pending
    ensures y !in s.settled && MovesOnly(s, SkipStep(s, y), y) && MovesOnly(s, LaunchStep(s, y), y)
  {
  }

  lemma SkipShape(job: Job, s: RunState, y: StepId)
    requires job.Valid() && Shaped(job, s) && PendingIsIdle(s) && y in job.config && s.status[y] == Pending
    ensures y !in s.settled && Shaped(job, SkipStep(s, y)) && PendingIsIdle(SkipStep(s, y))
  {
    hide MovesOnly;
    PendingMoves(job, s, y);
    MoveKeepsShape(job, s, SkipStep(s, y), y);
  }

  lemma TotalsSkip(job: Job, s: RunState, b: Books, y: StepId, upstreamFailed: bool)
    requires job.Valid() && Shaped(job, s) && PendingIsIdle(s) && Totals(job, s, b) && y in job.config && s.status[y] == Pending
    ensures Shaped(job, SkipStep(s, y)) && PendingIsIdle(SkipStep(s, y))
    ensures var c := Tell(b, y, upstreamFailed); Totals(job, SkipStep(s, y), c.(completed := c.completed + 1))
  {
    hide FailureAmong, KeysHeld, PendingIsIdle;
    SkipShape(job, s, y);
    FailureJoins(s.status, s.settled, y, Skipped);
  }

  lemma TotalsLaunch(job: Job, s: RunState, b: Books, y: StepId)
    requires job.Valid() && Shaped(job, s) && PendingIsIdle(s) && Totals(job, s, b) && y in job.config && s.status[y] == Pending
    ensures Shaped(job, LaunchStep(s, y)) && PendingIsIdle(LaunchStep(s, y))
    ensures Totals(job, LaunchStep(s, y), b.(activeKeys := Claimed(job, b.activeKeys, y)))
  {
    ClaimKeeps(job, b.activeKeys, s.outstanding, y);
    hide MovesOnly, FailureAmong, KeysHeld, Claimed;
    PendingMoves(job, s, y);
    MoveKeepsShape(job, s, LaunchStep(s, y), y);
    FailureElsewhere(s.status, s.settled, y, Running);
    hide PendingIsIdle;
  }

  /** y is skipped and will tell its own dependents. */
  lemma SkipKeeps(job: Job, deps: seq<Dependency>, s: RunState, b: Books, told: set<StepId>, item: StepId, j: nat, y: StepId)
    requires job.Valid() && Telling(job, deps, s, b, told, item, j) && y == DependentsOf(deps, item)[j]
    requires y in job.config && b.inDegree[y] == 1 && s.status[y] == Pending
    ensures var c := Tell(b, y, s.status[item] != Completed);
      Shaped(job, SkipStep(s, y)) && MidBooks(job, deps, SkipStep(s, y), c.(completed := c.completed + 1), told, item, DependentsOf(deps, item)[..j + 1])
  {
    TellKeeps(job, deps, s, b, told, item, j, y);
    var failed := s.status[item] != Completed;
    TotalsSkip(job, s, b, y, failed);
    DeferredIgnores(job, s, b, y, failed, Skipped);
    FlagsIgnore(job, s.status, s.status[y := Skipped], Tell(b, y, failed).failedUpstream, told, item, DependentsOf(deps, item)[..j + 1]);
    hide Counted, Flagged, Deferred, PendingIsIdle, Totals, FailedDep;
  }

  /** Flags depend on the statuses of told steps only. */
  lemma FlagsIgnore(job: Job, status: map<StepId, Status>, status': map<StepId, Status>, flags: set<StepId>,
                    told: set<StepId>, item: StepId, seen: seq<StepId>)
    requires told <= status.Keys && told <= status'.Keys && item in status && item in status'
    requires status[item] == status'[item] && forall x :: x in told ==> status[x] == status'[x]
    requires Flagged(job, status, flags, told, item, seen)
    ensures Flagged(job, status', flags, told, item, seen)
  {
    forall y ensures FailedDep(job, status, told, y) <==> FailedDep(job, status', told, y) {
      if FailedDep(job, status, told, y) {
        var d :| d in job.edges && d.stepId == y && d.dependsOn in told && status[d.dependsOn] != Completed;
        assert status'[d.dependsOn] != Completed;
      }
      if FailedDep(job, status', told, y) {
        var d :| d in job.edges && d.stepId == y && d.dependsOn in told && status'[d.dependsOn] != Completed;
        assert status[d.dependsOn] != Completed;
      }
    }
  }

  /** y is launched. */
  lemma LaunchKeeps(job: Job, deps: seq<Dependency>, s: RunState, b: Books, told: set<StepId>, item: StepId, j: nat, y: StepId)
    requires job.Valid() && Telling(job, deps, s, b, told, item, j) && y == DependentsOf(deps, item)[j]
    requires y in job.config && b.inDegree[y] == 1 && s.status[y] == Pending
    ensures var c := Tell(b, y, s.status[item] != Completed);
      Shaped(job, LaunchStep(s, y)) && MidBooks(job, deps, LaunchStep(s, y), c.(activeKeys := Claimed(job, c.activeKeys, y)),
               told, item, DependentsOf(deps, item)[..j + 1])
  {
    TellKeeps(job, deps, s, b, told, item, j, y);
    var failed := s.status[item] != Completed;
    TotalsLaunch(job, s, Tell(b, y, failed), y);
    DeferredIgnores(job, s, b, y, failed, Running);
    FlagsIgnore(job, s.status, s.status[y := Running], Tell(b, y, failed).failedUpstream, told, item, DependentsOf(deps, item)[..j + 1]);
    hide Counted, Flagged, Deferred, PendingIsIdle, Totals, FailedDep;
  }

  function Claimed(job: Job, keys: set<string>, y: StepId): set<string>
    requires y in job.config
  {
    if job.Key(y) != "" then keys + {job.Key(y)} else keys
  }

  lemma ClaimKeeps(job: Job, keys: set<string>, outstanding: set<StepId>, y: StepId)
    requires outstanding <= job.config.Keys && y in job.config && KeysHeld(job, keys, outstanding)
    ensures KeysHeld(job, Claimed(job, keys, y), outstanding + {y})
  {
    forall k ensures k in Claimed(job, keys, y) <==> k != "" && exists z :: z in outstanding + {y} && job.Key(z) == k {
      if k in keys {
        var z :| z in outstanding && job.Key(z) == k;
        assert z in outstanding + {y};
      } else if k == job.Key(y) {
        assert y in outstanding + {y};
      }
    }
  }

  /** y has to wait for its session. */
  lemma DeferKeeps(job: Job, deps: seq<Dependency>, s: RunState, b: Books, told: set<StepId>, item: StepId, j: nat, y: StepId)
    requires job.Valid() && Telling(job, deps, s, b, told, item, j) && y == DependentsOf(deps, item)[j]
    requires y in job.config && b.inDegree[y] == 1 && s.status[y] == Pending
    requires job.config[y].AllDone() || y !in Tell(b, y, s.status[item] != Completed).failedUpstream
    ensures var c := Tell(b, y, s.status[item] != Completed);
      MidBooks(job, deps, s, c.(deferred := c.deferred + [y]), told, item, DependentsOf(deps, item)[..j + 1])
  {
    TellKeeps(job, deps, s, b, told, item, j, y);
    DeferredGrows(job, s, b, y, s.status[item] != Completed);
    hide Counted, Flagged, Deferred, PendingIsIdle, KeysHeld, FailureAmong, FailedDep, Open, DependentsOf;
  }

  lemma DeferredGrows(job: Job, s: RunState, b: Books, y: StepId, upstreamFailed: bool)
    requires job.Valid() && Shaped(job, s) && job.config.Keys <= b.inDegree.Keys && y in job.config
    requires Deferred(job, s.status, b.inDegree, b.failedUpstream, b.deferred) && y !in b.deferred
    requires b.inDegree[y] == 1 && s.status[y] == Pending
    requires job.config[y].AllDone() || y !in Tell(b, y, upstreamFailed).failedUpstream
    ensures var c := Tell(b, y, upstreamFailed); Deferred(job, s.status, c.inDegree, c.failedUpstream, b.deferred + [y])
  {
  }

  /** The next item starts telling. */
  lemma ItemBegins(job: Job, deps: seq<Dependency>, s: RunState, b: Books, told: set<StepId>, item: StepId)
    requires job.Valid() && Shaped(job, s) && QueueBooks(job, deps, s, b, told)
    requires item in s.settled && item !in told
    ensures MidBooks(job, deps, s, b, told, item, DependentsOf(deps, item)[..0])
  {
    assert DependentsOf(deps, item)[..0] == [];
  }

  /** item has told everyone. */
  lemma ItemDone(job: Job, deps: seq<Dependency>, s: RunState, b: Books, told: set<StepId>, item: StepId, n: nat)
    requires job.Valid() && Shaped(job, s) && EdgesOf(job, deps) && n == |DependentsOf(deps, item)|
    requires MidBooks(job, deps, s, b, told, item, DependentsOf(deps, item)[..n])
    ensures QueueBooks(job, deps, s, b, told + {item})
  {
    hide PendingIsIdle, KeysHeld, FailureAmong, Deferred, FailedDep, Open, DependentsOf;
    assert DependentsOf(deps, item)[..n] == DependentsOf(deps, item);
    forall y | y in b.inDegree ensures b.inDegree[y] == Open(deps, y, told + {item}) {
      OpenDrop(deps, y, told, item);
    }
    forall y | y in job.config ensures y in b.failedUpstream <==> FailedDep(job, s.status, told + {item}, y) {
      DependentsAreEdges(deps, item, y);
      FailedDepSplit(job, s.status, told, item, y);
    }
  }

  lemma FailedDepSplit(job: Job, status: map<StepId, Status>, told: set<StepId>, item: StepId, y: StepId)
    requires told <= status.Keys && item in status
    ensures FailedDep(job, status, told + {item}, y) <==>
      FailedDep(job, status, told, y) || (status[item] != Completed && Dependency(y, item) in job.edges)
  {
    if FailedDep(job, status, told + {item}, y) {
      var d :| d in job.edges && d.stepId == y && d.dependsOn in told + {item} && status[d.dependsOn] != Completed;
      if d.dependsOn == item { assert d == Dependency(y, item); }
    }
    if FailedDep(job, status, told, y) {
      var d :| d in job.edges && d.stepId == y && d.dependsOn in told && status[d.dependsOn] != Completed;
      assert d.dependsOn in told + {item};
    }
  }

  // ---------------------------------------------------------------------------
  // Skips and launches made so far are those Advance allows

  lemma SkipAdvances(job: Job, m: RunState, s: RunState, y: StepId)
    requires job.Valid() && Shaped(job, m) && AdvancePart(job, m, s)
    requires y in job.config && s.status[y] == Pending && PendingIsIdle(s)
    requires DepsSettled(job, s.settled, y) && !Runnable(job, s.status, s.settled, y)
    ensures AdvancePart(job, m, SkipStep(s, y))
  {
    var t := SkipStep(s, y);
    GroundedGrows(job, m.settled, s.settled, y);
    hide Grounded;
    forall x | x in job.config ensures Moved(job, m, t, x) {
      assert Moved(job, m, s, x);
      if DepsSettled(job, s.settled, x) { RunnableStable(job, s, t, x); }
    }
  }

  lemma LaunchAdvances(job: Job, m: RunState, s: RunState, y: StepId)
    requires job.Valid() && Shaped(job, m) && AdvancePart(job, m, s)
    requires y in job.config && s.status[y] == Pending && PendingIsIdle(s)
    requires DepsSettled(job, s.settled, y) && Runnable(job, s.status, s.settled, y)
    requires !HeldBy(job, s.outstanding, y)
    ensures AdvancePart(job, m, LaunchStep(s, y))
  {
    hide Grounded;
    var t := LaunchStep(s, y);
    forall x | x in job.config ensures Moved(job, m, t, x) { LaunchMoves(job, m, s, y, x); }
    LaunchExclusive(job, s.outstanding, y);
    hide Moved, Runnable, DepsSettled, HeldBy, Exclusive, PendingIsIdle;
  }

  lemma LaunchMoves(job: Job, m: RunState, s: RunState, y: StepId, x: StepId)
    requires job.Valid() && Shaped(job, m) && AdvancePart(job, m, s) && x in job.config
    requires y in job.config && s.status[y] == Pending && PendingIsIdle(s)
    requires DepsSettled(job, s.settled, y) && Runnable(job, s.status, s.settled, y)
    ensures Shaped(job, LaunchStep(s, y)) && Moved(job, m, LaunchStep(s, y), x)
  {
    var t := LaunchStep(s, y);
    assert Moved(job, m, s, x);
    hide Grounded, Exclusive;
    assert Shaped(job, t);
    if DepsSettled(job, s.settled, x) { RunnableStable(job, s, t, x); }
  }

  lemma LaunchExclusive(job: Job, outstanding: set<StepId>, y: StepId)
    requires outstanding <= job.config.Keys && y in job.config
    requires Exclusive(job, outstanding) && !HeldBy(job, outstanding, y)
    ensures Exclusive(job, outstanding + {y})
  {
    forall x, z | x in outstanding + {y} && z in outstanding + {y} ensures !Conflict(job, x, z) {
      if x == y && z != y { assert !Conflict(job, y, z); }
      if x != y && z == y { assert !Conflict(job, y, x); }
    }
  }

  /** A key is in use exactly if another outstanding step holds it. */
  lemma KeyInUse(job: Job, keys: set<string>, outstanding: set<StepId>, y: StepId)
    requires outstanding <= job.config.Keys && y in job.config && y !in outstanding
    requires KeysHeld(job, keys, outstanding)
    ensures HeldBy(job, outstanding, y) <==> !KeyFree(job, keys, y)
  {
    if !KeyFree(job, keys, y) {
      var z :| z in outstanding && job.Key(z) == job.Key(y);
      assert Conflict(job, y, z);
    }
    if HeldBy(job, outstanding, y) {
      var z :| z in outstanding && Conflict(job, y, z);
      assert job.Key(z) == job.Key(y);
    }
  }

  /** A released key was held by that step alone. */
  lemma ReleaseKeeps(job: Job, keys: set<string>, outstanding: set<StepId>, x: StepId)
    requires outstanding <= job.config.Keys && x in outstanding
    requires KeysHeld(job, keys, outstanding) && Exclusive(job, outstanding)
    ensures KeysHeld(job, keys - {job.Key(x)}, outstanding - {x})
  {
    forall k ensures k in keys - {job.Key(x)} <==> k != "" && exists z :: z in outstanding - {x} && job.Key(z) == k {
      if k in keys - {job.Key(x)} {
        var z :| z in outstanding && job.Key(z) == k;
        assert z in outstanding - {x};
      }
      if k != "" && exists z :: z in outstanding - {x} && job.Key(z) == k {
        var z :| z in outstanding - {x} && job.Key(z) == k;
        assert !Conflict(job, z, x);
        assert z in outstanding && job.Key(z) == k;
      }
    }
  }

  // ---------------------------------------------------------------------------
  // One dependent in full

  predicate KeyFree(job: Job, keys: set<string>, y: StepId)
    requires y in job.config
  {
    job.Key(y) == "" || job.Key(y) !in keys
  }

  /** The run and its books after the dependent y heard that a step it waits for settled. A
      dependent the run does not have only gets its counter and flag changed. */
  function Informed(job: Job, s: RunState, b: Books, y: StepId, upstreamFailed: bool): (RunState, Books)
    requires y in b.inDegree && (y in job.config ==> y in s.status && y in s.launches)
  {
    var c := Tell(b, y, upstreamFailed);
    if y !in job.config || c.inDegree[y] != 0 || s.status[y] != Pending then (s, c)
    else if y in c.failedUpstream && !job.config[y].AllDone() then (SkipStep(s, y), c.(completed := c.completed + 1))
    else if KeyFree(job, c.activeKeys, y) then (LaunchStep(s, y), c.(activeKeys := Claimed(job, c.activeKeys, y)))
    else (s, c.(deferred := c.deferred + [y]))
  }

  lemma InformedKeepsBooks(job: Job, deps: seq<Dependency>, s: RunState, b: Books, told: set<StepId>, item: StepId, j: nat, y: StepId,
                           t: RunState, c: Books)
    requires job.Valid() && Telling(job, deps, s, b, told, item, j) && y == DependentsOf(deps, item)[j] && y in b.inDegree
    requires (t, c) == Informed(job, s, b, y, s.status[item] != Completed)
    ensures Shaped(job, t) && MidBooks(job, deps, t, c, told, item, DependentsOf(deps, item)[..j + 1])
  {
    var d := Tell(b, y, s.status[item] != Completed);
    hide Counted, Flagged, Deferred, PendingIsIdle, Totals, FailedDep;
    if y !in job.config || d.inDegree[y] != 0 || s.status[y] != Pending {
      assert t == s && c == d;
      PassKeeps(job, deps, s, b, told, item, j, y);
    } else if y in d.failedUpstream && !job.config[y].AllDone() {
      assert t == SkipStep(s, y) && c == d.(completed := d.completed + 1);
      SkipKeeps(job, deps, s, b, told, item, j, y);
    } else if KeyFree(job, d.activeKeys, y) {
      assert t == LaunchStep(s, y) && c == d.(activeKeys := Claimed(job, d.activeKeys, y));
      LaunchKeeps(job, deps, s, b, told, item, j, y);
    } else {
      assert t == s && c == d.(deferred := d.deferred + [y]);
      DeferKeeps(job, deps, s, b, told, item, j, y);
    }
  }

  lemma InformedAdvances(job: Job, deps: seq<Dependency>, m: RunState, s: RunState, b: Books, told: set<StepId>, item: StepId, j: nat, y: StepId)
    requires job.Valid() && Telling(job, deps, s, b, told, item, j) && y == DependentsOf(deps, item)[j]
    requires Shaped(job, m) && AdvancePart(job, m, s)
    ensures y in b.inDegree
    ensures AdvancePart(job, m, Informed(job, s, b, y, s.status[item] != Completed).0)
  {
    TellKeeps(job, deps, s, b, told, item, j, y);
    var c := Tell(b, y, s.status[item] != Completed);
    if y in job.config && c.inDegree[y] == 0 && s.status[y] == Pending {
      TellReady(job, deps, s, b, told, item, j, y);
      if y in c.failedUpstream && !job.config[y].AllDone() {
        SkipAdvances(job, m, s, y);
      } else if KeyFree(job, c.activeKeys, y) {
        KeyInUse(job, b.activeKeys, s.outstanding, y);
        LaunchAdvances(job, m, s, y);
      }
    }
  }

  // ---------------------------------------------------------------------------
  // Deferred steps

  /** A deferred step is ready and may run. */
  lemma DeferredIsReady(job: Job, deps: seq<Dependency>, s: RunState, b: Books, y: StepId)
    requires job.Valid() && Shaped(job, s) && EdgesOf(job, deps) && QueueBooks(job, deps, s, b, s.settled)
    requires y in b.deferred
    ensures y in job.config && Ready(job, s.status, s.settled, y) && Runnable(job, s.status, s.settled, y)
  {
    assert y in job.config && b.inDegree[y] == 0;
    OpenZero(deps, y, s.settled);
  }

  /** Every ready step is deferred. */
  lemma ReadyIsDeferred(job: Job, deps: seq<Dependency>, s: RunState, b: Books, y: StepId)
    requires job.Valid() && Shaped(job, s) && EdgesOf(job, deps) && QueueBooks(job, deps, s, b, s.settled)
    requires y in job.config && Ready(job, s.status, s.settled, y)
    ensures y in b.deferred
  {
    OpenZero(deps, y, s.settled);
    assert b.inDegree[y] == 0;
  }

  lemma EdgeBooksIgnore(job: Job, deps: seq<Dependency>, s: RunState, b: Books, y: StepId)
    requires job.Valid() && Shaped(job, s) && EdgeBooks(job, deps, s, b, s.settled)
    requires y in job.config && s.status[y] == Pending
    ensures Shaped(job, LaunchStep(s, y))
    ensures EdgeBooks(job, deps, LaunchStep(s, y), b.(activeKeys := Claimed(job, b.activeKeys, y)), s.settled)
  {
    var t := LaunchStep(s, y);
    TotalsLaunch(job, s, b, y);
    forall x ensures FailedDep(job, s.status, s.settled, x) <==> FailedDep(job, t.status, t.settled, x) {
      FailedDepIgnores(job, s.status, t.status, s.settled, x);
    }
    hide Totals, PendingIsIdle, Counted, FailedDep;
  }

  lemma FailedDepIgnores(job: Job, status: map<StepId, Status>, status': map<StepId, Status>, settled: set<StepId>, x: StepId)
    requires settled <= status.Keys && settled <= status'.Keys
    requires forall y :: y in settled ==> status[y] == status'[y]
    ensures FailedDep(job, status, settled, x) <==> FailedDep(job, status', settled, x)
  {
    if FailedDep(job, status, settled, x) {
      var d :| d in job.edges && d.stepId == x && d.dependsOn in settled && status[d.dependsOn] != Completed;
      assert status'[d.dependsOn] != Completed;
    }
    if FailedDep(job, status', settled, x) {
      var d :| d in job.edges && d.stepId == x && d.dependsOn in settled && status'[d.dependsOn] != Completed;
      assert status[d.dependsOn] != Completed;
    }
  }

  /** Launching one deferred step takes it off the list and changes nothing else in the books. */
  lemma LaunchDeferred(job: Job, deps: seq<Dependency>, s: RunState, b: Books, before: seq<StepId>, y: StepId, after: seq<StepId>)
    requires job.Valid() && Shaped(job, s) && EdgesOf(job, deps) && QueueBooks(job, deps, s, b, s.settled)
    requires b.deferred == before + [y] + after && y in job.config
    ensures Shaped(job, LaunchStep(s, y))
    ensures QueueBooks(job, deps, LaunchStep(s, y),
                       b.(activeKeys := Claimed(job, b.activeKeys, y), deferred := before + after), s.settled)
  {
    assert b.deferred[|before|] == y;
    DeferredIsReady(job, deps, s, b, y);
    EdgeBooksIgnore(job, deps, s, b, y);
    var t := LaunchStep(s, y);
    RemoveOne(before, y, after);
    assert Deferred(job, t.status, b.inDegree, b.failedUpstream, before + after);
  }

  lemma RemoveOne(before: seq<StepId>, y: StepId, after: seq<StepId>)
    requires Distinct(before + [y] + after)
    ensures Distinct(before + after)
    ensures forall x :: x in before + after <==> x in before + [y] + after && x != y
  {
    var all, rest, k := before + [y] + after, before + after, |before|;
    assert all[k] == y;
    forall i | 0 <= i < |rest| ensures rest[i] == all[if i < k then i else i + 1] {
    }
    forall x | x in all && x != y ensures x in rest {
      var i :| 0 <= i < |all| && all[i] == x;
      assert rest[if i < k then i else i - 1] == x;
    }
  }

  /** With every deferred step's session in use, the run has advanced as far as it can. */
  lemma AdvanceComplete(job: Job, deps: seq<Dependency>, m: RunState, s: RunState, b: Books)
    requires job.Valid() && Shaped(job, m) && AdvancePart(job, m, s) && EdgesOf(job, deps)
    requires QueueBooks(job, deps, s, b, s.settled)
    requires forall y :: y in b.deferred ==> HeldBy(job, s.outstanding, y)
    ensures Advance(job, m, s)
  {
    forall x | x in job.config && Ready(job, s.status, s.settled, x)
      ensures Runnable(job, s.status, s.settled, x) && HeldBy(job, s.outstanding, x)
    {
      ReadyIsDeferred(job, deps, s, b, x);
      DeferredIsReady(job, deps, s, b, x);
    }
  }
}
