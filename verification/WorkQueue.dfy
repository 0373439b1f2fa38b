/** The two loops inside a critical section: the work queue of settled steps and the sweep over
    deferred steps, each as an invariant with lemmas for its steps. */
module WorkQueue {
  import opened JobModel
  import opened RunMachine
  import opened Bookkeeping

  datatype WorkItem = WorkItem(stepId: StepId, failed: bool)

  ghost function QueueIds(queue: seq<WorkItem>): set<StepId> {
    set i | 0 <= i < |queue| :: queue[i].stepId
  }

  /** The settled steps that still have to tell their dependents, in telling order. */
  ghost predicate QueueOk(s: RunState, told: set<StepId>, queue: seq<WorkItem>)
    requires s.settled <= s.status.Keys
  {
    && (forall i, j :: 0 <= i < j < |queue| ==> queue[i].stepId != queue[j].stepId)
    && told !! QueueIds(queue)
    && s.settled == told + QueueIds(queue)
    && (forall i :: 0 <= i < |queue| ==> queue[i].stepId in s.settled && (queue[i].failed <==> s.status[queue[i].stepId] != Completed))
  }

  /** list names every step launched since outstanding was before, once. */
  ghost predicate LaunchList(list: seq<StepId>, before: set<StepId>, after: set<StepId>) {
    && Distinct(list)
    && (forall x :: x in list ==> x !in before)
    && after == before + set x | x in list
  }

  lemma LaunchListGrows(list: seq<StepId>, before: set<StepId>, after: set<StepId>, y: StepId)
    requires LaunchList(list, before, after) && y !in after
    ensures LaunchList(list + [y], before, after + {y})
  {
  }

  lemma NoneLaunched(list: seq<StepId>, before: set<StepId>, after: set<StepId>)
    requires LaunchList(list, before, after) && after <= before
    ensures list == []
  {
    DistinctSize(list);
    assert (set x | x in list) == {};
  }

  lemma QueueBegins(s: RunState, told: set<StepId>, x: StepId, failed: bool)
    requires s.settled <= s.status.Keys && x in s.settled && x !in told && s.settled == told + {x}
    requires failed <==> s.status[x] != Completed
    ensures QueueOk(s, told, [WorkItem(x, failed)])
  {
    var queue := [WorkItem(x, failed)];
    assert queue[0].stepId in QueueIds(queue);
    assert QueueIds(queue) == {x};
  }

  lemma QueuePops(s: RunState, told: set<StepId>, queue: seq<WorkItem>)
    requires s.settled <= s.status.Keys && QueueOk(s, told, queue) && queue != []
    ensures queue[0].stepId in s.settled && queue[0].stepId !in told
    ensures QueueOk(s, told + {queue[0].stepId}, queue[1..])
  {
    var rest := queue[1..];
    assert queue[0].stepId in QueueIds(queue);
    forall y | y in QueueIds(queue) && y != queue[0].stepId ensures y in QueueIds(rest) {
      var i :| 0 <= i < |queue| && queue[i].stepId == y;
      assert rest[i - 1].stepId == y;
    }
    forall y | y in QueueIds(rest) ensures y in QueueIds(queue) && y != queue[0].stepId {
      var i :| 0 <= i < |rest| && rest[i].stepId == y;
      assert queue[i + 1].stepId == y;
    }
  }

  lemma QueueGrows(s: RunState, told: set<StepId>, queue: seq<WorkItem>, y: StepId)
    requires s.settled <= s.status.Keys && QueueOk(s, told, queue) && y in s.status && y !in s.settled
    ensures QueueOk(SkipStep(s, y), told, queue + [WorkItem(y, true)])
  {
    var grown := queue + [WorkItem(y, true)];
    assert grown[|queue|].stepId in QueueIds(grown);
    forall z | z in QueueIds(queue) ensures z in QueueIds(grown) {
      var i :| 0 <= i < |queue| && queue[i].stepId == z;
      assert grown[i].stepId == z;
    }
    assert QueueIds(grown) == QueueIds(queue) + {y};
    forall i | 0 <= i < |queue| ensures queue[i].stepId != y { assert queue[i].stepId in QueueIds(queue); }
  }

  /** y was pending and has become st. */
  predicate Turned(s: RunState, t: RunState, y: StepId, st: Status) {
    y in s.status && s.status[y] == Pending && y in t.status && t.status[y] == st
  }

  /** Informing a dependent queues it exactly if it was skipped. */
  lemma InformedQueue(job: Job, s: RunState, b: Books, y: StepId, upstreamFailed: bool, t: RunState, told: set<StepId>, queue: seq<WorkItem>)
    requires Shaped(job, s) && y in b.inDegree && PendingIsIdle(s) && QueueOk(s, told, queue)
    requires t == Informed(job, s, b, y, upstreamFailed).0
    ensures QueueOk(t, told, if Turned(s, t, y, Skipped) then queue + [WorkItem(y, true)] else queue)
    ensures s.settled <= t.settled && forall x :: x in s.settled ==> t.status[x] == s.status[x]
  {
    if Turned(s, t, y, Skipped) {
      assert t == SkipStep(s, y);
      QueueGrows(s, told, queue, y);
    }
  }

  lemma InformedLaunches(job: Job, s: RunState, b: Books, y: StepId, upstreamFailed: bool, t: RunState, list: seq<StepId>, before: set<StepId>)
    requires Shaped(job, s) && y in b.inDegree && PendingIsIdle(s) && LaunchList(list, before, s.outstanding)
    requires t == Informed(job, s, b, y, upstreamFailed).0
    ensures LaunchList(if Turned(s, t, y, Running) then list + [y] else list, before, t.outstanding)
  {
    if Turned(s, t, y, Running) {
      assert t == LaunchStep(s, y);
      LaunchListGrows(list, before, s.outstanding, y);
    }
  }

  /** The work queue between two items. */
  ghost predicate Queueing(job: Job, deps: seq<Dependency>, m: RunState, s: RunState, b: Books,
                           told: set<StepId>, queue: seq<WorkItem>, list: seq<StepId>)
  {
    && job.Valid() && EdgesOf(job, deps) && Shaped(job, m) && Shaped(job, s) && AdvancePart(job, m, s)
    && QueueBooks(job, deps, s, b, told)
    && QueueOk(s, told, queue) && LaunchList(list, m.outstanding, s.outstanding)
  }

  /** The work queue while item has told its first j dependents. */
  ghost predicate Visiting(job: Job, deps: seq<Dependency>, m: RunState, s: RunState, b: Books,
                           told: set<StepId>, item: WorkItem, j: nat, queue: seq<WorkItem>, list: seq<StepId>)
  {
    && job.Valid() && EdgesOf(job, deps) && Shaped(job, m) && Shaped(job, s) && AdvancePart(job, m, s)
    && j <= |DependentsOf(deps, item.stepId)|
    && MidBooks(job, deps, s, b, told, item.stepId, DependentsOf(deps, item.stepId)[..j])
    && (item.failed <==> s.status[item.stepId] != Completed)
    && QueueOk(s, told + {item.stepId}, queue) && LaunchList(list, m.outstanding, s.outstanding)
  }

  lemma VisitBegins(job: Job, deps: seq<Dependency>, m: RunState, s: RunState, b: Books,
                    told: set<StepId>, queue: seq<WorkItem>, list: seq<StepId>)
    requires Queueing(job, deps, m, s, b, told, queue, list) && queue != []
    ensures queue[0].stepId in job.config && queue[0].stepId !in told
    ensures Visiting(job, deps, m, s, b, told, queue[0], 0, queue[1..], list)
  {
    QueuePops(s, told, queue);
    ItemBegins(job, deps, s, b, told, queue[0].stepId);
  }

  lemma QueueEmpty(job: Job, deps: seq<Dependency>, m: RunState, s: RunState, b: Books, told: set<StepId>, list: seq<StepId>)
    requires Queueing(job, deps, m, s, b, told, [], list)
    ensures told == s.settled
  {
    assert QueueIds([]) == {};
  }

  lemma VisitEnds(job: Job, deps: seq<Dependency>, m: RunState, s: RunState, b: Books,
                  told: set<StepId>, item: WorkItem, j: nat, queue: seq<WorkItem>, list: seq<StepId>)
    requires Visiting(job, deps, m, s, b, told, item, j, queue, list) && j == |DependentsOf(deps, item.stepId)|
    ensures Queueing(job, deps, m, s, b, told + {item.stepId}, queue, list)
  {
    ItemDone(job, deps, s, b, told, item.stepId, j);
  }

  lemma VisitFacts(job: Job, deps: seq<Dependency>, m: RunState, s: RunState, b: Books,
                   told: set<StepId>, item: WorkItem, j: nat, queue: seq<WorkItem>, list: seq<StepId>)
    requires Visiting(job, deps, m, s, b, told, item, j, queue, list) && j < |DependentsOf(deps, item.stepId)|
    ensures var y := DependentsOf(deps, item.stepId)[j]; y in b.inDegree && (y in job.config ==> y in s.status && y in s.launches)
  {
    TellKeeps(job, deps, s, b, told, item.stepId, j, DependentsOf(deps, item.stepId)[j]);
  }

  lemma VisitStep(job: Job, deps: seq<Dependency>, m: RunState, s: RunState, b: Books,
                  told: set<StepId>, item: WorkItem, j: nat, queue: seq<WorkItem>, list: seq<StepId>,
                  y: StepId, t: RunState, c: Books)
    requires Visiting(job, deps, m, s, b, told, item, j, queue, list) && j < |DependentsOf(deps, item.stepId)|
    requires y == DependentsOf(deps, item.stepId)[j] && y in b.inDegree && (y in job.config ==> y in s.status && y in s.launches)
    requires (t, c) == Informed(job, s, b, y, item.failed)
    ensures Visiting(job, deps, m, t, c, told, item, j + 1,
                     if Turned(s, t, y, Skipped) then queue + [WorkItem(y, true)] else queue,
                     if Turned(s, t, y, Running) then list + [y] else list)
  {
    InformedKeepsBooks(job, deps, s, b, told, item.stepId, j, y, t, c);
    InformedAdvances(job, deps, m, s, b, told, item.stepId, j, y);
    InformedQueue(job, s, b, y, item.failed, t, told + {item.stepId}, queue);
    InformedLaunches(job, s, b, y, item.failed, t, list, m.outstanding);
    hide MidBooks, QueueOk, LaunchList, AdvancePart, Informed;
  }

  // ---------------------------------------------------------------------------
  // The deferred list

  /** The deferred list part way through re-evaluation: remaining stays, rest is still to be looked at. */
  ghost predicate Sweeping(job: Job, deps: seq<Dependency>, m: RunState, s: RunState, b: Books,
                           remaining: seq<StepId>, rest: seq<StepId>, list: seq<StepId>)
  {
    && job.Valid() && EdgesOf(job, deps) && Shaped(job, m) && Shaped(job, s) && AdvancePart(job, m, s)
    && QueueBooks(job, deps, s, b.(deferred := remaining + rest), s.settled)
    && (forall y :: y in remaining ==> y in job.config && HeldBy(job, s.outstanding, y))
    && LaunchList(list, m.outstanding, s.outstanding)
  }

  lemma SweepBegins(job: Job, deps: seq<Dependency>, m: RunState, s: RunState, b: Books, list: seq<StepId>)
    requires Queueing(job, deps, m, s, b, s.settled, [], list)
    ensures Sweeping(job, deps, m, s, b, [], b.deferred, list)
  {
    assert [] + b.deferred == b.deferred;
    assert b.(deferred := b.deferred) == b;
  }

  /** A deferred step is ready, may run, and lacks nothing but its session. */
  lemma SweepHead(job: Job, deps: seq<Dependency>, s: RunState, b: Books, remaining: seq<StepId>, rest: seq<StepId>)
    requires job.Valid() && EdgesOf(job, deps) && Shaped(job, s) && rest != []
    requires QueueBooks(job, deps, s, b.(deferred := remaining + rest), s.settled)
    ensures rest[0] in job.config && Ready(job, s.status, s.settled, rest[0]) && Runnable(job, s.status, s.settled, rest[0])
    ensures HeldBy(job, s.outstanding, rest[0]) <==> !KeyFree(job, b.activeKeys, rest[0])
    ensures PendingIsIdle(s)
    ensures job.config[rest[0]].AllDone() || rest[0] !in b.failedUpstream
  {
    assert (remaining + rest)[|remaining|] == rest[0];
    DeferredIsReady(job, deps, s, b.(deferred := remaining + rest), rest[0]);
    KeyInUse(job, b.activeKeys, s.outstanding, rest[0]);
  }

  lemma SweepFacts(job: Job, deps: seq<Dependency>, m: RunState, s: RunState, b: Books,
                   remaining: seq<StepId>, rest: seq<StepId>, list: seq<StepId>)
    requires Sweeping(job, deps, m, s, b, remaining, rest, list) && rest != []
    ensures rest[0] in job.config && rest[0] in s.status && rest[0] in s.launches && s.status[rest[0]] == Pending
    ensures job.config[rest[0]].AllDone() || rest[0] !in b.failedUpstream
  {
    hide AdvancePart, QueueBooks, LaunchList, HeldBy;
    SweepHead(job, deps, s, b, remaining, rest);
  }

  lemma SweepLaunch(job: Job, deps: seq<Dependency>, m: RunState, s: RunState, b: Books,
                    remaining: seq<StepId>, rest: seq<StepId>, list: seq<StepId>)
    requires Sweeping(job, deps, m, s, b, remaining, rest, list) && rest != []
    requires rest[0] in job.config && rest[0] in s.launches && KeyFree(job, b.activeKeys, rest[0])
    ensures Sweeping(job, deps, m, LaunchStep(s, rest[0]), b.(activeKeys := Claimed(job, b.activeKeys, rest[0])),
                     remaining, rest[1..], list + [rest[0]])
  {
    hide AdvancePart, QueueBooks, LaunchList, HeldBy, KeyFree, Runnable, Claimed;
    var y := rest[0];
    SweepHead(job, deps, s, b, remaining, rest);
    LaunchAdvances(job, m, s, y);
    assert remaining + rest == remaining + [y] + rest[1..];
    LaunchDeferred(job, deps, s, b.(deferred := remaining + rest), remaining, y, rest[1..]);
    LaunchListGrows(list, m.outstanding, s.outstanding, y);
    forall z | z in remaining ensures HeldBy(job, s.outstanding + {y}, z) {
      HeldByMore(job, s.outstanding, y, z);
    }
  }

  lemma HeldByMore(job: Job, holders: set<StepId>, y: StepId, z: StepId)
    requires holders <= job.config.Keys && y in job.config && z in job.config && HeldBy(job, holders, z)
    ensures HeldBy(job, holders + {y}, z)
  {
    var w :| w in holders && Conflict(job, z, w);
    assert w in holders + {y};
  }

  lemma SweepKeep(job: Job, deps: seq<Dependency>, m: RunState, s: RunState, b: Books,
                  remaining: seq<StepId>, rest: seq<StepId>, list: seq<StepId>)
    requires Sweeping(job, deps, m, s, b, remaining, rest, list) && rest != []
    requires rest[0] in job.config && !KeyFree(job, b.activeKeys, rest[0])
    ensures Sweeping(job, deps, m, s, b, remaining + [rest[0]], rest[1..], list)
  {
    hide AdvancePart, QueueBooks, LaunchList, HeldBy, KeyFree, Runnable;
    SweepHead(job, deps, s, b, remaining, rest);
    assert remaining + rest == (remaining + [rest[0]]) + rest[1..];
  }

  lemma SweepEnds(job: Job, deps: seq<Dependency>, m: RunState, s: RunState, b: Books, remaining: seq<StepId>, list: seq<StepId>)
    requires Sweeping(job, deps, m, s, b, remaining, [], list) && s.started
    ensures Shaped(job, m) && Shaped(job, s) && Advance(job, m, s) && LaunchList(list, m.outstanding, s.outstanding)
    ensures RestBooks(job, deps, s, b.(deferred := remaining))
  {
    assert remaining + [] == remaining;
    AdvanceComplete(job, deps, m, s, b.(deferred := remaining));
  }
}
