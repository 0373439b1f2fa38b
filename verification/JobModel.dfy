/** The data a run is made of: step snapshots, dependency edges and the dependency graph they form. */
module JobModel {

  type StepId = string

  datatype Option<+T> = None | Some(value: T)

  function Find<K, V>(m: map<K, V>, k: K): Option<V> {
    if k in m then Some(m[k]) else None
  }

  datatype Status = Pending | Running | Completed | Failed | Skipped | Cancelled

  /** The immutable part of a run step: the snapshot taken when the run was created.
      An empty session key means the step shares no session. */
  datatype StepConfig = StepConfig(sessionKey: string, runIf: string, onFailure: string, maxRetries: int) {

    /** Every run_if other than "all_done" behaves as "all_success". */
    predicate AllDone() {
      runIf == "all_done"
    }

    predicate FailsRun() {
      onFailure == "fail_run"
    }

    /** How often the executor may be asked to run the step: attempts count from 1, and a
        retry is granted while the attempt number does not exceed a positive maxRetries. */
    function MaxLaunches(): nat {
      if maxRetries > 0 then 1 + maxRetries else 1
    }
  }

  /** stepId may start only after dependsOn has settled. */
  datatype Dependency = Dependency(stepId: StepId, dependsOn: StepId)

  datatype Job = Job(config: map<StepId, StepConfig>, edges: set<Dependency>) {

    /** Every edge leads to a step of the job. It may come from a step the job does not have: a
        run keeps the steps it was created with, while edges are read anew when it is rebuilt. */
    ghost predicate Valid() {
      forall d :: d in edges ==> d.stepId in config
    }

    ghost function Inner(): set<Dependency> {
      set d | d in edges && d.dependsOn in config
    }

    function Key(x: StepId): string
      requires x in config
    {
      config[x].sessionKey
    }
  }

  /** order lists every step once, and every step after all of its dependencies. */
  ghost predicate TopologicalOrder(order: seq<StepId>, ids: set<StepId>, edges: set<Dependency>) {
    && (forall i, j :: 0 <= i < j < |order| ==> order[i] != order[j])
    && (set x | x in order) == ids
    && (forall i, d :: 0 <= i < |order| && d in edges && d.stepId == order[i] ==> d.dependsOn in order[..i])
  }

  ghost predicate Acyclic(ids: set<StepId>, edges: set<Dependency>) {
    exists order :: TopologicalOrder(order, ids, edges)
  }

  /** Any part of an acyclic graph is acyclic: its steps can be taken in the same order. */
  lemma {:induction false} PartOfOrder(order: seq<StepId>, ids: set<StepId>, edges: set<Dependency>, part: set<StepId>)
    requires TopologicalOrder(order, ids, edges) && part <= ids
    ensures Acyclic(part, set d | d in edges && d.stepId in part && d.dependsOn in part)
  {
    var inner := set d | d in edges && d.stepId in part && d.dependsOn in part;
    if order == [] {
      assert part == {};
      assert TopologicalOrder([], part, inner);
    } else {
      var n := |order| - 1;
      var x, before := order[n], order[..n];
      assert (set y | y in order) == (set y | y in before) + {x};
      assert TopologicalOrder(before, (set y | y in before), edges) by {
        forall i, d | 0 <= i < n && d in edges && d.stepId == before[i] ensures d.dependsOn in before[..i] {
          assert before[..i] == order[..i] && d.stepId == order[i];
        }
      }
      PartOfOrder(before, (set y | y in before), edges, part - {x});
      var rest :| TopologicalOrder(rest, part - {x}, set d | d in edges && d.stepId in part - {x} && d.dependsOn in part - {x});
      if x in part { PartGrows(rest, x, part, edges, before); } else { assert part - {x} == part; assert TopologicalOrder(rest, part, inner); }
    }
  }

  lemma PartGrows(rest: seq<StepId>, x: StepId, part: set<StepId>, edges: set<Dependency>, before: seq<StepId>)
    requires x in part && x !in before && part - {x} <= set y | y in before
    requires TopologicalOrder(rest, part - {x}, set d | d in edges && d.stepId in part - {x} && d.dependsOn in part - {x})
    requires forall d :: d in edges && (d.stepId == x || d.stepId in before) ==> d.dependsOn in before
    ensures Acyclic(part, set d | d in edges && d.stepId in part && d.dependsOn in part)
  {
    var longer := rest + [x];
    var inner := set d | d in edges && d.stepId in part && d.dependsOn in part;
    assert forall y :: y in rest <==> y in (set z | z in rest);
    forall i, d | 0 <= i < |longer| && d in inner && d.stepId == longer[i] ensures d.dependsOn in longer[..i] {
      if i < |rest| {
        assert longer[i] == rest[i] && rest[i] in rest && longer[..i] == rest[..i];
        assert d.stepId in part - {x} && d.stepId in (set y | y in before);
        assert d.dependsOn in part - {x};
        assert d.dependsOn in rest[..i];
      } else {
        assert longer[..i] == rest;
        assert d.stepId == x && d.dependsOn in part - {x};
      }
    }
    assert (set y | y in longer) == (set y | y in rest) + {x};
    assert TopologicalOrder(longer, part, inner);
  }

  ghost predicate Distinct<T>(s: seq<T>) {
    forall i, j :: 0 <= i < j < |s| ==> s[i] != s[j]
  }

  lemma DistinctConcat<T>(a: seq<T>, b: seq<T>)
    requires Distinct(a) && Distinct(b) && forall x :: x in a ==> x !in b
    ensures Distinct(a + b)
  {
    forall i, j | 0 <= i < j < |a + b| ensures (a + b)[i] != (a + b)[j] {
      if i < |a| <= j { assert a[i] in a && b[j - |a|] in b; }
    }
  }

  /** One more of a sequence of steps taken. */
  lemma PastGrows<T>(steps: seq<T>, i: nat)
    requires i < |steps|
    ensures steps[..i + 1] == steps[..i] + [steps[i]]
    ensures forall e :: e in steps[..i + 1] <==> e in steps[..i] || e == steps[i]
    ensures forall e :: multiset(steps[..i + 1])[e] == multiset(steps[..i])[e] + if e == steps[i] then 1 else 0
  {
    assert steps[..i + 1] == steps[..i] + [steps[i]];
  }

  /** A duplicate-free sequence is as long as its set of elements is large. */
  lemma {:induction false} DistinctSize<T>(s: seq<T>)
    requires Distinct(s)
    ensures |set x | x in s| == |s|
  {
    if s == [] {
      assert (set x | x in s) == {};
    } else {
      var n := |s| - 1;
      DistinctSize(s[..n]);
      assert (set x | x in s) == (set x | x in s[..n]) + {s[n]};
    }
  }

  lemma {:induction false} SubsetSize<T>(a: set<T>, b: set<T>)
    requires a <= b
    ensures |a| <= |b|
    ensures |a| == |b| ==> a == b
  {
    if a != {} {
      var x :| x in a;
      SubsetSize(a - {x}, b - {x});
    }
  }
}
