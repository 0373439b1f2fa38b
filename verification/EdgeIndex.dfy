/** The adjacency list and in-degrees that both the validator and the scheduler start from. */
module EdgeIndex {
  import opened JobModel
  import opened Bookkeeping

  /** The adjacency list holds, for every step, its dependents in the order of their edges. */
  ghost predicate Groups(deps: seq<Dependency>, dependents: map<StepId, seq<StepId>>) {
    forall x :: (if x in dependents then dependents[x] else []) == DependentsOf(deps, x)
  }

  function Grouped(dependents: map<StepId, seq<StepId>>, d: Dependency): map<StepId, seq<StepId>> {
    dependents[d.dependsOn := (if d.dependsOn in dependents then dependents[d.dependsOn] else []) + [d.stepId]]
  }

  lemma GroupsGrow(deps: seq<Dependency>, dependents: map<StepId, seq<StepId>>, d: Dependency)
    requires Groups(deps, dependents)
    ensures Groups(deps + [d], Grouped(dependents, d))
  {
    assert (deps + [d])[..|deps|] == deps;
  }

  lemma {:induction false} NoOpenEdges(deps: seq<Dependency>, y: StepId)
    requires forall d :: d in deps ==> d.stepId != y
    ensures Open(deps, y, {}) == 0
  {
    if deps != [] { NoOpenEdges(deps[..|deps| - 1], y); }
  }

  lemma NothingIndexed(zero: map<StepId, int>)
    requires forall x :: x in zero ==> zero[x] == 0
    ensures Groups([], map[]) && Counted([], zero, {}, []) && Targets([]) == {}
  {
  }

  method GroupDependents(deps: seq<Dependency>) returns (dependents: map<StepId, seq<StepId>>)
    ensures Groups(deps, dependents)
  {
    hide *;
    dependents := map[];
    NothingIndexed(map[]);
    for k := 0 to |deps|
      invariant Groups(deps[..k], dependents)
    {
      GroupsGrow(deps[..k], dependents, deps[k]);
      assert deps[..k + 1] == deps[..k] + [deps[k]];
      dependents := Grouped(dependents, deps[k]);
    }
    assert deps[..|deps|] == deps;
  }

  /** The adjacency list of the edges and the number of edges into each step. A step that only
      the edges name gets a counter too. */
  method IndexEdges(deps: seq<Dependency>, zero: map<StepId, int>)
    returns (dependents: map<StepId, seq<StepId>>, inDegree: map<StepId, int>)
    requires forall x :: x in zero ==> zero[x] == 0
    ensures inDegree.Keys == zero.Keys + Targets(deps) && Counted(deps, inDegree, {}, [])
    ensures Groups(deps, dependents)
  {
    hide *;
    dependents, inDegree := map[], zero;
    NothingIndexed(zero);
    for k := 0 to |deps|
      invariant inDegree.Keys == zero.Keys + Targets(deps[..k]) && Counted(deps[..k], inDegree, {}, [])
      invariant Groups(deps[..k], dependents)
    {
      var d := deps[k];
      GroupsGrow(deps[..k], dependents, d);
      CountedGrows(deps[..k], inDegree, d);
      assert deps[..k + 1] == deps[..k] + [d];
      dependents := Grouped(dependents, d);
      inDegree := Increased(inDegree, d.stepId);
    }
    assert deps[..|deps|] == deps;
  }

  function Increased(inDegree: map<StepId, int>, y: StepId): map<StepId, int> {
    inDegree[y := (if y in inDegree then inDegree[y] else 0) + 1]
  }

  lemma CountedGrows(deps: seq<Dependency>, inDegree: map<StepId, int>, d: Dependency)
    requires Counted(deps, inDegree, {}, [])
    ensures Counted(deps + [d], Increased(inDegree, d.stepId), {}, [])
    ensures Increased(inDegree, d.stepId).Keys == inDegree.Keys + {d.stepId}
    ensures Targets(deps + [d]) == Targets(deps) + {d.stepId}
  {
    if d.stepId !in inDegree {
      forall e | e in deps ensures e.stepId != d.stepId {}
      NoOpenEdges(deps, d.stepId);
    }
    assert (deps + [d])[..|deps|] == deps;
  }
}
