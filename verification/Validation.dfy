/** Cycle detection on a job's dependency edges, and the handler that keeps stored edges acyclic. */
module Validation {
  import opened JobModel
  import opened Bookkeeping
  import opened EdgeIndex

  ghost predicate ValidEdges(ids: seq<StepId>, deps: seq<Dependency>) {
    && Distinct(ids)
    && (forall d :: d in deps ==> d.stepId in ids && d.dependsOn in ids)
  }

  ghost function Elements(s: seq<StepId>): set<StepId> {
    set x | x in s
  }

  ghost function EdgeSet(deps: seq<Dependency>): set<Dependency> {
    set d | d in deps
  }

  /** order has been peeled off: it lists steps after all their dependencies. */
  ghost predicate Peeled(deps: seq<Dependency>, order: seq<StepId>) {
    && Distinct(order)
    && (forall i, d :: 0 <= i < |order| && d in deps && d.stepId == order[i] ==> d.dependsOn in order[..i])
  }

  /** The steps with in-degree zero are those peeled off and those waiting in the queue. */
  ghost predicate ZeroesKnown(inDegree: map<StepId, int>, peeled: set<StepId>, queue: seq<StepId>) {
    && Distinct(queue)
    && (forall x :: x in queue ==> x in inDegree && x !in peeled)
    && (forall x {:trigger inDegree[x]} {:trigger x in queue} :: x in inDegree ==> (inDegree[x] == 0 <==> x in peeled || x in queue))
  }

  /** Between two nodes of the Kahn loop. */
  ghost predicate Peeling(ids: seq<StepId>, deps: seq<Dependency>, inDegree: map<StepId, int>, order: seq<StepId>, queue: seq<StepId>) {
    && ValidEdges(ids, deps) && inDegree.Keys == Elements(ids) && Elements(order) <= Elements(ids)
    && Peeled(deps, order)
    && Counted(deps, inDegree, Elements(order), [])
    && ZeroesKnown(inDegree, Elements(order), queue)
  }

  /** While the edges out of node, the last step peeled off, are being closed. */
  ghost predicate PeelingNode(ids: seq<StepId>, deps: seq<Dependency>, inDegree: map<StepId, int>,
                              order: seq<StepId>, node: StepId, j: nat, queue: seq<StepId>)
  {
    && ValidEdges(ids, deps) && inDegree.Keys == Elements(ids) && Elements(order) <= Elements(ids)
    && node in ids && node !in order && j <= |DependentsOf(deps, node)|
    && Peeled(deps, order + [node])
    && Counted(deps, inDegree, Elements(order), DependentsOf(deps, node)[..j])
    && ZeroesKnown(inDegree, Elements(order) + {node}, queue)
  }

  lemma PeelBegins(ids: seq<StepId>, deps: seq<Dependency>, inDegree: map<StepId, int>, order: seq<StepId>, queue: seq<StepId>)
    requires Peeling(ids, deps, inDegree, order, queue) && queue != []
    ensures PeelingNode(ids, deps, inDegree, order, queue[0], 0, queue[1..])
  {
    var node := queue[0];
    assert node in queue && inDegree[node] == 0;
    OpenZero(deps, node, Elements(order));
    PeelOne(deps, order, node);
    assert DependentsOf(deps, node)[..0] == [];
    PopKnown(inDegree, Elements(order), queue);
  }

  lemma PeelOne(deps: seq<Dependency>, order: seq<StepId>, node: StepId)
    requires Peeled(deps, order) && node !in order
    requires forall d :: d in deps && d.stepId == node ==> d.dependsOn in Elements(order)
    ensures Peeled(deps, order + [node])
  {
    var grown := order + [node];
    forall i, d | 0 <= i < |grown| && d in deps && d.stepId == grown[i] ensures d.dependsOn in grown[..i] {
      assert grown[..i] == order[..i];
      if i == |order| { assert order[..i] == order; }
    }
  }

  lemma PopKnown(inDegree: map<StepId, int>, peeled: set<StepId>, queue: seq<StepId>)
    requires ZeroesKnown(inDegree, peeled, queue) && queue != []
    ensures ZeroesKnown(inDegree, peeled + {queue[0]}, queue[1..])
  {
    assert queue == [queue[0]] + queue[1..];
  }

  lemma PeelStep(ids: seq<StepId>, deps: seq<Dependency>, inDegree: map<StepId, int>,
                 order: seq<StepId>, node: StepId, j: nat, queue: seq<StepId>, y: StepId)
    requires PeelingNode(ids, deps, inDegree, order, node, j, queue) && j < |DependentsOf(deps, node)|
    requires y == DependentsOf(deps, node)[j]
    ensures y in inDegree && inDegree[y] >= 1
    ensures PeelingNode(ids, deps, inDegree[y := inDegree[y] - 1], order, node, j + 1, if inDegree[y] == 1 then queue + [y] else queue)
  {
    hide Peeled, Counted;
    assert y in inDegree by {
      DependentsAreEdges(deps, node, y);
      assert y in DependentsOf(deps, node);
    }
    TellCounts(deps, inDegree, Elements(order), node, j);
  }

  lemma PeelEnds(ids: seq<StepId>, deps: seq<Dependency>, inDegree: map<StepId, int>, order: seq<StepId>, node: StepId, j: nat, queue: seq<StepId>)
    requires PeelingNode(ids, deps, inDegree, order, node, j, queue) && j == |DependentsOf(deps, node)|
    ensures Peeling(ids, deps, inDegree, order + [node], queue)
  {
    assert Elements(order + [node]) == Elements(order) + {node};
    assert DependentsOf(deps, node)[..j] == DependentsOf(deps, node);
    forall y | y in inDegree ensures inDegree[y] == Open(deps, y, Elements(order) + {node}) {
      OpenDrop(deps, y, Elements(order), node);
    }
    hide Peeled, ZeroesKnown, DependentsOf;
  }

  /** With the queue empty, having peeled off every step means an order exists... */
  lemma AllPeeledIsAcyclic(ids: seq<StepId>, deps: seq<Dependency>, inDegree: map<StepId, int>, order: seq<StepId>)
    requires Peeling(ids, deps, inDegree, order, []) && |order| == |ids|
    ensures Acyclic(Elements(ids), EdgeSet(deps))
  {
    DistinctSize(order);
    DistinctSize(ids);
    SubsetSize(Elements(order), Elements(ids));
    assert TopologicalOrder(order, Elements(ids), EdgeSet(deps));
  }

  lemma Missing<T>(a: set<T>, b: set<T>) returns (w: T)
    requires a <= b && |a| != |b|
    ensures w in b && w !in a
  {
    assert b == a + (b - a);
    assert b - a == {} ==> a + (b - a) == a;
    w :| w in b - a;
  }

  /** ... and having left one over means none does: the first step left over in any order would
      have had no open edge. */
  lemma LeftoverIsCyclic(ids: seq<StepId>, deps: seq<Dependency>, inDegree: map<StepId, int>, order: seq<StepId>)
    requires Peeling(ids, deps, inDegree, order, []) && |order| != |ids|
    ensures !Acyclic(Elements(ids), EdgeSet(deps))
  {
    if Acyclic(Elements(ids), EdgeSet(deps)) {
      var other :| TopologicalOrder(other, Elements(ids), EdgeSet(deps));
      DistinctSize(order);
      DistinctSize(ids);
      var w := Missing(Elements(order), Elements(ids));
      var k :| 0 <= k < |other| && other[k] == w;
      LeftoverImpossible(ids, deps, inDegree, order, other, k);
    }
  }

  lemma {:induction false} LeftoverImpossible(
    ids: seq<StepId>, deps: seq<Dependency>, inDegree: map<StepId, int>, order: seq<StepId>, other: seq<StepId>, k: nat)
    requires Peeling(ids, deps, inDegree, order, []) && TopologicalOrder(other, Elements(ids), EdgeSet(deps))
    requires k < |other|
    ensures other[k] in order
  {
    var y := other[k];
    assert y in Elements(other);
    if y !in order {
      assert inDegree[y] != 0;
      OpenZero(deps, y, Elements(order));
      var d :| d in deps && d.stepId == y && d.dependsOn !in Elements(order);
      assert d in EdgeSet(deps);
      assert d.dependsOn in other[..k];
      var i :| 0 <= i < k && other[i] == d.dependsOn;
      LeftoverImpossible(ids, deps, inDegree, order, other, i);
    }
  }

  /** Accepts exactly the edge lists that have a topological order. */
  method ValidateDAG(ids: seq<StepId>, deps: seq<Dependency>) returns (ok: bool)
    requires ValidEdges(ids, deps)
    ensures ok <==> Acyclic(Elements(ids), EdgeSet(deps))
  {
    hide Peeling, PeelingNode, Acyclic, DependentsOf, Counted;
    var zero := map x | x in ids :: 0;
    var adj, inDegree := IndexEdges(deps, zero);
    var queue := FindRoots(ids, deps, inDegree);
    var visited := 0;
    ghost var order: seq<StepId> := [];
    while queue != []
      invariant visited == |order|
      invariant Peeling(ids, deps, inDegree, order, queue)
      decreases Elements(ids) - Elements(order)
    {
      var node := queue[0];
      PeelBegins(ids, deps, inDegree, order, queue);
      queue := queue[1..];
      visited := visited + 1;
      var next := if node in adj then adj[node] else [];
      var j := 0;
      while j < |next|
        invariant 0 <= j <= |next|
        invariant PeelingNode(ids, deps, inDegree, order, node, j, queue)
      {
        PeelStep(ids, deps, inDegree, order, node, j, queue, next[j]);
        inDegree := inDegree[next[j] := inDegree[next[j]] - 1];
        if inDegree[next[j]] == 0 {
          queue := queue + [next[j]];
        }
        j := j + 1;
      }
      PeelShrinks(ids, deps, inDegree, order, node, j, queue);
      PeelEnds(ids, deps, inDegree, order, node, j, queue);
      order := order + [node];
    }
    ok := visited == |ids|;
    if ok {
      AllPeeledIsAcyclic(ids, deps, inDegree, order);
    } else {
      LeftoverIsCyclic(ids, deps, inDegree, order);
    }
  }

  lemma PeelShrinks(ids: seq<StepId>, deps: seq<Dependency>, inDegree: map<StepId, int>, order: seq<StepId>, node: StepId, j: nat, queue: seq<StepId>)
    requires PeelingNode(ids, deps, inDegree, order, node, j, queue)
    ensures Elements(ids) - Elements(order + [node]) < Elements(ids) - Elements(order)
  {
    assert Elements(order + [node]) == Elements(order) + {node};
    assert node in Elements(ids) - Elements(order);
  }

  /** Queues the steps without edges into them, in whatever order the map yields them. */
  method FindRoots(ids: seq<StepId>, deps: seq<Dependency>, inDegree: map<StepId, int>) returns (queue: seq<StepId>)
    requires ValidEdges(ids, deps) && inDegree.Keys == Elements(ids) && Counted(deps, inDegree, {}, [])
    ensures Peeling(ids, deps, inDegree, [], queue)
  {
    queue := [];
    var todo := inDegree.Keys;
    while todo != {}
      invariant todo <= inDegree.Keys && Distinct(queue)
      invariant forall x :: x in queue <==> x in inDegree && x !in todo && inDegree[x] == 0
      decreases todo
    {
      var x :| x in todo;
      if inDegree[x] == 0 {
        queue := queue + [x];
      }
      todo := todo - {x};
    }
    assert Elements([]) == {};
  }

  // ---------------------------------------------------------------------------
  // Adding an edge through the API

  /** The dependency rows of one job, with the outcomes of the store calls given from outside. */
  class DependencyStore {
    const ids: seq<StepId>
    var deps: seq<Dependency>

    ghost predicate Valid()
      reads this
    {
      ValidEdges(ids, deps) && Distinct(deps)
    }

    ghost predicate IsAcyclic()
      reads this
    {
      Acyclic(Elements(ids), EdgeSet(deps))
    }

    /** Adds the edge, validates, and takes the edge out again if it closed a cycle. insertOk,
        readOk and removeOk say whether the store calls succeed. The graph has a cycle afterwards
        exactly if it had one, or the edge closes one, was stored, and could not be checked or
        taken out. */
    method AddDependency(stepId: StepId, dependsOn: StepId, insertOk: bool, readOk: bool, removeOk: bool) returns (accepted: bool)
      requires Valid()
      modifies this`deps
      ensures Valid()
      ensures accepted <==> (
          && dependsOn != "" && stepId in ids && dependsOn in ids && stepId != dependsOn && insertOk && readOk
          && Dependency(stepId, dependsOn) !in old(deps)
          && Acyclic(Elements(ids), EdgeSet(old(deps)) + {Dependency(stepId, dependsOn)}))
      ensures accepted ==> deps == old(deps) + [Dependency(stepId, dependsOn)]
      ensures !accepted && readOk && removeOk ==> deps == old(deps)
      ensures !IsAcyclic() <==> (
          || !old(IsAcyclic())
          || (dependsOn != "" && stepId in ids && dependsOn in ids && stepId != dependsOn && Dependency(stepId, dependsOn) !in old(deps)
              && insertOk && (!readOk || !removeOk)
              && !Acyclic(Elements(ids), EdgeSet(old(deps)) + {Dependency(stepId, dependsOn)})))
    {
      accepted := false;
      if dependsOn == "" || stepId !in ids || dependsOn !in ids {
        return;
      }
      var edge := Dependency(stepId, dependsOn);
      // The table rejects self-references and duplicate rows.
      if stepId == dependsOn || edge in deps || !insertOk {
        return;
      }
      ghost var before := deps;
      deps := deps + [edge];
      assert EdgeSet(deps) == EdgeSet(before) + {edge};
      if Acyclic(Elements(ids), EdgeSet(deps)) { FewerEdgesAcyclic(Elements(ids), EdgeSet(deps), EdgeSet(before)); }
      if !readOk {
        return;
      }
      accepted := ValidateDAG(ids, deps);
      if !accepted && removeOk {
        RemoveLast(before, edge);
        deps := RemoveRow(deps, edge);
      }
    }

    /** Taking an edge out keeps the rest, and keeps an acyclic graph acyclic. */
    method RemoveDependency(stepId: StepId, dependsOn: StepId)
      requires Valid()
      modifies this`deps
      ensures Valid() && (old(IsAcyclic()) ==> IsAcyclic())
      ensures EdgeSet(deps) == EdgeSet(old(deps)) - {Dependency(stepId, dependsOn)}
    {
      RemoveRowKeeps(deps, Dependency(stepId, dependsOn));
      if IsAcyclic() { FewerEdgesAcyclic(Elements(ids), EdgeSet(deps), EdgeSet(RemoveRow(deps, Dependency(stepId, dependsOn)))); }
      ghost var before := deps;
      deps := RemoveRow(deps, Dependency(stepId, dependsOn));
      forall d | d in deps ensures d in before {
        assert d in EdgeSet(deps);
      }
    }
  }

  /** DELETE of the one row with this key. */
  function RemoveRow(deps: seq<Dependency>, edge: Dependency): seq<Dependency> {
    if deps == [] then []
    else if deps[0] == edge then RemoveRow(deps[1..], edge)
    else [deps[0]] + RemoveRow(deps[1..], edge)
  }

  lemma FewerEdgesAcyclic(ids: set<StepId>, edges: set<Dependency>, fewer: set<Dependency>)
    requires fewer <= edges && Acyclic(ids, edges)
    ensures Acyclic(ids, fewer)
  {
    var order :| TopologicalOrder(order, ids, edges);
    assert TopologicalOrder(order, ids, fewer);
  }

  lemma {:induction false} RemoveRowKeeps(deps: seq<Dependency>, edge: Dependency)
    requires Distinct(deps)
    ensures Distinct(RemoveRow(deps, edge))
    ensures EdgeSet(RemoveRow(deps, edge)) == EdgeSet(deps) - {edge}
  {
    if deps != [] {
      var rest := RemoveRow(deps[1..], edge);
      RemoveRowKeeps(deps[1..], edge);
      assert deps == [deps[0]] + deps[1..];
      assert deps[0] !in deps[1..];
      assert deps[0] !in EdgeSet(rest);
      assert EdgeSet([deps[0]] + rest) == {deps[0]} + EdgeSet(rest);
    }
  }

  lemma {:induction false} RemoveLast(before: seq<Dependency>, edge: Dependency)
    requires edge !in before
    ensures RemoveRow(before + [edge], edge) == before
  {
    if before == [] {
      assert RemoveRow([edge][1..], edge) == [];
    } else {
      RemoveLast(before[1..], edge);
      assert (before + [edge])[1..] == before[1..] + [edge];
    }
  }
}
