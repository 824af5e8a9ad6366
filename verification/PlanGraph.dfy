/**
 Acceptance of an execution plan: the recursive depth-first cycle check, proved to accept
 exactly the plans whose dependency relation is a well-formed acyclic graph.
 */
module PlanGraph {
  import opened Contracts

  type Graph = map<string, set<string>>

  /** The dictionary the validator builds; a repeated id overwrites the earlier entry. */
  function GraphOf(steps: seq<Step>): Graph {
    if steps == [] then map[]
    else
      var last := steps[|steps| - 1];
      GraphOf(steps[..|steps| - 1])[last.id := last.dependsOn]
  }

  ghost predicate Closed(g: Graph) {
    forall n :: n in g ==> g[n] <= g.Keys
  }

  /** p follows dependency edges: p[i] depends on p[i + 1]. */
  ghost predicate IsPath(g: Graph, p: seq<string>) {
    && 0 < |p|
    && (forall i :: 0 <= i < |p| ==> p[i] in g)
    && (forall i :: 0 <= i < |p| - 1 ==> p[i + 1] in g[p[i]])
  }

  ghost predicate IsCycle(g: Graph, p: seq<string>) {
    IsPath(g, p) && 2 <= |p| && p[0] == p[|p| - 1]
  }

  ghost predicate Acyclic(g: Graph) {
    forall p :: !IsCycle(g, p)
  }

  ghost predicate Accepted(steps: seq<Step>) {
    UniqueIds(steps) && KnownDependencies(steps) && Acyclic(GraphOf(steps))
  }

  datatype DagVerdict = Valid | DuplicateIds | UnknownDependency | CyclicPlan

  /** No dependency path that starts in s ever comes back to its start. */
  ghost predicate NoCycleFrom(g: Graph, s: set<string>) {
    forall p :: IsCycle(g, p) ==> p[0] !in s
  }

  ghost predicate ClosedIn(g: Graph, s: set<string>) {
    s <= g.Keys && forall n :: n in s ==> g[n] <= s
  }

  /** The mutable state of one validation: the two sets shared by all nested visits. */
  class DagValidator {
    const graph: Graph
    var visiting: set<string>
    var visited: set<string>

    constructor (graph: Graph)
      ensures this.graph == graph && visiting == {} && visited == {}
    {
      this.graph := graph;
      visiting, visited := {}, {};
    }

    /** stack is the chain of unfinished visits, outermost first. */
    ghost predicate Valid(stack: seq<string>)
      reads this
    {
      && Closed(graph)
      && visiting == (set n | n in stack) && visiting <= graph.Keys
      && visiting !! visited
      && ClosedIn(graph, visited) && NoCycleFrom(graph, visited)
    }

    method Visit(node: string, ghost stack: seq<string>) returns (ok: bool)
      requires Valid(stack) && IsPath(graph, stack + [node])
      modifies this`visiting, this`visited
      ensures ok ==> Valid(stack) && node in visited && old(visited) <= visited
      ensures !ok ==> !Acyclic(graph)
      decreases |graph.Keys - visiting|
    {
      if node in visiting {
        CycleOnStack(graph, stack, node);
        return false;
      }
      if node in visited {
        return true;
      }
      assert node in graph by { assert (stack + [node])[|stack|] == node; }
      ghost var before := visiting;
      visiting := visiting + {node};
      assert graph.Keys - visiting == (graph.Keys - before) - {node};
      var todo := graph[node];
      while todo != {}
        invariant todo <= graph[node]
        invariant Valid(stack + [node]) && visiting == before + {node}
        invariant graph[node] - todo <= visited && old(visited) <= visited
      {
        var dependency :| dependency in todo;
        ExtendPath(graph, stack + [node], dependency);
        ok := Visit(dependency, stack + [node]);
        if !ok { return false; }
        todo := todo - {dependency};
      }
      assert node !in visited;
      FinishVisit(graph, visited, node);
      visiting := visiting - {node};
      visited := visited + {node};
      assert visiting == before;
      return true;
    }
  }

  lemma CycleOnStack(g: Graph, stack: seq<string>, node: string)
    requires IsPath(g, stack + [node]) && node in stack
    ensures !Acyclic(g)
  {
    var i :| 0 <= i < |stack| && stack[i] == node;
    var p := (stack + [node])[i..];
    assert forall k :: 0 <= k < |p| ==> p[k] == (stack + [node])[i + k];
    assert IsCycle(g, p);
  }

  lemma ExtendPath(g: Graph, p: seq<string>, n: string)
    requires Closed(g) && IsPath(g, p) && n in g[p[|p| - 1]]
    ensures IsPath(g, p + [n])
  {
  }

  lemma {:induction false} StaysInside(g: Graph, s: set<string>, p: seq<string>, i: nat, j: nat)
    requires ClosedIn(g, s) && IsPath(g, p) && i <= j < |p| && p[i] in s
    ensures p[j] in s
    decreases j - i
  {
    if i < j {
      assert p[i + 1] in g[p[i]];
      StaysInside(g, s, p, i + 1, j);
    }
  }

  /** Finishing a node whose dependencies are all finished cannot close a cycle. */
  lemma FinishVisit(g: Graph, visited: set<string>, node: string)
    requires ClosedIn(g, visited) && NoCycleFrom(g, visited)
    requires node in g && node !in visited && g[node] <= visited
    ensures ClosedIn(g, visited + {node}) && NoCycleFrom(g, visited + {node})
  {
    forall p | IsCycle(g, p) ensures p[0] !in visited + {node} {
      if p[0] == node {
        assert p[1] in g[p[0]];
        StaysInside(g, visited, p, 1, |p| - 1);
      }
    }
  }

  lemma {:induction false} GraphOfKeys(steps: seq<Step>)
    ensures GraphOf(steps).Keys == Ids(steps)
  {
    if steps != [] {
      var init := steps[..|steps| - 1];
      GraphOfKeys(init);
      assert steps == init + [steps[|steps| - 1]];
    }
  }

  lemma {:induction false} GraphOfEdges(steps: seq<Step>, s: Step)
    requires UniqueIds(steps) && s in steps
    ensures s.id in GraphOf(steps) && GraphOf(steps)[s.id] == s.dependsOn
  {
    var init, last := steps[..|steps| - 1], steps[|steps| - 1];
    assert steps == init + [last];
    if s in init {
      GraphOfEdges(init, s);
    }
  }

  lemma {:induction false} DropLastUnique(steps: seq<Step>)
    requires steps != []
    ensures UniqueIds(steps) <==>
            UniqueIds(steps[..|steps| - 1]) && steps[|steps| - 1].id !in Ids(steps[..|steps| - 1])
  {
    var init, last := steps[..|steps| - 1], steps[|steps| - 1];
    if UniqueIds(init) && last.id !in Ids(init) {
      assert forall i :: 0 <= i < |init| ==> init[i].id in Ids(init) && init[i] == steps[i];
    }
    if UniqueIds(steps) {
      forall s | s in init ensures s.id != last.id {
        var i :| 0 <= i < |init| && init[i] == s;
        assert steps[i] == s;
      }
      assert forall i :: 0 <= i < |init| ==> init[i] == steps[i];
    }
  }

  /** The dictionary has as many entries as there are steps exactly when no id repeats. */
  lemma {:induction false} GraphOfSize(steps: seq<Step>)
    ensures |GraphOf(steps)| <= |steps|
    ensures |GraphOf(steps)| == |steps| <==> UniqueIds(steps)
  {
    if steps != [] {
      var init, last := steps[..|steps| - 1], steps[|steps| - 1];
      GraphOfSize(init);
      GraphOfKeys(init);
      DropLastUnique(steps);
      var g := GraphOf(init);
      assert g[last.id := last.dependsOn].Keys == g.Keys + {last.id};
    }
  }

  lemma NoCycleAnywhere(g: Graph)
    requires NoCycleFrom(g, g.Keys)
    ensures Acyclic(g)
  {
    forall p ensures !IsCycle(g, p) {
      if IsPath(g, p) {
        assert p[0] in g;
      }
    }
  }

  lemma GraphOfClosed(steps: seq<Step>)
    requires UniqueIds(steps)
    ensures Closed(GraphOf(steps)) <==> KnownDependencies(steps)
  {
    GraphOfKeys(steps);
    forall s | s in steps ensures s.id in GraphOf(steps) && GraphOf(steps)[s.id] == s.dependsOn {
      GraphOfEdges(steps, s);
    }
    if Closed(GraphOf(steps)) {
      forall s | s in steps ensures s.dependsOn <= Ids(steps) {
        assert s.id in GraphOf(steps);
      }
    }
    if KnownDependencies(steps) {
      forall n | n in GraphOf(steps) ensures GraphOf(steps)[n] <= GraphOf(steps).Keys {
        var s :| s in steps && s.id == n;
      }
    }
  }

  /** The plan validator: which check fails first, and that passing all of them means Accepted. */
  method ValidateDag(steps: seq<Step>) returns (verdict: DagVerdict)
    ensures verdict.Valid? <==> Accepted(steps)
    ensures verdict.DuplicateIds? <==> !UniqueIds(steps)
    ensures verdict.UnknownDependency? <==> UniqueIds(steps) && !KnownDependencies(steps)
  {
    var graph := GraphOf(steps);
    GraphOfSize(steps);
    if |graph| != |steps| {
      return DuplicateIds;
    }
    GraphOfClosed(steps);
    GraphOfKeys(steps);
    if exists n :: n in graph && !(graph[n] <= graph.Keys) {
      return UnknownDependency;
    }
    var validator := new DagValidator(graph);
    for i := 0 to |steps|
      invariant validator.graph == graph && validator.Valid([])
      invariant forall k :: 0 <= k < i ==> steps[k].id in validator.visited
    {
      assert IsPath(graph, [] + [steps[i].id]);
      var ok := validator.Visit(steps[i].id, []);
      if !ok {
        return CyclicPlan;
      }
    }
    assert validator.visited == graph.Keys;
    NoCycleAnywhere(graph);
    return Valid;
  }

  lemma {:induction false} RanksDecrease(g: Graph, rank: map<string, nat>, p: seq<string>)
    requires g.Keys <= rank.Keys && forall n, d :: n in g && d in g[n] && d in g ==> rank[d] < rank[n]
    requires IsPath(g, p) && 2 <= |p|
    ensures rank[p[|p| - 1]] < rank[p[0]]
  {
    var last := |p| - 1;
    assert p[last] in g[p[last - 1]];
    if 2 < |p| {
      RanksDecrease(g, rank, p[..last]);
    }
  }

  /** A numbering in which every step comes after its dependencies rules out cycles. */
  lemma RankedIsAcyclic(g: Graph, rank: map<string, nat>)
    requires g.Keys <= rank.Keys && forall n, d :: n in g && d in g[n] && d in g ==> rank[d] < rank[n]
    ensures Acyclic(g)
  {
    forall p ensures !IsCycle(g, p) {
      if IsPath(g, p) && 2 <= |p| {
        RanksDecrease(g, rank, p);
      }
    }
  }
}
