/** The value types shared by the planner, the scheduler and the workflow. */
module Contracts {

  datatype Option<+T> = None | Some(value: T)

  /** Tool arguments: the optional "path" entry, and the canonical text of everything else. */
  datatype Arguments = Arguments(path: Option<string>, rest: string)

  datatype Risk = Low | Medium | High

  /** described tells whether the verification method is more than white space. */
  datatype Step = Step(
    id: string, dependsOn: set<string>, tool: string, arguments: Arguments, risk: Risk, described: bool)

  datatype Plan = Plan(planId: nat, taskId: nat, version: nat, steps: seq<Step>)

  function Ids(steps: seq<Step>): set<string> {
    set s | s in steps :: s.id
  }

  predicate UniqueIds(steps: seq<Step>) {
    forall i, j :: 0 <= i < j < |steps| ==> steps[i].id != steps[j].id
  }

  predicate KnownDependencies(steps: seq<Step>) {
    forall s :: s in steps ==> s.dependsOn <= Ids(steps)
  }

  /** kept lists the elements of all at the given places, in the same order. */
  ghost predicate TakenFrom<T>(kept: seq<T>, all: seq<T>, places: seq<nat>) {
    && |places| == |kept|
    && (forall k :: 0 <= k < |places| ==> places[k] < |all| && kept[k] == all[places[k]])
    && (forall j, k :: 0 <= j < k < |places| ==> places[j] < places[k])
  }

  lemma TakenNone<T>(all: seq<T>)
    ensures TakenFrom([], all, [])
  {
  }

  lemma TakenSnoc<T>(kept: seq<T>, all: seq<T>, places: seq<nat>, x: T)
    requires TakenFrom(kept, all, places)
    ensures TakenFrom(kept, all + [x], places)
    ensures TakenFrom(kept + [x], all + [x], places + [|all|])
  {
    assert forall k :: 0 <= k < |places| ==> kept[k] == all[places[k]] && places[k] < |all|;
  }

  lemma SameIdSameStep(steps: seq<Step>, s: Step, t: Step)
    requires UniqueIds(steps) && s in steps && t in steps && s.id == t.id
    ensures s == t
  {
    var i :| 0 <= i < |steps| && steps[i] == s;
    var j :| 0 <= j < |steps| && steps[j] == t;
  }
}
