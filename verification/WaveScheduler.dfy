/**
 The dependency scheduler of an execution: it repeatedly collects the steps whose dependencies
 are complete and runs them in plan order. For an accepted plan it never gets stuck, it never
 runs a step before everything the step transitively needs, and an undisturbed run is the plan
 sorted by (longest dependency chain, position).
 */
module WaveScheduler {
  import opened Contracts
  import opened PlanGraph

  /** The remaining steps whose dependencies are all complete, in plan order. */
  function Ready(remaining: seq<Step>, completed: set<string>): (r: seq<Step>)
    ensures forall s :: s in r <==> s in remaining && s.dependsOn <= completed
  {
    if remaining == [] then []
    else if remaining[0].dependsOn <= completed then [remaining[0]] + Ready(remaining[1..], completed)
    else Ready(remaining[1..], completed)
  }

  /** The steps whose id is in ids, in plan order. */
  function Pick(steps: seq<Step>, ids: set<string>): (r: seq<Step>)
    ensures forall s :: s in r <==> s in steps && s.id in ids
  {
    if steps == [] then []
    else if steps[0].id in ids then [steps[0]] + Pick(steps[1..], ids)
    else Pick(steps[1..], ids)
  }

  lemma {:induction false} PickPick(steps: seq<Step>, a: set<string>, b: set<string>)
    ensures Pick(Pick(steps, a), b) == Pick(steps, a * b)
  {
    if steps != [] {
      PickPick(steps[1..], a, b);
      if steps[0].id in a {
        assert ([steps[0]] + Pick(steps[1..], a))[1..] == Pick(steps[1..], a);
      }
    }
  }

  lemma {:induction false} PickCongruent(steps: seq<Step>, a: set<string>, b: set<string>)
    requires forall s :: s in steps ==> (s.id in a <==> s.id in b)
    ensures Pick(steps, a) == Pick(steps, b)
  {
    if steps != [] {
      assert forall s :: s in steps[1..] ==> s in steps;
      PickCongruent(steps[1..], a, b);
    }
  }

  lemma {:induction false} PickAll(steps: seq<Step>, a: set<string>)
    requires Ids(steps) <= a
    ensures Pick(steps, a) == steps
  {
    if steps != [] {
      assert steps[0].id in Ids(steps);
      assert Ids(steps[1..]) <= Ids(steps);
      PickAll(steps[1..], a);
    }
  }

  lemma {:induction false} PickUnique(steps: seq<Step>, a: set<string>)
    requires UniqueIds(steps)
    ensures UniqueIds(Pick(steps, a))
  {
    if steps != [] {
      var rest := steps[1..];
      assert forall i :: 0 <= i < |rest| ==> rest[i] == steps[i + 1];
      PickUnique(rest, a);
      if steps[0].id in a {
        forall k | 0 <= k < |Pick(rest, a)| ensures Pick(rest, a)[k].id != steps[0].id {
          var s := Pick(rest, a)[k];
          assert s in rest;
          var i :| 0 <= i < |rest| && rest[i] == s;
        }
      }
    }
  }

  lemma {:induction false} ReadyIsPick(steps: seq<Step>, completed: set<string>, ids: set<string>)
    requires forall s :: s in steps ==> (s.dependsOn <= completed <==> s.id in ids)
    ensures Ready(steps, completed) == Pick(steps, ids)
  {
    if steps != [] {
      assert forall s :: s in steps[1..] ==> s in steps;
      ReadyIsPick(steps[1..], completed, ids);
    }
  }

  // ----- The scheduler is never stuck -----

  /** In an acyclic graph every nonempty set of nodes has a node that depends on none of them. */
  lemma FindSource(g: Graph, s: set<string>) returns (n: string)
    requires Closed(g) && Acyclic(g) && s <= g.Keys && s != {}
    ensures n in s && g[n] !! s
  {
    var start :| start in s;
    n := WalkToSource(g, s, [start]);
  }

  lemma WalkToSource(g: Graph, s: set<string>, p: seq<string>) returns (n: string)
    requires Closed(g) && Acyclic(g) && s <= g.Keys
    requires IsPath(g, p) && forall i :: 0 <= i < |p| ==> p[i] in s
    ensures n in s && g[n] !! s
    decreases |s - set x | x in p|
  {
    hide IsPath, Acyclic, Closed;
    PathNotEmpty(g, p);
    var last := p[|p| - 1];
    assert last in s;
    if g[last] !! s {
      n := last;
    } else {
      var d :| d in g[last] && d in s;
      ExtendPath(g, p, d);
      if d in p {
        CycleOnStack(g, p, d);
        assert false;
      } else {
        var seen, seen' := set x | x in p, set x | x in p + [d];
        assert seen' == seen + {d};
        assert s - seen' == (s - seen) - {d} && d in s - seen;
        n := WalkToSource(g, s, p + [d]);
      }
    }
  }

  lemma PathNotEmpty(g: Graph, p: seq<string>)
    requires IsPath(g, p)
    ensures p != []
  {
  }

  /** Whatever has been completed so far, an accepted plan with work left has a runnable step. */
  lemma AlwaysReady(steps: seq<Step>, completed: set<string>, remaining: seq<Step>)
    requires Accepted(steps) && remaining != []
    requires forall s :: s in remaining ==> s in steps
    requires forall s :: s in steps ==> s.id in completed || s in remaining
    ensures Ready(remaining, completed) != []
  {
    var g := GraphOf(steps);
    GraphOfKeys(steps);
    GraphOfClosed(steps);
    assert remaining[0] in remaining;
    assert forall s :: s in remaining ==> s.id in g.Keys;
    assert remaining[0].id in Ids(remaining);
    var n := FindSource(g, Ids(remaining));
    var s :| s in remaining && s.id == n;
    GraphOfEdges(steps, s);
    forall d | d in s.dependsOn ensures d in completed {
      assert d in Ids(steps);
      var t :| t in steps && t.id == d;
      if t in remaining {
        assert false;
      }
    }
    assert s in Ready(remaining, completed);
  }

  // ----- Longest dependency chains -----

  /** Every dependency chain that starts at n has at most k nodes. */
  ghost predicate Shallow(g: Graph, n: string, k: nat) {
    forall p :: IsPath(g, p) && p[0] == n ==> |p| <= k
  }

  /** The longest dependency chain that starts at n has exactly k nodes. */
  ghost predicate HasDepth(g: Graph, n: string, k: nat) {
    && Shallow(g, n, k)
    && exists p :: IsPath(g, p) && p[0] == n && |p| == k
  }

  ghost function ShallowIds(steps: seq<Step>, k: nat): set<string> {
    set s | s in steps && Shallow(GraphOf(steps), s.id, k) :: s.id
  }

  ghost function IdsOfDepth(steps: seq<Step>, k: nat): set<string> {
    set s | s in steps && HasDepth(GraphOf(steps), s.id, k) :: s.id
  }

  lemma ShallowStep(g: Graph, n: string, k: nat)
    requires Closed(g) && n in g
    ensures Shallow(g, n, k + 1) <==> forall d :: d in g[n] ==> Shallow(g, d, k)
  {
    if Shallow(g, n, k + 1) {
      forall d, p | d in g[n] && IsPath(g, p) && p[0] == d ensures |p| <= k {
        assert IsPath(g, [n] + p);
      }
    }
    if forall d :: d in g[n] ==> Shallow(g, d, k) {
      forall p | IsPath(g, p) && p[0] == n ensures |p| <= k + 1 {
        if 2 <= |p| {
          assert IsPath(g, p[1..]);
          assert p[1] in g[p[0]];
        }
      }
    }
  }

  lemma NothingShallow(g: Graph, n: string)
    requires n in g
    ensures !Shallow(g, n, 0)
  {
    assert IsPath(g, [n]);
  }

  /** Depth k + 1 is what becomes shallow between k and k + 1. */
  lemma DepthIsNewlyShallow(g: Graph, n: string, k: nat)
    ensures HasDepth(g, n, k + 1) <==> Shallow(g, n, k + 1) && !Shallow(g, n, k)
  {
    if Shallow(g, n, k + 1) && !Shallow(g, n, k) {
      var p :| IsPath(g, p) && p[0] == n && |p| > k;
      assert |p| == k + 1;
    }
  }

  lemma ShallowLevels(steps: seq<Step>, k: nat)
    requires UniqueIds(steps) && KnownDependencies(steps)
    ensures ShallowIds(steps, 0) == {}
    ensures ShallowIds(steps, k) <= ShallowIds(steps, k + 1)
    ensures IdsOfDepth(steps, k + 1) == ShallowIds(steps, k + 1) - ShallowIds(steps, k)
    ensures forall s :: s in steps ==> (s.dependsOn <= ShallowIds(steps, k) <==> s.id in ShallowIds(steps, k + 1))
  {
    var g := GraphOf(steps);
    GraphOfKeys(steps);
    GraphOfClosed(steps);
    forall s | s in steps
      ensures s.id in g && g[s.id] == s.dependsOn && !Shallow(g, s.id, 0)
      ensures HasDepth(g, s.id, k + 1) <==> Shallow(g, s.id, k + 1) && !Shallow(g, s.id, k)
      ensures Shallow(g, s.id, k + 1) <==> s.dependsOn <= ShallowIds(steps, k)
    {
      GraphOfEdges(steps, s);
      NothingShallow(g, s.id);
      DepthIsNewlyShallow(g, s.id, k);
      ShallowStep(g, s.id, k);
      forall d | d in s.dependsOn ensures Shallow(g, d, k) <==> d in ShallowIds(steps, k) {
        assert d in Ids(steps);
        var t :| t in steps && t.id == d;
      }
    }
    forall s | s in steps ensures s.id in ShallowIds(steps, k + 1) <==> Shallow(g, s.id, k + 1) {
    }
  }

  function Flatten(waves: seq<seq<Step>>): seq<Step> {
    if waves == [] then [] else Flatten(waves[..|waves| - 1]) + waves[|waves| - 1]
  }

  /** The waves are exactly the depth classes of the plan, each in plan order, and none is empty. */
  ghost predicate WavesByDepth(steps: seq<Step>, waves: seq<seq<Step>>) {
    && (forall w :: 0 <= w < |waves| ==> waves[w] == Pick(steps, IdsOfDepth(steps, w + 1)) && waves[w] != [])
    && (forall s :: s in steps ==> exists w :: 0 <= w < |waves| && s in waves[w])
  }

  /** The first waves of the depth order. */
  ghost predicate FirstWaves(steps: seq<Step>, waves: seq<seq<Step>>) {
    forall w :: 0 <= w < |waves| ==> waves[w] == Pick(steps, IdsOfDepth(steps, w + 1)) && waves[w] != []
  }

  lemma {:induction false} FlattenPrefix(waves: seq<seq<Step>>, all: seq<seq<Step>>)
    requires waves <= all
    ensures Flatten(waves) <= Flatten(all)
  {
    if waves != all {
      FlattenPrefix(waves, all[..|all| - 1]);
    } else {
      assert waves == all;
    }
  }

  lemma FlattenSnoc(waves: seq<seq<Step>>, wave: seq<Step>)
    ensures Flatten(waves + [wave]) == Flatten(waves) + wave
  {
    assert (waves + [wave])[..|waves|] == waves;
  }

  /** The first waves hold exactly the steps whose chains are that short, each once. */
  lemma {:induction false} FlattenShallow(steps: seq<Step>, waves: seq<seq<Step>>)
    requires UniqueIds(steps) && KnownDependencies(steps) && FirstWaves(steps, waves)
    ensures Ids(Flatten(waves)) == ShallowIds(steps, |waves|) && UniqueIds(Flatten(waves))
  {
    hide UniqueIds, KnownDependencies, Pick, IdsOfDepth, ShallowIds, Ids;
    if waves == [] {
      NothingFlat();
      ShallowLevels(steps, 0);
    } else {
      var k := |waves| - 1;
      var init, wave := waves[..k], waves[k];
      FlattenShallow(steps, init);
      ShallowLevels(steps, k);
      PickUnique(steps, IdsOfDepth(steps, k + 1));
      DepthInPlan(steps, k + 1);
      PickIds(steps, IdsOfDepth(steps, k + 1));
      IdsConcat(Flatten(init), wave);
      UniqueConcat(Flatten(init), wave);
    }
  }

  lemma NothingFlat()
    ensures Ids([]) == {} && UniqueIds([])
  {
  }

  lemma DepthInPlan(steps: seq<Step>, k: nat)
    ensures IdsOfDepth(steps, k) <= Ids(steps)
  {
  }

  lemma IdsConcat(a: seq<Step>, b: seq<Step>)
    ensures Ids(a + b) == Ids(a) + Ids(b)
  {
    assert forall s :: s in a + b <==> s in a || s in b;
  }

  lemma UniqueConcat(a: seq<Step>, b: seq<Step>)
    requires UniqueIds(a) && UniqueIds(b) && Ids(a) !! Ids(b)
    ensures UniqueIds(a + b)
  {
    forall i, j | 0 <= i < |a| && 0 <= j < |b| ensures a[i].id != b[j].id {
      assert a[i] in a && b[j] in b && a[i].id in Ids(a) && b[j].id in Ids(b);
    }
  }

  /** Any first waves of an accepted plan go on to all of them. */
  lemma {:induction false} AllWaves(steps: seq<Step>, waves: seq<seq<Step>>) returns (all: seq<seq<Step>>)
    requires Accepted(steps) && FirstWaves(steps, waves)
    ensures waves <= all && WavesByDepth(steps, all)
    decreases |Ids(steps) - ShallowIds(steps, |waves|)|
  {
    hide Acyclic, UniqueIds, KnownDependencies, Pick, Ready, IdsOfDepth, ShallowIds, Ids, WavesByDepth;
    var k := |waves|;
    var done := ShallowIds(steps, k);
    ShallowInPlan(steps, k);
    NextWave(steps, done, k);
    ReadyWave(steps, done);
    if Pick(steps, Ids(steps) - done) == [] {
      all := waves;
      EveryStepPlaced(steps, done, waves);
    } else {
      var wave := Pick(steps, IdsOfDepth(steps, k + 1));
      PickIds(steps, IdsOfDepth(steps, k + 1));
      FirstInWave(wave);
      ShallowLevels(steps, k);
      Shrinks(Ids(steps), done, ShallowIds(steps, k + 1), wave[0].id);
      all := AllWaves(steps, waves + [wave]);
    }
  }

  lemma ShallowInPlan(steps: seq<Step>, k: nat)
    ensures ShallowIds(steps, k) <= Ids(steps)
  {
  }

  lemma FirstInWave(wave: seq<Step>)
    ensures wave != [] ==> wave[0].id in Ids(wave)
  {
    assert wave != [] ==> wave[0] in wave;
  }

  // ----- What is left of a plan after an interruption -----

  function Strip(s: Step, before: set<string>): Step {
    s.(dependsOn := s.dependsOn - before)
  }

  function StripAll(steps: seq<Step>, before: set<string>): seq<Step> {
    seq(|steps|, i requires 0 <= i < |steps| => Strip(steps[i], before))
  }

  /** The steps not done before, without the dependencies that are done. */
  function Residual(steps: seq<Step>, before: set<string>): seq<Step> {
    StripAll(Pick(steps, Ids(steps) - before), before)
  }

  lemma StripMembers(steps: seq<Step>, before: set<string>)
    ensures forall s :: s in steps ==> Strip(s, before) in StripAll(steps, before)
    ensures forall r :: r in StripAll(steps, before) ==> exists s :: s in steps && r == Strip(s, before)
    ensures Ids(StripAll(steps, before)) == Ids(steps)
  {
    forall s | s in steps ensures Strip(s, before) in StripAll(steps, before) {
      var i :| 0 <= i < |steps| && steps[i] == s;
      assert StripAll(steps, before)[i] == Strip(s, before);
    }
  }

  lemma StripConcat(a: seq<Step>, b: seq<Step>, before: set<string>)
    ensures StripAll(a + b, before) == StripAll(a, before) + StripAll(b, before)
  {
  }

  lemma StripUnique(steps: seq<Step>, before: set<string>)
    ensures UniqueIds(StripAll(steps, before)) <==> UniqueIds(steps)
  {
    if UniqueIds(StripAll(steps, before)) {
      forall i, j | 0 <= i < j < |steps| ensures steps[i].id != steps[j].id {
        assert StripAll(steps, before)[i].id != StripAll(steps, before)[j].id;
      }
    }
  }

  lemma StripNothing(steps: seq<Step>)
    ensures StripAll(steps, {}) == steps && Residual(steps, {}) == steps
  {
    PickAll(steps, Ids(steps) - {});
    forall s: Step ensures Strip(s, {}) == s {
      assert s.dependsOn - {} == s.dependsOn;
    }
  }

  lemma {:induction false} PickStrip(steps: seq<Step>, before: set<string>, ids: set<string>)
    ensures Pick(StripAll(steps, before), ids) == StripAll(Pick(steps, ids), before)
  {
    if steps != [] {
      PickStrip(steps[1..], before, ids);
      assert StripAll(steps, before)[1..] == StripAll(steps[1..], before);
      if steps[0].id in ids { StripConcat([steps[0]], Pick(steps[1..], ids), before); }
    }
  }

  lemma MinusSubset(a: set<string>, b: set<string>, c: set<string>)
    requires b <= c
    ensures a - b <= c - b <==> a <= c
  {
    if a - b <= c - b {
      forall x | x in a ensures x in c {
        assert x in b || x in a - b;
      }
    }
  }

  lemma {:induction false} ReadyStrip(steps: seq<Step>, before: set<string>, completed: set<string>)
    requires before <= completed
    ensures Ready(StripAll(steps, before), completed - before) == StripAll(Ready(steps, completed), before)
  {
    if steps != [] {
      ReadyStrip(steps[1..], before, completed);
      assert StripAll(steps, before)[1..] == StripAll(steps[1..], before);
      MinusSubset(steps[0].dependsOn, before, completed);
      if steps[0].dependsOn <= completed { StripConcat([steps[0]], Ready(steps[1..], completed), before); }
    }
  }

  /** The ready list of a resumed execution is, step for step, that of a fresh execution of what is left. */
  lemma ReadyOfResidual(steps: seq<Step>, before: set<string>, completed: set<string>)
    requires before <= completed
    ensures var rest, done := Residual(steps, before), completed - before;
            Ready(Pick(rest, Ids(rest) - done), done)
            == StripAll(Ready(Pick(steps, Ids(steps) - completed), completed), before)
  {
    hide Pick, Ready, StripAll;
    var left, done := Ids(steps) - before, completed - before;
    StripMembers(Pick(steps, left), before);
    PickIds(steps, left);
    PickStrip(Pick(steps, left), before, left - done);
    PickPick(steps, left, left - done);
    assert left * (left - done) == Ids(steps) - completed;
    ReadyStrip(Pick(steps, Ids(steps) - completed), before, completed);
  }

  /** What is left of an accepted plan is an accepted plan. */
  lemma ResidualAccepted(steps: seq<Step>, before: set<string>)
    requires Accepted(steps)
    ensures Accepted(Residual(steps, before)) && Ids(Residual(steps, before)) == Ids(steps) - before
  {
    hide Acyclic, GraphOf, StripAll;
    var left := Pick(steps, Ids(steps) - before);
    PickIds(steps, Ids(steps) - before);
    PickUnique(steps, Ids(steps) - before);
    StripUnique(left, before);
    StripMembers(left, before);
    forall r | r in Residual(steps, before) ensures r.dependsOn <= Ids(Residual(steps, before)) {
      var s :| s in left && r == Strip(s, before);
      assert s in steps && s.dependsOn <= Ids(steps);
    }
    hide UniqueIds, KnownDependencies;
    ResidualAcyclic(steps, before);
  }

  lemma ResidualEdges(steps: seq<Step>, before: set<string>, n: string)
    requires UniqueIds(steps) && UniqueIds(Residual(steps, before)) && n in GraphOf(Residual(steps, before))
    ensures n in GraphOf(steps) && GraphOf(Residual(steps, before))[n] <= GraphOf(steps)[n]
  {
    hide GraphOf, StripAll, UniqueIds;
    var rest := Residual(steps, before);
    GraphOfKeys(rest);
    StripMembers(Pick(steps, Ids(steps) - before), before);
    var r :| r in rest && r.id == n;
    var s :| s in Pick(steps, Ids(steps) - before) && r == Strip(s, before);
    GraphOfEdges(rest, r);
    GraphOfEdges(steps, s);
  }

  lemma ResidualAcyclic(steps: seq<Step>, before: set<string>)
    requires UniqueIds(steps) && UniqueIds(Residual(steps, before)) && Acyclic(GraphOf(steps))
    ensures Acyclic(GraphOf(Residual(steps, before)))
  {
    hide GraphOf, Residual, UniqueIds;
    var g, h := GraphOf(steps), GraphOf(Residual(steps, before));
    forall p ensures !IsCycle(h, p) {
      forall n | n in h ensures n in g && h[n] <= g[n] {
        ResidualEdges(steps, before, n);
      }
      assert IsPath(h, p) ==> IsPath(g, p);
      assert !IsCycle(g, p);
    }
  }

  /**
   Where a run that resumed with before done stands in the depth order of what was left: all of its
   steps so far, in that order.
   */
  ghost predicate FollowsDepth(steps: seq<Step>, before: set<string>, order: seq<Step>, waves: seq<seq<Step>>) {
    WavesByDepth(Residual(steps, before), waves) && StripAll(order, before) <= Flatten(waves)
  }

  // ----- The scheduling loop -----

  /** Every step run is in the plan, and its dependencies were complete before it started. */
  ghost predicate Ordered(steps: seq<Step>, before: set<string>, order: seq<Step>) {
    forall k :: 0 <= k < |order| ==>
      order[k] in steps && order[k].id !in before && order[k].dependsOn <= before + Ids(order[..k])
  }

  lemma OrderedSnoc(steps: seq<Step>, before: set<string>, order: seq<Step>, s: Step)
    requires Ordered(steps, before, order)
    requires s in steps && s.id !in before && s.dependsOn <= before + Ids(order)
    ensures Ordered(steps, before, order + [s])
  {
    forall k | 0 <= k < |order + [s]|
      ensures (order + [s])[k].dependsOn <= before + Ids((order + [s])[..k])
    {
      assert (order + [s])[..k] == order[..k];
      assert k == |order| ==> order[..k] == order;
    }
  }

  lemma IdsSnoc(steps: seq<Step>, s: Step)
    ensures Ids(steps + [s]) == Ids(steps) + {s.id}
  {
    assert forall t :: t in steps + [s] <==> t in steps || t == s;
  }

  datatype Outcome = Outcome(order: seq<Step>, completed: set<string>, failed: Option<string>)

  /**
   What a partial execution may look like: before holds the steps completed by an earlier,
   interrupted execution, and succeeds the steps whose handler reports success.
   */
  ghost predicate Progress(steps: seq<Step>, before: set<string>, succeeds: set<string>, o: Outcome) {
    && Ordered(steps, before, o.order) && UniqueIds(o.order)
    && o.completed == before + Ids(o.order) * succeeds
    && match o.failed
       case None => Ids(o.order) <= succeeds
       case Some(f) =>
         && o.order != []
         && var last := |o.order| - 1;
         && o.order[last].id == f && f !in succeeds && Ids(o.order[..last]) <= succeeds
  }

  function AfterStep(o: Outcome, step: Step, succeeds: set<string>): Outcome {
    if step.id in succeeds then Outcome(o.order + [step], o.completed + {step.id}, o.failed)
    else Outcome(o.order + [step], o.completed, Some(step.id))
  }

  lemma ProgressStep(steps: seq<Step>, before: set<string>, succeeds: set<string>, o: Outcome, step: Step)
    requires Progress(steps, before, succeeds, o) && o.failed.None?
    requires step in steps && step.id !in o.completed && step.dependsOn <= o.completed
    ensures Progress(steps, before, succeeds, AfterStep(o, step, succeeds))
  {
    hide Ordered, UniqueIds;
    IdsSnoc(o.order, step);
    OrderedSnoc(steps, before, o.order, step);
    FreshStaysUnique(o.order, step);
    assert (o.order + [step])[..|o.order|] == o.order;
  }

  /** The first waves of what was left have run, and nothing else. */
  ghost predicate DepthsDone(steps: seq<Step>, before: set<string>, waves: seq<seq<Step>>, o: Outcome) {
    && before <= o.completed && FirstWaves(Residual(steps, before), waves)
    && o.completed - before == ShallowIds(Residual(steps, before), |waves|)
    && StripAll(o.order, before) == Flatten(waves)
  }

  /** One ready list, run in order until a handler fails. */
  method RunWave(steps: seq<Step>, ghost before: set<string>, succeeds: set<string>, ready: seq<Step>,
                 start: Outcome, remaining: seq<Step>)
    returns (o: Outcome, rest: seq<Step>)
    requires Progress(steps, before, succeeds, start) && start.failed.None?
    requires start.completed <= Ids(steps) && remaining == Pick(steps, Ids(steps) - start.completed)
    requires UniqueIds(ready)
    requires forall s :: s in ready ==> s in remaining && s.dependsOn <= start.completed
    ensures Progress(steps, before, succeeds, o) && start.completed <= o.completed <= Ids(steps)
    ensures start.order <= o.order <= start.order + ready
    ensures o.failed.None? ==>
              && rest == Pick(steps, Ids(steps) - o.completed)
              && o.completed == start.completed + Ids(ready) && o.order == start.order + ready
  {
    hide Progress, Ready, Pick, Ids, UniqueIds;
    IdsOfNothing(ready);
    o, rest := start, remaining;
    var i := 0;
    while i < |ready| && o.failed.None?
      invariant 0 <= i <= |ready|
      invariant Progress(steps, before, succeeds, o) && start.completed <= o.completed <= Ids(steps)
      invariant o.order == start.order + ready[..i]
      invariant o.failed.None? ==>
              && rest == Pick(steps, Ids(steps) - o.completed)
              && o.completed == start.completed + Ids(ready[..i])
    {
      var step := ready[i];
      WaveTurn(steps, before, succeeds, start, o, ready, i);
      rest := Pick(rest, Ids(rest) - {step.id});
      o := AfterStep(o, step, succeeds);
      i := i + 1;
    }
    assert ready[..|ready|] == ready;
  }

  lemma IdsOfNothing(steps: seq<Step>)
    ensures Ids(steps[..0]) == {}
  {
  }

  /** One step of a ready list. */
  lemma WaveTurn(steps: seq<Step>, before: set<string>, succeeds: set<string>, start: Outcome, o: Outcome,
                 ready: seq<Step>, i: nat)
    requires i < |ready| && UniqueIds(ready) && Progress(steps, before, succeeds, o) && o.failed.None?
    requires start.completed <= Ids(steps)
    requires forall s :: s in ready ==> s in Pick(steps, Ids(steps) - start.completed) && s.dependsOn <= start.completed
    requires o.order == start.order + ready[..i] && o.completed == start.completed + Ids(ready[..i])
    ensures var o', remaining := AfterStep(o, ready[i], succeeds), Pick(steps, Ids(steps) - o.completed);
            && Progress(steps, before, succeeds, o') && o'.order == start.order + ready[..i + 1]
            && ready[i].id in Ids(steps)
            && (o'.failed.None? ==>
                  && o'.completed == start.completed + Ids(ready[..i + 1])
                  && Pick(remaining, Ids(remaining) - {ready[i].id}) == Pick(steps, Ids(steps) - o'.completed))
  {
    hide Progress, Ids, UniqueIds;
    var step := ready[i];
    assert step in ready && step in steps && step.id in Ids(steps) - start.completed;
    MemberId(steps, step);
    assert ready[..i + 1] == ready[..i] + [step];
    NotYetRun(ready, i);
    IdsSnoc(ready[..i], step);
    ProgressStep(steps, before, succeeds, o, step);
    PopRemaining(steps, o.completed, step.id);
  }

  lemma MemberId(steps: seq<Step>, s: Step)
    requires s in steps
    ensures s.id in Ids(steps)
  {
  }

  lemma NotYetRun(ready: seq<Step>, i: nat)
    requires UniqueIds(ready) && i < |ready|
    ensures ready[i].id !in Ids(ready[..i])
  {
    forall s | s in ready[..i] ensures s.id != ready[i].id {
      var k :| 0 <= k < i && ready[..i][k] == s;
    }
  }

  /** One execution of the plan, from the start or resumed; waves is the depth order of what is left. */
  method RunPlan(steps: seq<Step>, before: set<string>, succeeds: set<string>)
    returns (o: Outcome, ghost waves: seq<seq<Step>>)
    requires Accepted(steps) && before <= Ids(steps)
    // what ran: each step at most once, never before a dependency, nothing after a failure
    ensures Progress(steps, before, succeeds, o)
    ensures o.failed.None? ==> o.completed == Ids(steps)
    // it is what is left of the plan sorted by (depth, position), up to the failure if there is one
    ensures FollowsDepth(steps, before, o.order, waves)
    ensures o.failed.None? ==> StripAll(o.order, before) == Flatten(waves)
  {
    hide *;
    o := Outcome([], before, None);
    var remaining := Pick(steps, Ids(steps) - before);
    waves := [];
    StartState(steps, before, succeeds);
    while remaining != [] && o.failed.None?
      invariant Progress(steps, before, succeeds, o) && o.completed <= Ids(steps)
      invariant o.failed.None? ==> remaining == Pick(steps, Ids(steps) - o.completed)
      invariant o.failed.None? ==> DepthsDone(steps, before, waves, o)
      invariant o.failed.Some? ==> FollowsDepth(steps, before, o.order, waves)
      decreases |Ids(steps) - o.completed|, o.failed.None?
    {
      ReadyWave(steps, o.completed);
      var ready := Ready(remaining, o.completed);
      ghost var start := o;
      o, remaining := RunWave(steps, before, succeeds, ready, o, remaining);
      waves := WaveEnd(steps, before, waves, start, o, ready);
    }
    if o.failed.None? {
      FinalState(steps, before, o, waves);
    }
  }

  lemma StartState(steps: seq<Step>, before: set<string>, succeeds: set<string>)
    requires Accepted(steps)
    ensures Progress(steps, before, succeeds, Outcome([], before, None))
    ensures DepthsDone(steps, before, [], Outcome([], before, None))
  {
    ResidualAccepted(steps, before);
    hide Accepted, Residual;
    ShallowLevels(Residual(steps, before), 0);
  }

  lemma ReadyWave(steps: seq<Step>, completed: set<string>)
    requires Accepted(steps)
    ensures var remaining := Pick(steps, Ids(steps) - completed);
            var ready := Ready(remaining, completed);
            && UniqueIds(ready) && (remaining != [] ==> ready != [])
            && forall s :: s in ready ==> s in remaining && s.dependsOn <= completed
  {
    var remaining := Pick(steps, Ids(steps) - completed);
    RemainingCovers(steps, completed);
    PickUnique(steps, Ids(steps) - completed);
    ReadyUnique(remaining, completed);
    if remaining != [] {
      AlwaysReady(steps, completed, remaining);
    }
  }

  lemma WaveEnd(steps: seq<Step>, before: set<string>, waves: seq<seq<Step>>, start: Outcome, o: Outcome,
                ready: seq<Step>)
    returns (waves': seq<seq<Step>>)
    requires Accepted(steps) && ready != []
    requires ready == Ready(Pick(steps, Ids(steps) - start.completed), start.completed)
    requires start.completed <= o.completed <= Ids(steps) && o.order <= start.order + ready
    requires o.failed.None? ==> o.completed == start.completed + Ids(ready) && o.order == start.order + ready
    requires DepthsDone(steps, before, waves, start)
    ensures |Ids(steps) - o.completed| <= |Ids(steps) - start.completed|
    ensures o.failed.None? ==> |Ids(steps) - o.completed| < |Ids(steps) - start.completed|
    ensures o.failed.None? ==> DepthsDone(steps, before, waves', o)
    ensures o.failed.Some? ==> FollowsDepth(steps, before, o.order, waves')
  {
    hide Accepted, Residual, DepthsDone, FollowsDepth;
    SubsetSize(Ids(steps) - o.completed, Ids(steps) - start.completed);
    var full := Outcome(start.order + ready, start.completed + Ids(ready), None);
    WaveAdvances(steps, before, waves, start, full, ready);
    waves' := waves + [StripAll(ready, before)];
    if o.failed.None? {
      assert ready[0] in ready;
      assert ready[0].id in Ids(steps) - start.completed;
      Shrinks(Ids(steps), start.completed, o.completed, ready[0].id);
      assert o == full;
    } else {
      waves' := FailedFollows(steps, before, waves', full, o.order);
    }
  }

  lemma FailedFollows(steps: seq<Step>, before: set<string>, waves: seq<seq<Step>>, full: Outcome, order: seq<Step>)
    returns (all: seq<seq<Step>>)
    requires Accepted(steps) && DepthsDone(steps, before, waves, full) && order <= full.order
    ensures FollowsDepth(steps, before, order, all)
  {
    ResidualAccepted(steps, before);
    hide Accepted, Residual, FirstWaves, ShallowIds, WavesByDepth;
    all := AllWaves(Residual(steps, before), waves);
    FlattenPrefix(waves, all);
    assert StripAll(order, before) <= StripAll(full.order, before);
  }

  lemma FinalState(steps: seq<Step>, before: set<string>, o: Outcome, waves: seq<seq<Step>>)
    requires Accepted(steps) && o.completed <= Ids(steps)
    requires Pick(steps, Ids(steps) - o.completed) == [] && DepthsDone(steps, before, waves, o)
    ensures o.completed == Ids(steps)
    ensures FollowsDepth(steps, before, o.order, waves) && StripAll(o.order, before) == Flatten(waves)
  {
    RemainingCovers(steps, o.completed);
    var rest := Residual(steps, before);
    ResidualAccepted(steps, before);
    assert o.completed == Ids(steps);
    hide Accepted, Residual, Ids, UniqueIds, KnownDependencies, Acyclic;
    NothingLeft(rest, Ids(rest));
    AcceptedParts(rest);
    EveryStepPlaced(rest, o.completed - before, waves);
  }

  lemma AcceptedParts(steps: seq<Step>)
    requires Accepted(steps)
    ensures UniqueIds(steps) && KnownDependencies(steps)
  {
  }

  lemma NothingLeft(steps: seq<Step>, ids: set<string>)
    ensures Pick(steps, ids - ids) == []
  {
    var r := Pick(steps, ids - ids);
    assert forall i :: 0 <= i < |r| ==> r[i] in r;
  }

  lemma SubsetSize(a: set<string>, b: set<string>)
    requires a <= b
    ensures |a| <= |b|
  {
    assert b == a + (b - a);
  }

  lemma WaveAdvances(steps: seq<Step>, before: set<string>, waves: seq<seq<Step>>, start: Outcome, o: Outcome,
                     ready: seq<Step>)
    requires Accepted(steps) && DepthsDone(steps, before, waves, start) && ready != []
    requires ready == Ready(Pick(steps, Ids(steps) - start.completed), start.completed)
    requires o.completed == start.completed + Ids(ready) && o.order == start.order + ready
    ensures DepthsDone(steps, before, waves + [StripAll(ready, before)], o)
  {
    hide Accepted, Residual, Pick, Ready, UniqueIds, KnownDependencies, IdsOfDepth, ShallowIds, StripAll, Ids;
    hide FirstWaves, Flatten;
    ResidualAccepted(steps, before);
    var rest := Residual(steps, before);
    AcceptedParts(rest);
    var done, wave := start.completed - before, StripAll(ready, before);
    ReadyOfResidual(steps, before, start.completed);
    NextWave(rest, done, |waves|);
    PickIds(rest, IdsOfDepth(rest, |waves| + 1));
    StripMembers(ready, before);
    StripConcat(start.order, ready, before);
    FlattenSnoc(waves, wave);
    StripSize(ready, before);
    FirstWavesSnoc(rest, waves, wave);
    NewlyDone(rest, before, start.completed, Ids(ready), |waves|);
  }

  lemma FirstWavesSnoc(steps: seq<Step>, waves: seq<seq<Step>>, wave: seq<Step>)
    requires FirstWaves(steps, waves) && wave == Pick(steps, IdsOfDepth(steps, |waves| + 1)) && wave != []
    ensures FirstWaves(steps, waves + [wave])
  {
    hide Pick, IdsOfDepth;
  }

  lemma StripSize(steps: seq<Step>, before: set<string>)
    ensures |StripAll(steps, before)| == |steps|
  {
  }

  lemma NewlyDone(rest: seq<Step>, before: set<string>, completed: set<string>, wave: set<string>, k: nat)
    requires before <= completed && completed - before == ShallowIds(rest, k)
    requires completed - before + IdsOfDepth(rest, k + 1) == ShallowIds(rest, k + 1) && wave == IdsOfDepth(rest, k + 1)
    requires wave !! before
    ensures completed + wave - before == ShallowIds(rest, k + 1)
  {
  }

  lemma RemainingCovers(steps: seq<Step>, completed: set<string>)
    ensures var remaining := Pick(steps, Ids(steps) - completed);
            && (forall s :: s in remaining ==> s in steps && s.id !in completed)
            && (forall s :: s in steps ==> s.id in completed || s in remaining)
  {
    assert forall s :: s in steps ==> s.id in Ids(steps);
  }

  lemma {:induction false} ReadyUnique(remaining: seq<Step>, completed: set<string>)
    requires UniqueIds(remaining)
    ensures UniqueIds(Ready(remaining, completed))
  {
    if remaining != [] {
      var rest := remaining[1..];
      assert forall i :: 0 <= i < |rest| ==> rest[i] == remaining[i + 1];
      ReadyUnique(rest, completed);
      forall k | 0 <= k < |Ready(rest, completed)| ensures Ready(rest, completed)[k].id != remaining[0].id {
        var s := Ready(rest, completed)[k];
        assert s in rest;
        var i :| 0 <= i < |rest| && rest[i] == s;
      }
    }
  }

  lemma FreshStaysUnique(order: seq<Step>, step: Step)
    requires UniqueIds(order) && step.id !in Ids(order)
    ensures UniqueIds(order + [step])
  {
    assert forall i :: 0 <= i < |order| ==> order[i] in order && order[i].id in Ids(order);
  }

  /** Removing the finished step from what remains is remaining without what is now complete. */
  lemma PopRemaining(steps: seq<Step>, completed: set<string>, id: string)
    ensures var remaining := Pick(steps, Ids(steps) - completed);
            Pick(remaining, Ids(remaining) - {id}) == Pick(steps, Ids(steps) - (completed + {id}))
  {
    var left := Ids(steps) - completed;
    var remaining := Pick(steps, left);
    PickPick(steps, left, Ids(remaining) - {id});
    forall s | s in steps ensures s.id in left * (Ids(remaining) - {id}) <==> s.id in Ids(steps) - (completed + {id}) {
      if s.id in left {
        assert s in remaining;
      }
    }
    PickCongruent(steps, left * (Ids(remaining) - {id}), Ids(steps) - (completed + {id}));
  }

  lemma Shrinks(all: set<string>, start: set<string>, completed: set<string>, id: string)
    requires start <= completed <= all && id in completed && id !in start
    ensures |all - completed| < |all - start|
  {
    assert all - completed < all - start;
    var rest := (all - start) - (all - completed);
    assert all - start == (all - completed) + rest && id in rest;
  }

  lemma PickIds(steps: seq<Step>, ids: set<string>)
    requires ids <= Ids(steps)
    ensures Ids(Pick(steps, ids)) == ids
  {
    forall n | n in ids ensures n in Ids(Pick(steps, ids)) {
      var s :| s in steps && s.id == n;
      assert s in Pick(steps, ids);
    }
  }

  /** Once all chains of length k are done, the ready list is exactly the steps of depth k + 1. */
  lemma NextWave(steps: seq<Step>, completed: set<string>, k: nat)
    requires UniqueIds(steps) && KnownDependencies(steps)
    ensures completed == ShallowIds(steps, k) ==>
              && Ready(Pick(steps, Ids(steps) - completed), completed) == Pick(steps, IdsOfDepth(steps, k + 1))
              && completed + IdsOfDepth(steps, k + 1) == ShallowIds(steps, k + 1)
              && IdsOfDepth(steps, k + 1) <= Ids(steps)
  {
    if completed == ShallowIds(steps, k) {
      ShallowLevels(steps, k);
      var remaining, next := Pick(steps, Ids(steps) - completed), ShallowIds(steps, k + 1);
      ReadyIsPick(remaining, completed, next);
      PickPick(steps, Ids(steps) - completed, next);
      assert (Ids(steps) - completed) * next == IdsOfDepth(steps, k + 1);
    }
  }

  lemma EveryStepPlaced(steps: seq<Step>, done: set<string>, waves: seq<seq<Step>>)
    requires UniqueIds(steps) && KnownDependencies(steps)
    requires Pick(steps, Ids(steps) - done) == [] && FirstWaves(steps, waves) && done == ShallowIds(steps, |waves|)
    ensures done == Ids(steps) && WavesByDepth(steps, waves)
  {
    RemainingCovers(steps, done);
    forall s | s in steps ensures exists w :: 0 <= w < |waves| && s in waves[w] {
      var w := PlaceByDepth(steps, s, |waves|);
      assert s in waves[w];
    }
  }

  lemma {:induction false} PlaceByDepth(steps: seq<Step>, s: Step, k: nat) returns (w: nat)
    requires UniqueIds(steps) && KnownDependencies(steps)
    requires s in steps && s.id in ShallowIds(steps, k)
    ensures w < k && s in Pick(steps, IdsOfDepth(steps, w + 1))
  {
    ShallowLevels(steps, 0);
    ShallowLevels(steps, k - 1);
    if s.id in ShallowIds(steps, k - 1) {
      w := PlaceByDepth(steps, s, k - 1);
    } else {
      w := k - 1;
    }
  }

  /** A set of step ids that contains the dependencies of its members. */
  ghost predicate DownClosed(steps: seq<Step>, ids: set<string>) {
    forall s :: s in steps && s.id in ids ==> s.dependsOn <= ids
  }

  lemma {:induction false} OrderDownClosed(steps: seq<Step>, before: set<string>, order: seq<Step>, k: nat)
    requires Accepted(steps) && Ordered(steps, before, order) && k <= |order| && DownClosed(steps, before)
    ensures DownClosed(steps, before + Ids(order[..k]))
  {
    hide Acyclic, KnownDependencies;
    if 0 < k {
      OrderDownClosed(steps, before, order, k - 1);
      var done := before + Ids(order[..k - 1]);
      assert order[..k] == order[..k - 1] + [order[k - 1]];
      IdsSnoc(order[..k - 1], order[k - 1]);
      forall s | s in steps && s.id in done + {order[k - 1].id} ensures s.dependsOn <= done + {order[k - 1].id} {
        if s.id == order[k - 1].id {
          SameIdSameStep(steps, s, order[k - 1]);
        }
      }
    }
  }

  /** When a step runs, everything it transitively depends on has already been completed. */
  lemma TransitivelyDone(steps: seq<Step>, before: set<string>, order: seq<Step>, k: nat, p: seq<string>)
    requires Accepted(steps) && DownClosed(steps, before) && Ordered(steps, before, order) && k < |order|
    requires IsPath(GraphOf(steps), p) && p[0] == order[k].id && 2 <= |p|
    ensures p[|p| - 1] in before + Ids(order[..k])
  {
    var g, done := GraphOf(steps), before + Ids(order[..k]);
    GraphOfKeys(steps);
    GraphOfEdges(steps, order[k]);
    OrderDownClosed(steps, before, order, k);
    var inside := done * g.Keys;
    forall n | n in inside ensures g[n] <= inside {
      var s :| s in steps && s.id == n;
      GraphOfEdges(steps, s);
      assert s.dependsOn <= Ids(steps);
    }
    assert p[1] in g[p[0]] && order[k].dependsOn <= Ids(steps);
    StaysInside(g, inside, p, 1, |p| - 1);
  }
}
