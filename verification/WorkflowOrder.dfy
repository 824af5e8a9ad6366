/**
 The order in which the handlers of a plan are invoked, read off the history of a run: in every run
 it respects the dependencies, and in an undisturbed execution it is the depth order of the plan.
 */
module WorkflowOrder {
  import opened Contracts
  import opened PlanGraph
  import opened WaveScheduler
  import opened TaskStates
  import opened Tables
  import opened Transactions
  import opened Workflow
  import opened WorkflowInvariant
  import opened WorkflowSteps
  import opened WorkflowTheorems
  import opened WorkflowCrowd

  /** The steps of a plan whose handlers were invoked, in the order of the invocations. */
  function InvokedSteps(plan: Plan, invoked: seq<CallKey>): seq<Step> {
    if invoked == [] then []
    else
      var last := invoked[|invoked| - 1];
      InvokedSteps(plan, invoked[..|invoked| - 1])
      + if last.version == plan.version then Pick(plan.steps, {last.stepId}) else []
  }

  lemma {:induction false} PickNone(steps: seq<Step>, id: string)
    requires id !in Ids(steps)
    ensures Pick(steps, {id}) == []
  {
    if steps != [] {
      assert steps[0] in steps && forall s :: s in steps[1..] ==> s in steps;
      PickNone(steps[1..], id);
    }
  }

  lemma {:induction false} PickSingle(steps: seq<Step>, s: Step)
    requires UniqueIds(steps) && s in steps
    ensures Pick(steps, {s.id}) == [s]
  {
    var rest := steps[1..];
    assert forall i :: 0 <= i < |rest| ==> rest[i] == steps[i + 1];
    if steps[0].id == s.id {
      SameIdSameStep(steps, steps[0], s);
      PickNone(rest, s.id);
    } else {
      PickSingle(rest, s);
    }
  }

  lemma InvokedSnoc(plan: Plan, invoked: seq<CallKey>, of: Plan, s: Step)
    requires UniqueIds(of.steps) && s in of.steps
    ensures of == plan ==> InvokedSteps(plan, invoked + [KeyOf(of, s)]) == InvokedSteps(plan, invoked) + [s]
    ensures of.version != plan.version ==> InvokedSteps(plan, invoked + [KeyOf(of, s)]) == InvokedSteps(plan, invoked)
  {
    assert (invoked + [KeyOf(of, s)])[..|invoked|] == invoked;
    PickSingle(of.steps, s);
    hide Pick, UniqueIds;
  }

  lemma {:induction false} NeverInvoked(plan: Plan, invoked: seq<CallKey>)
    requires forall k :: 0 <= k < |invoked| ==> invoked[k].version != plan.version
    ensures InvokedSteps(plan, invoked) == []
  {
    if invoked != [] {
      NeverInvoked(plan, invoked[..|invoked| - 1]);
    }
  }

  // ----- Every run respects the dependencies -----

  ghost predicate OrderedPlans(t: Tables, invoked: seq<CallKey>) {
    forall v :: v in t.plans ==> Ordered(t.plans[v].steps, {}, InvokedSteps(t.plans[v], invoked))
  }

  /** Whatever has succeeded was invoked. */
  ghost predicate SuccessInvoked(t: Tables, invoked: seq<CallKey>) {
    forall v, s :: v in t.plans && s in t.plans[v].steps && StatusIs(t, t.plans[v], s.id, StepSucceeded) ==>
      s.id in Ids(InvokedSteps(t.plans[v], invoked))
  }

  ghost predicate OrderInv(w: World) {
    && OrderedPlans(w.db.tables, w.invoked) && SuccessInvoked(w.db.tables, w.invoked)
    && (w.op.Running? || w.op.Recording? ==> w.op.step.id in Ids(InvokedSteps(w.op.x.plan, w.invoked)))
  }

  /** The operation is about to record this outcome of this step. */
  predicate Decides(op: Operation, plan: Plan, s: Step, status: StepStatus) {
    && (op.Recording? || op.FailRecording?) && op.x.plan == plan && op.step == s
    && status == if op.Recording? && !op.checkFailed then StepSucceeded else StepFailed
  }

  /** A step of a plan becomes succeeded or failed only when its own outcome is recorded. */
  ghost predicate OutcomeEffect(t: Tables, t': Tables, op: Operation) {
    forall v, s, status ::
      v in t'.plans && s in t'.plans[v].steps && status in {StepSucceeded, StepFailed}
      && StatusIs(t', t'.plans[v], s.id, status) ==>
        || (v in t.plans && t.plans[v] == t'.plans[v] && StatusIs(t, t.plans[v], s.id, status))
        || Decides(op, t'.plans[v], s, status)
  }

  lemma InsertDecidesNothing(t: Tables, plan: Plan, op: Operation)
    requires PlansOk(t) && CanInsert(t, plan)
    ensures OutcomeEffect(t, InsertPlan(t, plan), op)
  {
    var t' := InsertPlan(t, plan);
    forall v, s, status | v in t'.plans && s in t'.plans[v].steps && status in {StepSucceeded, StepFailed}
        && StatusIs(t', t'.plans[v], s.id, status)
      ensures v in t.plans && t.plans[v] == t'.plans[v] && StatusIs(t, t.plans[v], s.id, status)
    {
      assert v == plan.version ==> RecordOf(plan, s) in PendingRecords(plan);
    }
  }

  /** A write to one record changes the outcome of no other step. */
  lemma OneRecordDecides(t: Tables, t': Tables, v: nat, s: Step, op: Operation)
    requires PlansOk(t) && v in t.plans && s in t.plans[v].steps && t'.plans == t.plans
    requires RecordOf(t.plans[v], s) in t'.steps
              && t'.steps == t.steps[RecordOf(t.plans[v], s) := t'.steps[RecordOf(t.plans[v], s)]]
    requires t'.steps[RecordOf(t.plans[v], s)] in {StepSucceeded, StepFailed} ==>
              Decides(op, t.plans[v], s, t'.steps[RecordOf(t.plans[v], s)])
    ensures OutcomeEffect(t, t', op)
  {
    forall u, r, status | u in t'.plans && r in t'.plans[u].steps && status in {StepSucceeded, StepFailed}
        && StatusIs(t', t'.plans[u], r.id, status)
      ensures StatusIs(t, t.plans[u], r.id, status) || Decides(op, t'.plans[u], r, status)
    {
      hide PlansOk;
      DistinctRows(t, v, s, u, r);
    }
  }

  lemma OutcomeStep(cfg: Config, w: World, a: Action)
    requires Inv(cfg, w)
    ensures OutcomeEffect(w.db.tables, Next(cfg, w, a).db.tables, w.op)
  {
    hide OutcomeEffect, Inv, Next;
    if a.Go? && WritesTables(w.op) {
      match w.op
      case Reserving(x, s) => ReservingOutcome(cfg, w, a.input);
      case FailRecording(x, s, _) => RecordingOutcome(cfg, w, a.input);
      case Recording(x, s, _) => RecordingOutcome(cfg, w, a.input);
      case _ => StoringOutcome(cfg, w, a.input);
    } else {
      TablesUntouched(cfg, w, a);
      NoChange(w.db.tables, w.op);
    }
  }

  lemma NoChange(t: Tables, op: Operation)
    ensures OutcomeEffect(t, t, op)
  {
  }

  lemma StoringOutcome(cfg: Config, w: World, input: Input)
    requires Inv(cfg, w) && (w.op.Analyzing? || w.op.Replanning?)
    ensures OutcomeEffect(w.db.tables, Next(cfg, w, Go(input)).db.tables, w.op)
  {
    hide OutcomeEffect, RowsOk, PlansOk, InsertPlan, CanInsert, WellFormed, Exceeds, OpInv, HistoryOk, StateOk,
        StageOk, BudgetOk;
    NoChange(w.db.tables, w.op);
    if input.Planned? {
      var plan := if w.op.Replanning? then input.plan.(version := w.op.version) else input.plan;
      if CanInsert(w.db.tables, plan) { InsertDecidesNothing(w.db.tables, plan, w.op); }
    }
  }

  predicate AtStep(op: Operation) {
    op.Reserving? || op.Invoking? || op.Running? || op.FailRecording? || op.Recording?
  }

  /** The step at hand belongs to a stored, accepted plan. */
  lemma StepAtHand(cfg: Config, w: World)
    requires Inv(cfg, w) && AtStep(w.op)
    ensures PlansOk(w.db.tables) && RowsOk(w.db.tables) && w.op.step in w.op.x.plan.steps
    ensures Known(w.db.tables.plans, w.op.x.plan) && Accepted(w.op.x.plan.steps) && UniqueIds(w.op.x.plan.steps)
  {
    hide PlansOk, RowsOk, Acyclic, StateOk, BudgetOk, StageOk, HistoryOk;
    LatestAccepted(cfg.limits, w.db, w.op.x.iter, w.op.x.plan);
    hide OnLatest;
  }

  lemma ReservingOutcome(cfg: Config, w: World, input: Input)
    requires Inv(cfg, w) && w.op.Reserving?
    ensures OutcomeEffect(w.db.tables, Next(cfg, w, Go(input)).db.tables, w.op)
  {
    hide Inv, ReserveStep, OutcomeEffect, RowsOk, PlansOk, Accepted, UniqueIds, Next;
    StepAtHand(cfg, w);
    ReserveIsNew(cfg, w);
    NextReserving(cfg, w, input);
    OneRecordDecides(w.db.tables, ReserveCall(w.db.tables, w.op.x.plan, w.op.step), w.op.x.plan.version,
        w.op.step, w.op);
  }

  lemma RecordingStep(cfg: Config, w: World, input: Input)
    requires Inv(cfg, w) && (w.op.FailRecording? || w.op.Recording?)
    ensures var x, s, t, t' := w.op.x, w.op.step, w.db.tables, Next(cfg, w, Go(input)).db.tables;
            t' == if w.op.Recording? then FinishCall(t, x.plan, s, w.op.checkFailed) else FailCall(t, x.plan, s)
  {
    hide DbInv, HistoryOk, Executes, RecordFailure, RecordResult, FinishCall, FailCall, Absorb;
    InFlightWrites(cfg, w.db, w.op.x, w.op.step, w.op.Recording? && w.op.checkFailed);
  }

  lemma RecordingOutcome(cfg: Config, w: World, input: Input)
    requires Inv(cfg, w) && (w.op.FailRecording? || w.op.Recording?)
    ensures OutcomeEffect(w.db.tables, Next(cfg, w, Go(input)).db.tables, w.op)
  {
    hide Inv, OutcomeEffect, RowsOk, PlansOk, Accepted, UniqueIds, Next;
    StepAtHand(cfg, w);
    RecordingStep(cfg, w, input);
    OneRecordDecides(w.db.tables, Next(cfg, w, Go(input)).db.tables, w.op.x.plan.version, w.op.step, w.op);
  }

  /** A plan under a new version has no invocations yet. */
  lemma NewVersionUntouched(cfg: Config, w: World, plan: Plan)
    requires Inv(cfg, w) && plan.version !in w.db.tables.plans
    ensures InvokedSteps(plan, w.invoked) == []
  {
    hide OpInv, StateOk, BudgetOk, StageOk, PlansOk;
    forall k | 0 <= k < |w.invoked| ensures w.invoked[k].version != plan.version {
      assert w.invoked[k] in w.db.tables.calls;
    }
    NeverInvoked(plan, w.invoked);
  }

  lemma OrderKeeps(cfg: Config, w: World, a: Action)
    requires Inv(cfg, w) && OrderInv(w)
    ensures OrderInv(Next(cfg, w, a))
  {
    hide Inv, OrderInv, Next, OutcomeEffect, TablesEffect;
    EffectOfStep(cfg, w, a);
    OutcomeStep(cfg, w, a);
    StepsOfOp(cfg, w, a);
    var w' := Next(cfg, w, a);
    if w'.invoked == w.invoked {
      TablesKeepOrder(cfg, w, w');
    } else {
      InvokingKeepsOrder(cfg, w, a);
    }
  }

  /** How an operation comes to run or record a step. */
  predicate RunEffect(w: World, w': World) {
    && (w'.invoked == w.invoked && (w'.op.Running? || w'.op.Recording?) ==>
          (w.op.Running? || w.op.Recording?) && w'.op.x == w.op.x && w'.op.step == w.op.step)
    && (w'.invoked != w.invoked ==>
          w.op.Invoking? && w' == World(w.db, Running(w.op.x, w.op.step), w.invoked + [KeyOf(w.op.x.plan, w.op.step)]))
  }

  lemma StepsOfOp(cfg: Config, w: World, a: Action)
    ensures RunEffect(w, Next(cfg, w, a))
  {
    hide LatestVersion, Uncertain, LoadProgress, Ready, Absorb, Exceeds, HasUncertainCall, InsertPlan, CanInsert,
        WellFormed;
  }

  lemma TablesKeepOrder(cfg: Config, w: World, w': World)
    requires Inv(cfg, w) && OrderInv(w) && w'.invoked == w.invoked && RunEffect(w, w')
    requires TablesEffect(w.db.tables, w'.db.tables, w.op) && OutcomeEffect(w.db.tables, w'.db.tables, w.op)
    ensures OrderInv(w')
  {
    hide Inv, InvokedSteps;
    var t, t' := w.db.tables, w'.db.tables;
    forall v | v in t'.plans ensures Ordered(t'.plans[v].steps, {}, InvokedSteps(t'.plans[v], w.invoked)) {
      if v !in t.plans {
        NewVersionUntouched(cfg, w, t'.plans[v]);
      }
    }
  }

  lemma InvokingKeepsOrder(cfg: Config, w: World, a: Action)
    requires Inv(cfg, w) && OrderInv(w) && Next(cfg, w, a).invoked != w.invoked && RunEffect(w, Next(cfg, w, a))
    ensures OrderInv(Next(cfg, w, a))
  {
    hide Inv, Next, Ordered, InvokedSteps, StatusIs, Accepted, UniqueIds, PlansOk, RowsOk, Ids;
    var t, x, s, w' := w.db.tables, w.op.x, w.op.step, Next(cfg, w, a);
    StepAtHand(cfg, w);
    DependenciesInvoked(cfg, w);
    forall v | v in t.plans
      ensures Ordered(t.plans[v].steps, {}, InvokedSteps(t.plans[v], w'.invoked))
      ensures Ids(InvokedSteps(t.plans[v], w.invoked)) <= Ids(InvokedSteps(t.plans[v], w'.invoked))
      ensures t.plans[v] == x.plan ==> s.id in Ids(InvokedSteps(t.plans[v], w'.invoked))
    {
      VersionOfPlan(t, v);
      InvokedSnoc(t.plans[v], w.invoked, x.plan, s);
      if t.plans[v] == x.plan {
        IdsSnoc(InvokedSteps(x.plan, w.invoked), s);
        OrderedSnoc(x.plan.steps, {}, InvokedSteps(x.plan, w.invoked), s);
      }
    }
  }

  lemma VersionOfPlan(t: Tables, v: nat)
    requires PlansOk(t) && v in t.plans
    ensures t.plans[v].version == v
  {
  }

  /** The dependencies of the step about to run have succeeded, so they were invoked. */
  lemma DependenciesInvoked(cfg: Config, w: World)
    requires Inv(cfg, w) && SuccessInvoked(w.db.tables, w.invoked) && w.op.Invoking?
    ensures w.op.step.dependsOn <= Ids(InvokedSteps(w.op.x.plan, w.invoked))
  {
    hide Inv, PlansOk, RowsOk, InvokedSteps, Accepted, UniqueIds, StepOk;
    StepAtHand(cfg, w);
    InFlightIsRunning(cfg, w);
    RunningFollowsInvoked(w.db.tables, w.op.x.plan, w.op.step, w.invoked);
  }

  lemma InFlightIsRunning(cfg: Config, w: World)
    requires Inv(cfg, w) && w.op.Invoking?
    ensures StatusIs(w.db.tables, w.op.x.plan, w.op.step.id, StepRunning)
  {
    hide DbInv, HistoryOk, OnLatest;
  }

  lemma RunningFollowsInvoked(t: Tables, plan: Plan, s: Step, invoked: seq<CallKey>)
    requires RowsOk(t) && SuccessInvoked(t, invoked) && Known(t.plans, plan) && Accepted(plan.steps) && s in plan.steps
    requires StatusIs(t, plan, s.id, StepRunning)
    ensures s.dependsOn <= Ids(InvokedSteps(plan, invoked))
  {
    hide InvokedSteps, Acyclic, UniqueIds;
    RecordExists(t, plan.version, s);
    hide RowsOk;
    forall d | d in s.dependsOn ensures d in Ids(InvokedSteps(plan, invoked)) {
      DependencyKnown(t, plan, s, d);
      var r :| r in plan.steps && StatusIs(t, plan, r.id, StepSucceeded) && r.id == d;
    }
  }

  lemma {:induction false} OrderReachable(cfg: Config, actions: seq<Action>)
    requires ValidLimits(cfg.limits)
    ensures OrderInv(Run(cfg, actions))
  {
    if actions == [] {
      assert Run(cfg, actions) == INIT;
    } else {
      hide OrderInv, Inv, Next;
      var init := actions[..|actions| - 1];
      OrderReachable(cfg, init);
      Reachable(cfg, init);
      OrderKeeps(cfg, Run(cfg, init), actions[|actions| - 1]);
    }
  }

  /**
   In every run, with any failures, crashes and resumes, the handlers of a plan are invoked in an
   order in which each step comes after all its dependencies.
   */
  lemma InvocationsAreOrdered(cfg: Config, actions: seq<Action>, v: nat)
    requires ValidLimits(cfg.limits) && v in Run(cfg, actions).db.tables.plans
    ensures Ordered(Run(cfg, actions).db.tables.plans[v].steps, {},
                    InvokedSteps(Run(cfg, actions).db.tables.plans[v], Run(cfg, actions).invoked))
  {
    OrderReachable(cfg, actions);
  }

  // ----- Positions in the depth order of a plan -----

  /**
   waves have run, then part of the next wave, whose rest is the step in flight and the ready list.
   done is what has run so far, completed its ids.
   */
  ghost predicate DepthPosition(rest: seq<Step>, completed: set<string>, ready: seq<Step>, done: seq<Step>,
                                inFlight: seq<Step>, waves: seq<seq<Step>>, part: seq<Step>) {
    && FirstWaves(rest, waves)
    && done == Flatten(waves) + part && completed == ShallowIds(rest, |waves|) + Ids(part)
    && if inFlight == [] && ready == [] then part == []
       else part + inFlight + ready == Pick(rest, IdsOfDepth(rest, |waves| + 1))
  }

  ghost predicate InDepthOrder(rest: seq<Step>, completed: set<string>, ready: seq<Step>, done: seq<Step>,
                               inFlight: seq<Step>) {
    exists waves, part :: DepthPosition(rest, completed, ready, done, inFlight, waves, part)
  }

  lemma StartsInOrder(rest: seq<Step>)
    requires UniqueIds(rest) && KnownDependencies(rest)
    ensures InDepthOrder(rest, {}, [], [], [])
  {
    ShallowLevels(rest, 0);
    assert DepthPosition(rest, {}, [], [], [], [], []);
  }

  lemma NextWaveInOrder(rest: seq<Step>, completed: set<string>, done: seq<Step>)
    requires UniqueIds(rest) && KnownDependencies(rest) && InDepthOrder(rest, completed, [], done, [])
    ensures InDepthOrder(rest, completed, Ready(Pick(rest, Ids(rest) - completed), completed), done, [])
  {
    hide Pick, Ready, UniqueIds, KnownDependencies, IdsOfDepth, ShallowIds, Ids, Flatten, FirstWaves;
    IdsEmpty();
    var waves, part :| DepthPosition(rest, completed, [], done, [], waves, part);
    NextWave(rest, completed, |waves|);
    var ready := Ready(Pick(rest, Ids(rest) - completed), completed);
    assert [] + [] + ready == ready;
    assert DepthPosition(rest, completed, ready, done, [], waves, part);
  }

  lemma TakeInOrder(rest: seq<Step>, completed: set<string>, ready: seq<Step>, done: seq<Step>)
    requires ready != [] && InDepthOrder(rest, completed, ready, done, [])
    ensures InDepthOrder(rest, completed, ready[1..], done, [ready[0]])
  {
    hide Pick, IdsOfDepth, ShallowIds, Flatten, Ids, FirstWaves;
    var waves, part :| DepthPosition(rest, completed, ready, done, [], waves, part);
    assert part + [ready[0]] + ready[1..] == part + [] + ready;
    assert DepthPosition(rest, completed, ready[1..], done, [ready[0]], waves, part);
  }

  /** The step in flight completes; the last of its wave closes the wave. */
  lemma AbsorbInOrder(rest: seq<Step>, completed: set<string>, ready: seq<Step>, done: seq<Step>, s: Step)
    requires UniqueIds(rest) && KnownDependencies(rest) && InDepthOrder(rest, completed, ready, done, [s])
    ensures InDepthOrder(rest, completed + {s.id}, ready, done + [s], [])
  {
    hide Pick, IdsOfDepth, ShallowIds, Flatten, UniqueIds, KnownDependencies, Ids, FirstWaves;
    var waves, part :| DepthPosition(rest, completed, ready, done, [s], waves, part);
    IdsSnoc(part, s);
    if ready == [] {
      var wave := part + [s];
      assert wave == part + [s] + ready;
      WaveCompletes(rest, waves, wave);
      FlattenSnoc(waves, wave);
      FirstWavesSnoc(rest, waves, wave);
      assert done + [s] == Flatten(waves + [wave]) + [];
      IdsEmpty();
      assert DepthPosition(rest, completed + {s.id}, ready, done + [s], [], waves + [wave], []);
    } else {
      assert part + [s] + [] + ready == part + [s] + ready;
      assert DepthPosition(rest, completed + {s.id}, ready, done + [s], [], waves, part + [s]);
    }
  }

  lemma IdsEmpty()
    ensures Ids([]) == {}
  {
  }

  lemma WaveCompletes(steps: seq<Step>, waves: seq<seq<Step>>, wave: seq<Step>)
    requires UniqueIds(steps) && KnownDependencies(steps) && wave == Pick(steps, IdsOfDepth(steps, |waves| + 1))
    ensures ShallowIds(steps, |waves|) + Ids(wave) == ShallowIds(steps, |waves| + 1)
  {
    hide Pick, IdsOfDepth, ShallowIds;
    NextWave(steps, ShallowIds(steps, |waves|), |waves|);
    PickIds(steps, IdsOfDepth(steps, |waves| + 1));
  }

  /** What has run is a prefix of the depth order, with the step in flight as well; all of it once nothing remains. */
  lemma PrefixInOrder(rest: seq<Step>, completed: set<string>, ready: seq<Step>, done: seq<Step>, inFlight: seq<Step>)
    returns (waves: seq<seq<Step>>)
    requires Accepted(rest) && InDepthOrder(rest, completed, ready, done, inFlight)
    ensures WavesByDepth(rest, waves) && done + inFlight <= Flatten(waves)
    ensures inFlight == [] && ready == [] && Pick(rest, Ids(rest) - completed) == [] ==> done == Flatten(waves)
  {
    hide Pick, IdsOfDepth, ShallowIds, Flatten, Accepted, Ids, FirstWaves, WavesByDepth;
    var first, part :| DepthPosition(rest, completed, ready, done, inFlight, first, part);
    AcceptedParts(rest);
    if inFlight == [] && ready == [] {
      IdsEmpty();
      waves := AllWaves(rest, first);
      FlattenPrefix(first, waves);
      if Pick(rest, Ids(rest) - completed) == [] {
        EveryStepPlaced(rest, completed, first);
        waves := first;
      }
    } else {
      var wave := part + inFlight + ready;
      FirstWavesSnoc(rest, first, wave);
      FlattenSnoc(first, wave);
      waves := AllWaves(rest, first + [wave]);
      FlattenPrefix(first + [wave], waves);
      assert Flatten(first) + wave == done + inFlight + ready;
    }
  }

  // ----- An execution in the depth order of what was left -----

  /** The locals of an execution that resumed with before done and has run the steps done since. */
  ghost predicate Follows(x: Exec, before: set<string>, done: seq<Step>, inFlight: seq<Step>) {
    && before <= x.completed
    && InDepthOrder(Residual(x.plan.steps, before), x.completed - before, StripAll(x.ready, before),
                    StripAll(done, before), StripAll(inFlight, before))
  }

  lemma RestAccepted(steps: seq<Step>, before: set<string>)
    requires Accepted(steps)
    ensures var rest := Residual(steps, before); Accepted(rest) && UniqueIds(rest) && KnownDependencies(rest)
  {
    ResidualAccepted(steps, before);
  }

  lemma StripEmpty(before: set<string>)
    ensures StripAll([], before) == []
  {
  }

  lemma FollowsStart(x: Exec)
    requires Accepted(x.plan.steps) && x.ready == []
    ensures Follows(x, x.completed, [], [])
  {
    hide Accepted, Residual, UniqueIds, KnownDependencies, InDepthOrder, StripAll;
    RestAccepted(x.plan.steps, x.completed);
    StripEmpty(x.completed);
    StartsInOrder(Residual(x.plan.steps, x.completed));
    assert x.completed - x.completed == {};
  }

  lemma FollowsNextWave(t: Tables, x: Exec, before: set<string>, done: seq<Step>)
    requires Accepted(x.plan.steps) && ExecOk(t, x, None) && x.failed.None? && x.ready == []
    requires Follows(x, before, done, [])
    ensures Follows(x.(ready := Ready(x.remaining, x.completed)), before, done, [])
  {
    hide Accepted, Residual, UniqueIds, KnownDependencies, InDepthOrder, StripAll, ExecOk, Ready, Pick, Ids;
    RestAccepted(x.plan.steps, before);
    StripEmpty(before);
    ExecShape(t, x);
    ReadyOfResidual(x.plan.steps, before, x.completed);
    NextWaveInOrder(Residual(x.plan.steps, before), x.completed - before, StripAll(done, before));
  }

  lemma FollowsTake(x: Exec, before: set<string>, done: seq<Step>)
    requires x.ready != [] && Follows(x, before, done, [])
    ensures Follows(x.(ready := x.ready[1..]), before, done, [x.ready[0]])
  {
    hide Residual, InDepthOrder;
    var ready := StripAll(x.ready, before);
    assert ready[1..] == StripAll(x.ready[1..], before) && [ready[0]] == StripAll([x.ready[0]], before);
    StripEmpty(before);
    TakeInOrder(Residual(x.plan.steps, before), x.completed - before, ready, StripAll(done, before));
  }

  lemma FollowsAbsorb(x: Exec, before: set<string>, done: seq<Step>, s: Step)
    requires Accepted(x.plan.steps) && Follows(x, before, done, [s]) && s.id !in before
    ensures Follows(Absorb(x, s.id, false), before, done + [s], [])
  {
    hide Accepted, Residual, UniqueIds, KnownDependencies, InDepthOrder, Pick, Ids;
    RestAccepted(x.plan.steps, before);
    StripEmpty(before);
    StripConcat(done, [s], before);
    assert StripAll([s], before) == [Strip(s, before)];
    assert x.completed + {s.id} - before == (x.completed - before) + {s.id};
    AbsorbInOrder(Residual(x.plan.steps, before), x.completed - before, StripAll(x.ready, before),
                  StripAll(done, before), Strip(s, before));
  }

  lemma FollowsPrefix(x: Exec, before: set<string>, done: seq<Step>, inFlight: seq<Step>)
    returns (waves: seq<seq<Step>>)
    requires Accepted(x.plan.steps) && Follows(x, before, done, inFlight)
    ensures FollowsDepth(x.plan.steps, before, done + inFlight, waves)
    ensures inFlight == [] && x.ready == [] && Pick(x.plan.steps, Ids(x.plan.steps) - x.completed) == [] ==>
              StripAll(done, before) == Flatten(waves)
  {
    hide Accepted, InDepthOrder, Pick, Ids, WavesByDepth, Flatten, StripAll;
    RestAccepted(x.plan.steps, before);
    StripConcat(done, inFlight, before);
    StripEmpty(before);
    RemainsOfResidual(x.plan.steps, before, x.completed);
    waves := PrefixInOrder(Residual(x.plan.steps, before), x.completed - before, StripAll(x.ready, before),
                           StripAll(done, before), StripAll(inFlight, before));
  }

  lemma RemainsOfResidual(steps: seq<Step>, before: set<string>, completed: set<string>)
    requires before <= completed
    ensures var rest := Residual(steps, before);
            Pick(rest, Ids(rest) - (completed - before)) == StripAll(Pick(steps, Ids(steps) - completed), before)
  {
    hide Pick, StripAll;
    var left, done := Ids(steps) - before, completed - before;
    StripMembers(Pick(steps, left), before);
    PickIds(steps, left);
    PickStrip(Pick(steps, left), before, left - done);
    PickPick(steps, left, left - done);
    assert left * (left - done) == Ids(steps) - completed;
  }

  lemma ExecShape(t: Tables, x: Exec)
    requires ExecOk(t, x, None) && x.failed.None?
    ensures x.remaining == Pick(x.plan.steps, Ids(x.plan.steps) - x.completed) && x.completed <= Ids(x.plan.steps)
    ensures x.remaining == [] ==> x.ready == []
  {
    assert Ids(x.plan.steps) - x.completed - FailedIds(x) == Ids(x.plan.steps) - x.completed;
    assert x.ready != [] ==> x.ready[0] in x.ready;
  }

  // ----- Told from the history of a run -----

  /**
   order is what had been invoked of the plan before, and then a prefix of what was left, in depth
   order; all of it if complete.
   */
  ghost predicate RanByDepth(plan: Plan, prior: seq<Step>, order: seq<Step>, complete: bool) {
    exists later, waves :: RanSince(plan, prior, order, later, waves, complete)
  }

  ghost predicate RanSince(plan: Plan, prior: seq<Step>, order: seq<Step>, later: seq<Step>, waves: seq<seq<Step>>,
                           complete: bool) {
    && order == prior + later && FollowsDepth(plan.steps, Ids(prior), later, waves)
    && (complete ==> StripAll(later, Ids(prior)) == Flatten(waves))
  }

  /** The locals of a running execution against the history; the step in flight has been invoked if invoked holds. */
  ghost predicate Stands(x: Exec, prior: seq<Step>, order: seq<Step>, inFlight: seq<Step>, invoked: bool) {
    exists later :: order == prior + later + (if invoked then inFlight else [])
                 && Follows(x, Ids(prior), later, inFlight)
  }

  /** Where the executions of a plan stand when prior had been invoked before the one that runs now. */
  ghost predicate FollowInv(w: World, plan: Plan, prior: seq<Step>) {
    var order := InvokedSteps(plan, w.invoked);
    && (prior != [] ==> plan.version in w.db.tables.plans)
    && match w.op
       case Head(_, _) =>
         w.db.row.state == EXECUTING && w.db.tables.plans != map[] && LatestPlan(w.db.tables) == plan ==> order == prior
       case Loading(_) =>
         w.db.row.state == EXECUTING && w.db.tables.plans != map[] && LatestPlan(w.db.tables) == plan ==> order == prior
       case Progressing(_, p) => p == plan ==> order == prior
       case Scheduling(x) =>
         x.plan == plan ==>
           if x.failed.None? then Stands(x, prior, order, [], false) else RanByDepth(plan, prior, order, false)
       case Reserving(x, s) => x.plan == plan ==> Stands(x, prior, order, [s], false)
       case Invoking(x, s) => x.plan == plan ==> Stands(x, prior, order, [s], false)
       case Running(x, s) => x.plan == plan ==> Stands(x, prior, order, [s], true)
       case Recording(x, s, _) => x.plan == plan ==> Stands(x, prior, order, [s], true)
       case Closing(x) => x.plan == plan ==> RanByDepth(plan, prior, order, x.failed.None?)
       case Verifying(x) => x.plan == plan ==> RanByDepth(plan, prior, order, x.failed.None?)
       case _ => true
  }

  lemma {:induction false} InvokedMember(plan: Plan, invoked: seq<CallKey>, s: Step)
    requires s in InvokedSteps(plan, invoked)
    ensures s in plan.steps
    ensures exists k :: 0 <= k < |invoked| && invoked[k].version == plan.version && invoked[k].stepId == s.id
  {
    var init, last := invoked[..|invoked| - 1], invoked[|invoked| - 1];
    if s in InvokedSteps(plan, init) {
      InvokedMember(plan, init, s);
      var k :| 0 <= k < |init| && init[k].version == plan.version && init[k].stepId == s.id;
      assert invoked[k] == init[k];
    } else {
      assert invoked[|invoked| - 1].stepId == s.id;
    }
  }

  /** When an execution loads its progress, exactly what has been invoked of its plan has succeeded. */
  lemma InvokedIsSucceeded(cfg: Config, w: World)
    requires Inv(cfg, w) && OrderInv(w) && w.op.Progressing?
    ensures SucceededIds(w.db.tables, w.op.plan) == Ids(InvokedSteps(w.op.plan, w.invoked)) && Accepted(w.op.plan.steps)
  {
    hide StateOk, BudgetOk, StageOk, InvokedSteps, Acyclic, LatestVersion;
    var t, plan := w.db.tables, w.op.plan;
    LatestAccepted(cfg.limits, w.db, w.op.iter, plan);
    hide PlansOk, UniqueIds;
    forall s | s in InvokedSteps(plan, w.invoked) ensures s in plan.steps && StatusIs(t, plan, s.id, StepSucceeded) {
      InvokedMember(plan, w.invoked, s);
      var k :| 0 <= k < |w.invoked| && w.invoked[k].version == plan.version && w.invoked[k].stepId == s.id;
      CalledIsDone(t, plan, s, w.invoked[k]);
    }
    forall s | s in plan.steps && StatusIs(t, plan, s.id, StepSucceeded)
        ensures s.id in Ids(InvokedSteps(plan, w.invoked)) {
      assert t.plans[plan.version] == plan;
    }
  }

  lemma CalledIsDone(t: Tables, plan: Plan, s: Step, key: CallKey)
    requires RowsOk(t) && Known(t.plans, plan) && Clean(t) && t.plans != map[] && plan == LatestPlan(t)
    requires UniqueIds(plan.steps) && s in plan.steps
    requires key in t.calls && key.version == plan.version && key.stepId == s.id
    ensures StatusIs(t, plan, s.id, StepSucceeded)
  {
    hide LatestVersion;
    var r :| r in plan.steps && KeyOf(plan, r) == key;
    SameIdSameStep(plan.steps, r, s);
    RecordExists(t, plan.version, s);
  }

  lemma FollowProgressing(cfg: Config, w: World, plan: Plan, prior: seq<Step>)
    requires Inv(cfg, w) && OrderInv(w) && FollowInv(w, plan, prior) && w.op.Progressing?
    ensures FollowInv(AtProgressing(w), plan, prior)
  {
    hide Inv, OrderInv, Uncertain, Follows, InvokedSteps, Accepted, SucceededIds, Ids, RanByDepth;
    InvokedIsSucceeded(cfg, w);
    var x := LoadProgress(w.op.iter, w.db.tables, w.op.plan);
    FollowsStart(x);
    if w.op.plan == plan {
      assert prior + [] + [] == prior;
      assert Follows(x, Ids(prior), [], []);
      assert Stands(x, prior, InvokedSteps(plan, w.invoked), [], false);
    }
  }

  lemma SchedulingLocals(cfg: Config, w: World)
    requires Inv(cfg, w) && w.op.Scheduling?
    ensures Accepted(w.op.x.plan.steps) && ExecOk(w.db.tables, w.op.x, None)
    ensures w.op.x.failed.Some? ==> w.op.x.ready == []
  {
    hide HistoryOk, StateOk, BudgetOk, StageOk, RowsOk, Acyclic;
    LatestAccepted(cfg.limits, w.db, w.op.x.iter, w.op.x.plan);
  }

  lemma StandsTake(x: Exec, prior: seq<Step>, order: seq<Step>)
    requires x.ready != [] && Stands(x, prior, order, [], false)
    ensures Stands(x.(ready := x.ready[1..]), prior, order, [x.ready[0]], false)
  {
    hide Follows, Ids;
    var later :| order == prior + later + [] && Follows(x, Ids(prior), later, []);
    FollowsTake(x, Ids(prior), later);
  }

  lemma StandsNextWave(t: Tables, x: Exec, prior: seq<Step>, order: seq<Step>)
    requires Accepted(x.plan.steps) && ExecOk(t, x, None) && x.failed.None? && x.ready == []
    requires Stands(x, prior, order, [], false)
    ensures Stands(x.(ready := Ready(x.remaining, x.completed)), prior, order, [], false)
  {
    hide Follows, Ids, Accepted, ExecOk, Ready;
    var later :| order == prior + later + [] && Follows(x, Ids(prior), later, []);
    FollowsNextWave(t, x, Ids(prior), later);
  }

  lemma StandsClosing(t: Tables, x: Exec, prior: seq<Step>, order: seq<Step>)
    requires Accepted(x.plan.steps) && ExecOk(t, x, None) && x.failed.None? && x.ready == [] && x.remaining == []
    requires Stands(x, prior, order, [], false)
    ensures RanByDepth(x.plan, prior, order, true)
  {
    hide Follows, Ids, Accepted, ExecOk, FollowsDepth, StripAll, Flatten, Pick;
    ExecShape(t, x);
    var later :| order == prior + later + [] && Follows(x, Ids(prior), later, []);
    var waves := FollowsPrefix(x, Ids(prior), later, []);
    assert later + [] == later;
    assert RanSince(x.plan, prior, order, later, waves, true);
  }

  lemma FollowScheduling(cfg: Config, w: World, plan: Plan, prior: seq<Step>)
    requires Inv(cfg, w) && FollowInv(w, plan, prior) && w.op.Scheduling?
    ensures FollowInv(AtScheduling(w), plan, prior)
  {
    hide Inv, ExecOk, Stands, Accepted, RanByDepth, InvokedSteps, Ready;
    var x := w.op.x;
    SchedulingLocals(cfg, w);
    if x.failed.None? && x.plan == plan {
      var order := InvokedSteps(plan, w.invoked);
      if x.ready != [] {
        StandsTake(x, prior, order);
      } else if x.remaining != [] {
        StandsNextWave(w.db.tables, x, prior, order);
      } else {
        StandsClosing(w.db.tables, x, prior, order);
      }
    }
  }

  lemma FollowReserving(cfg: Config, w: World, plan: Plan, prior: seq<Step>)
    requires Inv(cfg, w) && FollowInv(w, plan, prior) && w.op.Reserving?
    ensures FollowInv(AtReserving(w), plan, prior)
  {
    hide Inv, TablesOk, Stands, InvokedSteps, ReserveStep;
    ReserveIsNew(cfg, w);
  }

  lemma FollowInvoking(cfg: Config, w: World, input: Input, plan: Plan, prior: seq<Step>)
    requires Inv(cfg, w) && FollowInv(w, plan, prior) && (w.op.Invoking? || w.op.Running?)
    ensures w.op.Invoking? ==> FollowInv(AtInvoking(w, input), plan, prior)
    ensures w.op.Running? ==> FollowInv(AtRunning(w, input), plan, prior)
  {
    hide Inv, PlansOk, RowsOk, Accepted, UniqueIds, Follows, InvokedSteps, KeyOf;
    StepAtHand(cfg, w);
    InvokedSnoc(w.op.x.plan, w.invoked, w.op.x.plan, w.op.step);
  }

  lemma StandsAbsorb(x: Exec, prior: seq<Step>, order: seq<Step>, s: Step)
    requires Accepted(x.plan.steps) && Stands(x, prior, order, [s], true) && s.id !in x.completed
    ensures Stands(Absorb(x, s.id, false), prior, order, [], false) && RanByDepth(x.plan, prior, order, false)
  {
    hide Ids, Accepted, InDepthOrder, FollowsDepth, Absorb, Residual, StripAll;
    var later :| order == prior + later + [s] && Follows(x, Ids(prior), later, [s]);
    FollowsAbsorb(x, Ids(prior), later, s);
    assert order == prior + (later + [s]) + [];
    var waves := FollowsPrefix(x, Ids(prior), later, [s]);
    assert order == prior + (later + [s]);
    assert RanSince(x.plan, prior, order, later + [s], waves, false);
  }

  lemma StepNotCompleted(cfg: Config, w: World)
    requires Inv(cfg, w) && w.op.Recording?
    ensures w.op.step.id !in w.op.x.completed
  {
    hide DbInv, HistoryOk, OnLatest;
    NotCompleted(w.db.tables, w.op.x, w.op.step);
  }

  lemma FollowRecording(cfg: Config, w: World, plan: Plan, prior: seq<Step>)
    requires Inv(cfg, w) && FollowInv(w, plan, prior) && w.op.Recording?
    ensures FollowInv(AtRecording(w), plan, prior)
  {
    hide Inv, PlansOk, RowsOk, Accepted, UniqueIds, Stands, RanByDepth, InvokedSteps, RecordResult, Absorb;
    StepAtHand(cfg, w);
    StepNotCompleted(cfg, w);
    var x, s := w.op.x, w.op.step;
    RecordKeepsPlans(w.db, x.plan.version, s, w.op.checkFailed);
    AbsorbOutcome(x, s.id, w.op.checkFailed);
    if x.plan == plan {
      StandsAbsorb(x, prior, InvokedSteps(plan, w.invoked), s);
    }
  }

  lemma RecordKeepsPlans(db: Database, version: nat, s: Step, checkFailed: bool)
    ensures var txn := RecordResult(db, version, s, checkFailed); txn.Commit? ==> txn.db.tables.plans == db.tables.plans
    ensures RecordFailure(db, version, s).tables.plans == db.tables.plans
  {
  }

  lemma AbsorbOutcome(x: Exec, id: string, checkFailed: bool)
    ensures Absorb(x, id, checkFailed).plan == x.plan
    ensures checkFailed ==> Absorb(x, id, checkFailed).failed.Some?
  {
  }

  lemma FollowFailed(w: World, plan: Plan, prior: seq<Step>)
    requires FollowInv(w, plan, prior) && w.op.FailRecording?
    ensures FollowInv(AtFailRecording(w), plan, prior)
  {
    hide RecordFailure, InvokedSteps;
    RecordKeepsPlans(w.db, w.op.x.plan.version, w.op.step, false);
  }

  lemma FollowStep(cfg: Config, w: World, input: Input, plan: Plan, prior: seq<Step>)
    requires Inv(cfg, w) && FollowInv(w, plan, prior) && AtStep(w.op)
    ensures FollowInv(Advance(cfg, w, input), plan, prior)
  {
    hide Inv, FollowInv, AtReserving, AtInvoking, AtRunning, AtRecording, AtFailRecording;
    match w.op
    case Reserving(_, _) => FollowReserving(cfg, w, plan, prior);
    case FailRecording(_, _, _) => FollowFailed(w, plan, prior);
    case Recording(_, _, _) => FollowRecording(cfg, w, plan, prior);
    case _ => FollowInvoking(cfg, w, input, plan, prior);
  }

  /** A stored plan becomes the latest one; if it is the one followed, nothing of it has been invoked. */
  lemma NewestPlan(cfg: Config, w: World, stored: Plan, plan: Plan, prior: seq<Step>)
    requires Inv(cfg, w) && (prior != [] ==> plan.version in w.db.tables.plans)
    requires stored.version !in w.db.tables.plans && forall v :: v in w.db.tables.plans ==> v < stored.version
    ensures var t := InsertPlan(w.db.tables, stored);
            && t.plans != map[] && LatestPlan(t) == stored
            && (plan.version in w.db.tables.plans ==> plan.version in t.plans)
            && (stored == plan ==> InvokedSteps(plan, w.invoked) == prior)
  {
    hide Inv, InvokedSteps;
    InsertedIsLatest(w.db.tables, stored);
    NewVersionUntouched(cfg, w, stored);
  }

  lemma FollowAnalyzing(cfg: Config, w: World, input: Input, plan: Plan, prior: seq<Step>)
    requires Inv(cfg, w) && FollowInv(w, plan, prior) && w.op.Analyzing? && input.Planned?
    ensures FollowInv(AtAnalyzing(cfg, w, input), plan, prior)
  {
    hide TablesOk, HistoryOk, BudgetOk, InvokedSteps, LatestVersion, InsertPlan, WellFormed, Exceeds;
    if w.db.row.state == ANALYZING {
      NewestPlan(cfg, w, input.plan, plan, prior);
    }
  }

  lemma FollowReplanning(cfg: Config, w: World, input: Input, plan: Plan, prior: seq<Step>)
    requires Inv(cfg, w) && FollowInv(w, plan, prior) && w.op.Replanning? && input.Planned?
    ensures FollowInv(AtReplanning(cfg, w, input), plan, prior)
  {
    hide TablesOk, HistoryOk, BudgetOk, InvokedSteps, InsertPlan, WellFormed, Exceeds, CanInsert;
    LatestIsHighest(w.db.tables);
    hide LatestVersion;
    if w.db.row.state == REPLANNING {
      NewestPlan(cfg, w, input.plan.(version := w.op.version), plan, prior);
    }
  }

  lemma LatestIsHighest(t: Tables)
    ensures forall v :: v in t.plans ==> v <= LatestVersion(t)
  {
  }

  lemma FollowPlan(cfg: Config, w: World, input: Input, plan: Plan, prior: seq<Step>)
    requires Inv(cfg, w) && FollowInv(w, plan, prior) && (w.op.Analyzing? || w.op.Replanning?)
    ensures FollowInv(Advance(cfg, w, input), plan, prior)
  {
    hide Inv, AtAnalyzing, AtReplanning, FollowInv;
    if input.Planned? {
      if w.op.Analyzing? {
        FollowAnalyzing(cfg, w, input, plan, prior);
      } else {
        FollowReplanning(cfg, w, input, plan, prior);
      }
    }
  }

  /**
   The verdict, the revision limit and the lock of a new task never leave a task in EXECUTING: they end
   an iteration in another state, wait for the planner, or fail.
   */
  lemma DecisionEffect(cfg: Config, w: World, input: Input)
    requires Inv(cfg, w) && (w.op.Verifying? || w.op.ReplanStart? || w.op.RunLock?)
    ensures var w' := Advance(cfg, w, input);
            && w'.db.tables == w.db.tables && w'.invoked == w.invoked
            && (w' == w || w'.op.Replanning? || w'.op.Analyzing? || w'.op.Finishing?
                || (w'.op.Head? && w'.db.row.state != EXECUTING))
  {
    hide TablesOk, HistoryOk, BudgetOk, ExecOk, Clean, LatestVersion, Exceeds, Fits, OnLatest;
  }

  lemma FollowDecision(cfg: Config, w: World, input: Input, plan: Plan, prior: seq<Step>)
    requires Inv(cfg, w) && FollowInv(w, plan, prior) && (w.op.Verifying? || w.op.ReplanStart? || w.op.RunLock?)
    ensures FollowInv(Advance(cfg, w, input), plan, prior)
  {
    hide Inv, Advance, LatestVersion, InvokedSteps, RanByDepth;
    DecisionEffect(cfg, w, input);
  }

  lemma FollowHead(cfg: Config, w: World, plan: Plan, prior: seq<Step>)
    requires FollowInv(w, plan, prior) && w.op.Head?
    ensures FollowInv(AtHead(cfg, w), plan, prior)
  {
    hide InvokedSteps, LatestVersion;
  }

  lemma FollowLoading(w: World, plan: Plan, prior: seq<Step>)
    requires FollowInv(w, plan, prior) && w.op.Loading?
    ensures FollowInv(AtLoading(w), plan, prior)
  {
    hide InvokedSteps, LatestVersion;
  }

  lemma FollowClosing(w: World, plan: Plan, prior: seq<Step>)
    requires FollowInv(w, plan, prior) && w.op.Closing?
    ensures FollowInv(AtClosing(w), plan, prior)
  {
    hide InvokedSteps, RanByDepth;
  }

  lemma FollowElsewhere(cfg: Config, w: World, input: Input, plan: Plan, prior: seq<Step>)
    requires FollowInv(w, plan, prior)
    requires w.op.Idle? || w.op.Head? || w.op.RunStart? || w.op.Loading? || w.op.Closing? || w.op.Finishing?
    ensures FollowInv(Advance(cfg, w, input), plan, prior)
  {
    hide InvokedSteps, LatestVersion, RanByDepth, AtHead, AtLoading, AtClosing, FinishTask;
    FinishKeepsTables(w.db);
    match w.op
    case Head(_, _) => FollowHead(cfg, w, plan, prior);
    case Loading(_) => FollowLoading(w, plan, prior);
    case Closing(_) => FollowClosing(w, plan, prior);
    case _ =>
  }

  lemma FinishKeepsTables(db: Database)
    ensures forall target :: FinishTask(db, target).tables == db.tables
  {
  }

  lemma FollowAdvance(cfg: Config, w: World, input: Input, plan: Plan, prior: seq<Step>)
    requires Inv(cfg, w) && OrderInv(w) && FollowInv(w, plan, prior)
    ensures FollowInv(Advance(cfg, w, input), plan, prior)
  {
    hide Inv, OrderInv, FollowInv, AtProgressing, AtScheduling;
    if AtStep(w.op) {
      FollowStep(cfg, w, input, plan, prior);
    } else if w.op.Analyzing? || w.op.Replanning? {
      FollowPlan(cfg, w, input, plan, prior);
    } else if w.op.Progressing? {
      FollowProgressing(cfg, w, plan, prior);
    } else if w.op.Scheduling? {
      FollowScheduling(cfg, w, plan, prior);
    } else if w.op.Verifying? || w.op.ReplanStart? || w.op.RunLock? {
      FollowDecision(cfg, w, input, plan, prior);
    } else {
      FollowElsewhere(cfg, w, input, plan, prior);
    }
  }

  /** The only step that starts an execution of a stored plan anew is a recovery. */
  lemma FollowKeeps(cfg: Config, w: World, a: Action, plan: Plan, prior: seq<Step>)
    requires Inv(cfg, w) && OrderInv(w) && FollowInv(w, plan, prior)
    requires a.Recover? && w.op.Idle? ==> InvokedSteps(plan, w.invoked) == prior
    ensures FollowInv(Next(cfg, w, a), plan, prior)
  {
    hide Inv, OrderInv, FollowInv, Advance;
    if a.Go? {
      FollowAdvance(cfg, w, a.input, plan, prior);
    } else {
      hide Next;
      FollowOutside(cfg, w, a, plan, prior);
    }
  }

  lemma FollowOutside(cfg: Config, w: World, a: Action, plan: Plan, prior: seq<Step>)
    requires FollowInv(w, plan, prior) && !a.Go?
    requires a.Recover? && w.op.Idle? ==> InvokedSteps(plan, w.invoked) == prior
    ensures FollowInv(Next(cfg, w, a), plan, prior)
  {
    hide InvokedSteps, Stands, RanByDepth, LatestVersion, HasUncertainCall;
  }

  /** No recovery has started an execution of the plan since action k after one of its handlers had been invoked. */
  ghost predicate NotResumed(cfg: Config, actions: seq<Action>, k: nat, plan: Plan)
    requires k <= |actions|
  {
    forall i :: k <= i < |actions| && actions[i].Recover? && Run(cfg, actions[..i]).op.Idle? ==>
      InvokedSteps(plan, Run(cfg, actions[..i]).invoked) == InvokedSteps(plan, Run(cfg, actions[..k]).invoked)
  }

  lemma {:induction false} FollowReachable(cfg: Config, actions: seq<Action>, k: nat, plan: Plan)
    requires ValidLimits(cfg.limits) && k <= |actions| && NotResumed(cfg, actions, k, plan)
    requires Run(cfg, actions[..k]).op.Idle? || Run(cfg, actions[..k]).op.Head?
    ensures FollowInv(Run(cfg, actions), plan, InvokedSteps(plan, Run(cfg, actions[..k]).invoked))
    decreases |actions|
  {
    hide OrderInv, Inv, FollowInv, Next, Run, InvokedSteps;
    var prior := InvokedSteps(plan, Run(cfg, actions[..k]).invoked);
    if k == |actions| {
      assert actions[..k] == actions;
      Reachable(cfg, actions);
      FollowBegins(cfg, Run(cfg, actions), plan);
    } else {
      var last := |actions| - 1;
      var init := actions[..last];
      assert forall i :: k <= i <= last ==> init[..i] == actions[..i];
      assert init[..k] == actions[..k];
      FollowReachable(cfg, init, k, plan);
      Reachable(cfg, init);
      OrderReachable(cfg, init);
      FollowKeeps(cfg, Run(cfg, init), actions[last], plan, prior);
      assert init + [actions[last]] == actions;
      RunSnoc(cfg, init, actions[last]);
    }
  }

  lemma FollowBegins(cfg: Config, w: World, plan: Plan)
    requires Inv(cfg, w) && (w.op.Idle? || w.op.Head?)
    ensures FollowInv(w, plan, InvokedSteps(plan, w.invoked))
  {
    if plan.version !in w.db.tables.plans {
      NewVersionUntouched(cfg, w, plan);
    }
    hide Inv, InvokedSteps, LatestVersion;
  }

  /**
   Whenever an execution closes, what it has run since its last start is, in order, a prefix of the
   depth order of what had been left of the plan by then, and all of it if no step failed. The start
   is action k: the beginning of the run, or any later moment at which the operation was idle or at
   the head of its loop, provided no recovery has resumed the plan in between.
   */
  lemma RunsByDepthSince(cfg: Config, actions: seq<Action>, k: nat)
    requires ValidLimits(cfg.limits) && k <= |actions|
    requires Run(cfg, actions).op.Closing? || Run(cfg, actions).op.Verifying?
    requires Run(cfg, actions[..k]).op.Idle? || Run(cfg, actions[..k]).op.Head?
    requires NotResumed(cfg, actions, k, Run(cfg, actions).op.x.plan)
    ensures var w, plan := Run(cfg, actions), Run(cfg, actions).op.x.plan;
            RanByDepth(plan, InvokedSteps(plan, Run(cfg, actions[..k]).invoked), InvokedSteps(plan, w.invoked),
                       w.op.x.failed.None?)
  {
    hide Run, RanByDepth, InvokedSteps, NotResumed, Stands;
    FollowReachable(cfg, actions, k, Run(cfg, actions).op.x.plan);
  }

  lemma NothingPrior(plan: Plan, order: seq<Step>, complete: bool) returns (waves: seq<seq<Step>>)
    requires RanByDepth(plan, [], order, complete)
    ensures WavesByDepth(plan.steps, waves) && order <= Flatten(waves) && (complete ==> order == Flatten(waves))
  {
    hide WavesByDepth, Flatten, StripAll, Residual;
    IdsEmpty();
    var later, all :| RanSince(plan, [], order, later, all, complete);
    assert order == later;
    StripNothing(plan.steps);
    StripNothing(later);
    waves := all;
  }

  /**
   An execution of a plan version that was not resumed after its first handler has invoked the
   handlers wave by wave: the steps sorted by the longest dependency chain that ends at them, and by
   their place in the plan; up to the failed step if there is one.
   */
  lemma UndisturbedRunsByDepth(cfg: Config, actions: seq<Action>)
    requires ValidLimits(cfg.limits)
    requires Run(cfg, actions).op.Closing? || Run(cfg, actions).op.Verifying?
    requires forall i :: 0 <= i < |actions| && actions[i].Recover? && Run(cfg, actions[..i]).op.Idle? ==>
               InvokedSteps(Run(cfg, actions).op.x.plan, Run(cfg, actions[..i]).invoked) == []
    ensures var x, order :=
              Run(cfg, actions).op.x, InvokedSteps(Run(cfg, actions).op.x.plan, Run(cfg, actions).invoked);
            exists waves :: && WavesByDepth(x.plan.steps, waves) && order <= Flatten(waves)
                            && (x.failed.None? ==> order == Flatten(waves))
  {
    var w := Run(cfg, actions);
    assert actions[..0] == [] && Run(cfg, []) == INIT && InvokedSteps(w.op.x.plan, []) == [];
    hide Run, RanByDepth, InvokedSteps, WavesByDepth, Flatten;
    RunsByDepthSince(cfg, actions, 0);
    var waves := NothingPrior(w.op.x.plan, InvokedSteps(w.op.x.plan, w.invoked), w.op.x.failed.None?);
  }
}
