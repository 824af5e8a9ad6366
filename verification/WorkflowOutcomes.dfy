/**
 What every run of the workflow makes of what comes from outside: the outcome of a handler, the answer
 of the planner, the verdict of the verifier, a failure. The conclusions name the rows they are about
 and none of the functions that compute them.
 */
module WorkflowOutcomes {
  import opened Contracts
  import opened PlanGraph
  import opened WaveScheduler
  import opened TaskStates
  import opened Tables
  import opened Transactions
  import opened Workflow
  import opened WorkflowInvariant
  import opened WorkflowSteps
  import opened WorkflowTheorems
  import opened WorkflowCrowd
  import opened WorkflowOrder

  lemma RunTwice(cfg: Config, actions: seq<Action>, a: Action, b: Action)
    ensures Run(cfg, actions + [a, b]) == Next(cfg, Next(cfg, Run(cfg, actions), a), b)
  {
    hide Run, Next;
    assert actions + [a] + [b] == actions + [a, b];
    RunSnoc(cfg, actions, a);
    RunSnoc(cfg, actions + [a], b);
  }

  // ----- A handler returns -----

  /** The call, the step record and the status of both; everything else in the tables is as it was. */
  predicate Recorded(t: Tables, t': Tables, plan: Plan, s: Step, step: StepStatus, call: CallStatus) {
    var record := StepKey(plan.planId, s.id);
    && t'.plans == t.plans && t'.steps == t.steps[record := step]
    && t'.calls == t.calls[CallKey(plan.version, s.id, s.tool, s.arguments) := CallRow(record, call)]
  }

  lemma ReturnedWorld(cfg: Config, w: World, checkFailed: bool)
    requires Inv(cfg, w) && w.op.Running?
    ensures var x, s := w.op.x, w.op.step;
            Next(cfg, Next(cfg, w, Go(Returned(checkFailed))), Go(Tick))
              == World(w.db.(tables := FinishCall(w.db.tables, x.plan, s, checkFailed)),
                       Scheduling(Absorb(x, s.id, checkFailed)), w.invoked)
  {
    hide DbInv, HistoryOk, Executes, RecordFailure, RecordResult, FinishCall, FailCall, Absorb;
    InFlightWrites(cfg, w.db, w.op.x, w.op.step, checkFailed);
  }

  lemma StepWasOpen(cfg: Config, w: World)
    requires Inv(cfg, w) && w.op.Running?
    ensures w.op.step.id !in w.op.x.completed && w.op.x.failed.None?
  {
    hide DbInv, HistoryOk, OnLatest, ExecOk;
    NotCompleted(w.db.tables, w.op.x, w.op.step);
  }

  lemma Absorbed(x: Exec, id: string, checkFailed: bool)
    requires id !in x.completed && x.failed.None?
    ensures var x' := Absorb(x, id, checkFailed);
            && x' == x.(completed := x'.completed, remaining := x'.remaining, ready := x'.ready, failed := x'.failed,
                        evidence := x.evidence + [id])
            && (x'.failed == Some(id) <==> checkFailed) && (x'.failed.None? <==> !checkFailed)
            && (id in x'.completed <==> !checkFailed) && x'.completed - {id} == x.completed
            && (forall r :: r in x'.remaining <==> r in x.remaining && r.id != id)
            && x'.ready == if checkFailed then [] else x.ready
  {
    hide Pick;
  }

  /**
   The outcome of a check is what is recorded. From every moment at which a handler runs: after it
   returned and one more step of the operation, its step and its call are both failed if the check
   failed and both succeeded otherwise, exactly one evidence record was added, and it is of this step;
   the operation goes on with the next step, or with none if the check failed.
   */
  lemma HandlerReturns(cfg: Config, actions: seq<Action>, checkFailed: bool)
    requires ValidLimits(cfg.limits) && Run(cfg, actions).op.Running?
    ensures var w, w' := Run(cfg, actions), Run(cfg, actions + [Go(Returned(checkFailed)), Go(Tick)]);
            var x, s, t' := w.op.x, w.op.step, w'.db.tables;
            && w'.db == w.db.(tables := t') && w'.invoked == w.invoked
            && Recorded(w.db.tables, t', x.plan, s, if checkFailed then StepFailed else StepSucceeded,
                 if checkFailed then CallFailed else CallSucceeded)
            && t'.evidence == w.db.tables.evidence + [StepKey(x.plan.planId, s.id)]
            && w'.op.Scheduling?
            && w'.op.x == x.(completed := w'.op.x.completed, remaining := w'.op.x.remaining,
                             ready := w'.op.x.ready, failed := w'.op.x.failed, evidence := x.evidence + [s.id])
            && (w'.op.x.failed == Some(s.id) <==> checkFailed) && (w'.op.x.failed.None? <==> !checkFailed)
            && (s.id in w'.op.x.completed <==> !checkFailed) && w'.op.x.completed - {s.id} == x.completed
            && (forall r :: r in w'.op.x.remaining <==> r in x.remaining && r.id != s.id)
            && w'.op.x.ready == if checkFailed then [] else x.ready
  {
    hide Run, Inv, Next, Absorb;
    Reachable(cfg, actions);
    RunTwice(cfg, actions, Go(Returned(checkFailed)), Go(Tick));
    var w := Run(cfg, actions);
    ReturnedWorld(cfg, w, checkFailed);
    StepWasOpen(cfg, w);
    Absorbed(w.op.x, w.op.step.id, checkFailed);
  }

  // ----- A handler raises, an operation fails -----

  /**
   How a failure ends: as FAILED, NEEDS_REVIEW or CANCELLED, with one more event. A row that has
   ended stays as it is, and so does a row that must not move to NEEDS_REVIEW.
   */
  predicate EndsAs(db: Database, db': Database, target: TaskState) {
    var end := if target == NEEDS_REVIEW then NEEDS_REVIEW else if target == CANCELLED then CANCELLED else FAILED;
    if db.row.state in {SUCCEEDED, FAILED, CANCELLED, REJECTED, BUDGET_EXCEEDED}
       || (end == NEEDS_REVIEW && db.row.state in {PENDING, NEEDS_REVIEW})
    then db' == db
    else db' == db.(row := Row(end, db.row.version + 1, db.row.cancelRequested),
                    events := db.events + [Event(db.row.state, end)])
  }

  lemma FinishedRow(limits: Limits, db: Database, target: TaskState)
    requires DbInv(limits, db)
    ensures EndsAs(db, FinishTask(db, FailureTarget(target)), target)
  {
    hide TablesOk, BudgetOk, StageOk;
  }

  lemma Durable(cfg: Config, w: World)
    requires Inv(cfg, w)
    ensures DbInv(cfg.limits, w.db)
    ensures w.op.Finishing? ==> FailureTarget(w.op.target) == w.op.target
  {
    hide DbInv, HistoryOk, Executes, StepInFlight, Clean, OnLatest, At;
  }

  lemma RaisedWorld(cfg: Config, w: World, target: TaskState)
    requires Inv(cfg, w) && (w.op.Invoking? || w.op.Running?)
    ensures var x, s := w.op.x, w.op.step;
            Next(cfg, Next(cfg, w, Go(Raised(target))), Go(Tick))
              == World(w.db.(tables := FailCall(w.db.tables, x.plan, s)),
                       Finishing(FailureTarget(target), External), w.invoked)
  {
    hide DbInv, HistoryOk, Executes, RecordFailure, RecordResult, FinishCall, FailCall, FailureTarget;
    InFlightWrites(cfg, w.db, w.op.x, w.op.step, false);
  }

  lemma FinishingWorld(cfg: Config, w: World)
    requires w.op.Finishing?
    ensures Next(cfg, w, Go(Tick)) == World(FinishTask(w.db, w.op.target), Idle, w.invoked)
  {
    hide FinishTask;
  }

  /**
   A handler that raises, or whose input is refused: its call and its step are failed without any
   evidence, and the task ends as the failure says, unless it has ended before.
   */
  lemma HandlerRaises(cfg: Config, actions: seq<Action>, target: TaskState)
    requires ValidLimits(cfg.limits) && (Run(cfg, actions).op.Invoking? || Run(cfg, actions).op.Running?)
    ensures var w := Run(cfg, actions);
            var recorded := Run(cfg, actions + [Go(Raised(target)), Go(Tick)]);
            var ended := Run(cfg, actions + [Go(Raised(target)), Go(Tick)] + [Go(Tick)]);
            && recorded.db == w.db.(tables := recorded.db.tables)
            && Recorded(w.db.tables, recorded.db.tables, w.op.x.plan, w.op.step, StepFailed, CallFailed)
            && recorded.db.tables.evidence == w.db.tables.evidence
            && EndsAs(recorded.db, ended.db, target) && ended.op == Idle && ended.invoked == w.invoked
  {
    hide Run, Inv, Next, EndsAs, FinishTask, FailureTarget;
    Reachable(cfg, actions);
    RunTwice(cfg, actions, Go(Raised(target)), Go(Tick));
    var w, before := Run(cfg, actions), actions + [Go(Raised(target)), Go(Tick)];
    RaisedWorld(cfg, w, target);
    RunSnoc(cfg, before, Go(Tick));
    Reachable(cfg, before);
    FinishingWorld(cfg, Run(cfg, before));
    Durable(cfg, Run(cfg, before));
    FinishedRow(cfg.limits, Run(cfg, before).db, target);
  }

  lemma InterruptedWorld(cfg: Config, w: World, target: TaskState)
    requires !w.op.Idle? && !w.op.Finishing?
    ensures Next(cfg, Next(cfg, w, Interrupt(target)), Go(Tick))
         == World(FinishTask(w.db, FailureTarget(target)), Idle, w.invoked)
  {
    hide FinishTask, FailureTarget;
  }

  /** Any other failure of an operation, wherever it is, ends the task in the same way and changes no other row. */
  lemma OperationFails(cfg: Config, actions: seq<Action>, target: TaskState)
    requires ValidLimits(cfg.limits) && !Run(cfg, actions).op.Idle? && !Run(cfg, actions).op.Finishing?
    ensures var w, w' := Run(cfg, actions), Run(cfg, actions + [Interrupt(target), Go(Tick)]);
            EndsAs(w.db, w'.db, target) && w'.op == Idle && w'.invoked == w.invoked
  {
    hide Run, Inv, Next, EndsAs, FinishTask, FailureTarget;
    Reachable(cfg, actions);
    RunTwice(cfg, actions, Interrupt(target), Go(Tick));
    InterruptedWorld(cfg, Run(cfg, actions), target);
    Durable(cfg, Run(cfg, actions));
    FinishedRow(cfg.limits, Run(cfg, actions).db, target);
  }

  /** A cancellation sets the flag and ends a live task as CANCELLED; the operation itself goes on. */
  lemma CancelOutcome(cfg: Config, actions: seq<Action>)
    requires ValidLimits(cfg.limits)
    ensures var w, w' := Run(cfg, actions), Run(cfg, actions + [Cancel]);
            var row, ended := w.db.row, {SUCCEEDED, FAILED, CANCELLED, REJECTED, BUDGET_EXCEEDED};
            && w' == w.(db := w'.db)
            && w'.db == if row.state in ended then w.db.(row := Row(row.state, row.version, true))
                        else w.db.(row := Row(CANCELLED, row.version + 1, true),
                                   events := w.db.events + [Event(row.state, CANCELLED)])
  {
    hide Run, TablesOk, BudgetOk, StageOk, HistoryOk, OpInv;
    Reachable(cfg, actions);
    RunSnoc(cfg, actions, Cancel);
  }

  /** A crash loses the operation and nothing else; so does an interruption while it records its own failure. */
  lemma OperationLost(cfg: Config, actions: seq<Action>, target: TaskState)
    ensures var w := Run(cfg, actions);
            && Run(cfg, actions + [Crash]) == w.(op := Idle)
            && (w.op.Finishing? ==> Run(cfg, actions + [Interrupt(target)]) == w.(op := Idle))
  {
    RunSnoc(cfg, actions, Crash);
    RunSnoc(cfg, actions, Interrupt(target));
    hide Run;
  }

  lemma RecoveredWorld(cfg: Config, w: World)
    requires Inv(cfg, w) && w.op.Idle? && !Terminal(w.db.row.state)
    ensures var w', row := Next(cfg, w, Recover), w.db.row;
            if row.state == PENDING || (row.state == EXECUTING && !HasUncertainCall(w.db.tables)) then
              w' == w.(op := Head(0, None))
            else if row.state == NEEDS_REVIEW then w' == w
            else w' == w.(db := w.db.(row := Row(NEEDS_REVIEW, row.version + 1, row.cancelRequested),
                                      events := w.db.events + [Event(row.state, NEEDS_REVIEW)]))
  {
    hide TablesOk, BudgetOk, HistoryOk, StageOk, OpInv, HasUncertainCall;
  }

  /**
   What a restart makes of a live task: one that was not started, or that executes without any call that
   is started or failed, is scheduled; one in review stays there; any other goes to review with one event.
   */
  lemma RecoverOutcome(cfg: Config, actions: seq<Action>)
    requires ValidLimits(cfg.limits) && Run(cfg, actions).op.Idle? && !Terminal(Run(cfg, actions).db.row.state)
    ensures var w, w' := Run(cfg, actions), Run(cfg, actions + [Recover]);
            var row, calls := w.db.row, w.db.tables.calls;
            if row.state == PENDING
               || (row.state == EXECUTING && forall k :: k in calls ==> calls[k].status == CallSucceeded)
            then w' == w.(op := Head(0, None))
            else if row.state == NEEDS_REVIEW then w' == w
            else w' == w.(db := w.db.(row := Row(NEEDS_REVIEW, row.version + 1, row.cancelRequested),
                                      events := w.db.events + [Event(row.state, NEEDS_REVIEW)]))
  {
    hide Run, Inv, Next;
    Reachable(cfg, actions);
    RunSnoc(cfg, actions, Recover);
    RecoveredWorld(cfg, Run(cfg, actions));
  }

  // ----- An execution starts -----

  /**
   In any world, also one that several operations share: an execution does not start with a step that is
   running or failed; otherwise exactly the succeeded steps count as completed.
   */
  lemma ProgressOutcome(cfg: Config, w: World)
    requires w.op.Progressing?
    ensures var w', plan, steps := Next(cfg, w, Go(Tick)), w.op.plan, w.db.tables.steps;
            && w' == w.(op := w'.op)
            && if exists s :: s in plan.steps && StepKey(plan.planId, s.id) in steps
                      && steps[StepKey(plan.planId, s.id)] in {StepRunning, StepFailed}
               then w'.op == Finishing(FAILED, UncertainSteps)
               else
                 && w'.op.Scheduling? && w'.op.x.plan == plan && w'.op.x.iter == w.op.iter
                 && w'.op.x.ready == [] && w'.op.x.failed.None?
                 && w'.op.x.completed
                      == (set s | s in plan.steps && StepKey(plan.planId, s.id) in steps
                                  && steps[StepKey(plan.planId, s.id)] == StepSucceeded :: s.id)
                 && forall s :: s in w'.op.x.remaining <==> s in plan.steps && s.id !in w'.op.x.completed
  {
    hide EvidenceOf, Pick;
    assert forall s :: s in w.op.plan.steps ==> s.id in Ids(w.op.plan.steps);
  }

  /**
   In any world: a call that has succeeded is not made again and its step counts as completed; one that is
   started or failed ends the operation; otherwise call and step are inserted as started and running.
   */
  lemma ReservationOutcome(cfg: Config, w: World)
    requires w.op.Reserving?
    ensures var w', x, s, t := Next(cfg, w, Go(Tick)), w.op.x, w.op.step, w.db.tables;
            var key := CallKey(x.plan.version, s.id, s.tool, s.arguments);
            && w'.invoked == w.invoked
            && if key in t.calls then
                 && w'.db == w.db
                 && if t.calls[key].status == CallSucceeded then
                      && w'.op.Scheduling? && w'.op.x.completed == x.completed + {s.id} && w'.op.x.failed == x.failed
                      && w'.op.x.ready == x.ready && w'.op.x.evidence == x.evidence + [s.id]
                      && forall r :: r in w'.op.x.remaining <==> r in x.remaining && r.id != s.id
                    else w'.op == Finishing(FAILED, UncertainCall)
               else if x.plan.version !in t.plans
                       || StepKey(t.plans[x.plan.version].planId, s.id) !in t.steps
               then w' == w.(op := Finishing(FAILED, MissingRecord))
               else
                 var record := StepKey(t.plans[x.plan.version].planId, s.id);
                 && w'.op == Invoking(x, s)
                 && w'.db == w.db.(tables := t.(calls := t.calls[key := CallRow(record, CallStarted)],
                                                steps := t.steps[record := StepRunning]))
  {
    hide Pick;
  }

  lemma LoadedWorld(cfg: Config, w: World)
    requires Inv(cfg, w) && w.op.Loading?
    ensures w.db.tables.plans != map[]
    ensures Next(cfg, w, Go(Tick))
         == w.(op := if w.db.row.state == EXECUTING then Progressing(w.op.iter, LatestPlan(w.db.tables))
                     else Finishing(FAILED, NotExecutable))
  {
    hide TablesOk, BudgetOk, HistoryOk, StageOk, Clean, LatestVersion;
  }

  /** An execution loads the plan with the highest version, and only while the task is executing. */
  lemma LoadingOutcome(cfg: Config, actions: seq<Action>)
    requires ValidLimits(cfg.limits) && Run(cfg, actions).op.Loading?
    ensures var w, w' := Run(cfg, actions), Run(cfg, actions + [Go(Tick)]);
            exists latest :: && latest in w.db.tables.plans && (forall v :: v in w.db.tables.plans ==> v <= latest)
              && w' == w.(op := if w.db.row.state == EXECUTING then Progressing(w.op.iter, w.db.tables.plans[latest])
                                else Finishing(FAILED, NotExecutable))
  {
    hide Run, Inv, Next;
    Reachable(cfg, actions);
    RunSnoc(cfg, actions, Go(Tick));
    LoadedWorld(cfg, Run(cfg, actions));
    var latest := LatestVersion(Run(cfg, actions).db.tables);
    assert latest in Run(cfg, actions).db.tables.plans;
  }

  // ----- The planner answers -----

  /** What the contract model demands of a plan. */
  ghost predicate Acceptable(plan: Plan) {
    1 <= plan.version && plan.steps != [] && Accepted(plan.steps)
  }

  /** The plan under its version, one pending record per step, and all older rows as they were. */
  ghost predicate PlanAdded(t: Tables, t': Tables, plan: Plan) {
    && t' == t.(plans := t.plans[plan.version := plan], steps := t'.steps)
    && forall k :: k in t'.steps || k in t.steps || (k.planId == plan.planId && k.stepId in Ids(plan.steps)) ==>
         if k.planId == plan.planId && k.stepId in Ids(plan.steps) then k in t'.steps && t'.steps[k] == StepPending
         else k in t.steps && k in t'.steps && t'.steps[k] == t.steps[k]
  }

  lemma InsertAdds(t: Tables, plan: Plan)
    ensures PlanAdded(t, InsertPlan(t, plan), plan)
  {
    var t' := InsertPlan(t, plan);
    forall k: StepKey ensures k in PendingRecords(plan) <==> k.planId == plan.planId && k.stepId in Ids(plan.steps) {
      if k.planId == plan.planId && k.stepId in Ids(plan.steps) {
        var s :| s in plan.steps && s.id == k.stepId;
        assert RecordOf(plan, s) == k;
      }
    }
    hide Ids;
  }

  lemma FirstPlanWorld(cfg: Config, w: World, plan: Plan, usages: seq<Usage>, validated: bool)
    requires Inv(cfg, w) && w.op.Analyzing? && w.db.row.state == ANALYZING
    ensures w.db.tables == NO_TABLES && w.db.usage == []
    ensures var w', row := Next(cfg, w, Go(Planned(plan, usages, validated))), w.db.row;
            && w'.invoked == w.invoked
            && if Acceptable(plan) && Exceeds(cfg.limits, usages) then
                 && w'.db == w.db.(row := Row(BUDGET_EXCEEDED, row.version + 1, row.cancelRequested), usage := usages,
                                   events := w.db.events + [Event(ANALYZING, BUDGET_EXCEEDED)])
                 && w'.op == Head(w.op.iter + 1, Some(PENDING))
               else if Acceptable(plan) && validated then
                 && w'.db == w.db.(row := Row(EXECUTING, row.version + 3, row.cancelRequested), usage := usages,
                      events := w.db.events + [Event(ANALYZING, PLANNING), Event(PLANNING, POLICY_CHECK),
                        Event(POLICY_CHECK, EXECUTING)],
                      tables := InsertPlan(NO_TABLES, plan))
                 && w'.op == Head(w.op.iter + 1, Some(PENDING))
               else w' == w.(op := Finishing(FAILED, External))
  {
    hide Accepted, TablesOk, Exceeds, HistoryOk, InsertPlan;
    assert w.db.usage + usages == usages;
  }

  /**
   The first plan. A plan that the contract model or the validation refuses is not stored, and the
   operation fails; if the recorded usage is over the budget that ends the task before validation;
   otherwise the plan and its pending steps are the only rows there are, and the task executes.
   */
  lemma FirstPlanOutcome(cfg: Config, actions: seq<Action>, plan: Plan, usages: seq<Usage>, validated: bool)
    requires ValidLimits(cfg.limits) && Run(cfg, actions).op.Analyzing? && Run(cfg, actions).db.row.state == ANALYZING
    ensures var w, w' := Run(cfg, actions), Run(cfg, actions + [Go(Planned(plan, usages, validated))]);
            var row, db' := w.db.row, w'.db;
            && w'.invoked == w.invoked
            && if Acceptable(plan) && OverBudget(cfg.limits, usages) then
                 && db' == w.db.(row := Row(BUDGET_EXCEEDED, row.version + 1, row.cancelRequested), usage := usages,
                                 events := w.db.events + [Event(ANALYZING, BUDGET_EXCEEDED)])
                 && w'.op == Head(w.op.iter + 1, Some(PENDING))
               else if Acceptable(plan) && validated then
                 && db' == w.db.(row := Row(EXECUTING, row.version + 3, row.cancelRequested), usage := usages,
                      events := w.db.events + [Event(ANALYZING, PLANNING), Event(PLANNING, POLICY_CHECK),
                        Event(POLICY_CHECK, EXECUTING)],
                      tables := db'.tables)
                 && w.db.tables == Tables(map[], map[], map[], []) && PlanAdded(w.db.tables, db'.tables, plan)
                 && w'.op == Head(w.op.iter + 1, Some(PENDING))
               else w' == w.(op := Finishing(FAILED, External))
  {
    hide Run, Inv, Next, Accepted, PlanAdded, InsertPlan, OverBudget, Exceeds;
    Reachable(cfg, actions);
    RunSnoc(cfg, actions, Go(Planned(plan, usages, validated)));
    FirstPlanWorld(cfg, Run(cfg, actions), plan, usages, validated);
    TotalsAreColumns(usages);
    InsertAdds(NO_TABLES, plan);
  }

  lemma ReplanWorld(cfg: Config, w: World, plan: Plan, usages: seq<Usage>, validated: bool)
    requires Inv(cfg, w) && w.op.Replanning? && w.db.row.state == REPLANNING
    ensures w.op.version !in w.db.tables.plans
    ensures var w', row := Next(cfg, w, Go(Planned(plan, usages, validated))), w.db.row;
            var spent := w.db.usage + usages;
            && w'.invoked == w.invoked
            && if !Acceptable(plan) || !validated then w' == w.(op := Finishing(FAILED, External))
               else if Exceeds(cfg.limits, spent) then
                 && w'.db == w.db.(row := Row(BUDGET_EXCEEDED, row.version + 1, row.cancelRequested), usage := spent,
                                   events := w.db.events + [Event(REPLANNING, BUDGET_EXCEEDED)])
                 && w'.op == Head(w.op.iter + 1, Some(REPLANNING))
               else if exists v :: v in w.db.tables.plans && w.db.tables.plans[v].planId == plan.planId then
                 w' == w.(op := Finishing(FAILED, External))
               else
                 && w'.db == w.db.(row := Row(EXECUTING, row.version + 2, row.cancelRequested), usage := spent,
                      events := w.db.events + [Event(REPLANNING, POLICY_CHECK), Event(POLICY_CHECK, EXECUTING)],
                      tables := InsertPlan(w.db.tables, plan.(version := w.op.version)))
                 && w'.op == Head(w.op.iter + 1, Some(REPLANNING))
  {
    hide Accepted, TablesOk, Exceeds, HistoryOk, InsertPlan, BudgetOk, StageOk;
    assert w.op.version == LatestVersion(w.db.tables) + 1;
    assert forall v :: v in w.db.tables.plans ==> v <= LatestVersion(w.db.tables);
    hide LatestVersion;
  }

  /**
   A revision. It is validated before anything is stored; the budget is tested on everything ever
   recorded; the plan is stored under the next version, whatever version the planner gave it, next to
   all older rows, unless its id is taken.
   */
  lemma ReplanOutcome(cfg: Config, actions: seq<Action>, plan: Plan, usages: seq<Usage>, validated: bool)
    requires ValidLimits(cfg.limits) && Run(cfg, actions).op.Replanning?
    requires Run(cfg, actions).db.row.state == REPLANNING
    ensures var w, w' := Run(cfg, actions), Run(cfg, actions + [Go(Planned(plan, usages, validated))]);
            var row, db', spent := w.db.row, w'.db, w.db.usage + usages;
            && w.op.version !in w.db.tables.plans && w'.invoked == w.invoked
            && if !Acceptable(plan) || !validated then w' == w.(op := Finishing(FAILED, External))
               else if OverBudget(cfg.limits, spent) then
                 && db' == w.db.(row := Row(BUDGET_EXCEEDED, row.version + 1, row.cancelRequested), usage := spent,
                                 events := w.db.events + [Event(REPLANNING, BUDGET_EXCEEDED)])
                 && w'.op == Head(w.op.iter + 1, Some(REPLANNING))
               else if exists v :: v in w.db.tables.plans && w.db.tables.plans[v].planId == plan.planId then
                 w' == w.(op := Finishing(FAILED, External))
               else
                 && db' == w.db.(row := Row(EXECUTING, row.version + 2, row.cancelRequested), usage := spent,
                      events := w.db.events + [Event(REPLANNING, POLICY_CHECK), Event(POLICY_CHECK, EXECUTING)],
                      tables := db'.tables)
                 && PlanAdded(w.db.tables, db'.tables, plan.(version := w.op.version))
                 && w'.op == Head(w.op.iter + 1, Some(REPLANNING))
  {
    hide Run, Inv, Next, Accepted, PlanAdded, InsertPlan, OverBudget, Exceeds;
    Reachable(cfg, actions);
    RunSnoc(cfg, actions, Go(Planned(plan, usages, validated)));
    var w := Run(cfg, actions);
    ReplanWorld(cfg, w, plan, usages, validated);
    TotalsAreColumns(w.db.usage + usages);
    InsertAdds(w.db.tables, plan.(version := w.op.version));
  }

  lemma ReplanStartWorld(cfg: Config, w: World)
    requires Inv(cfg, w) && w.op.ReplanStart? && w.db.row.state == REPLANNING
    ensures w.db.tables.plans != map[]
    ensures var w', row, version := Next(cfg, w, Go(Tick)), w.db.row, LatestVersion(w.db.tables);
            if version <= cfg.limits.maxRevisions then w' == w.(op := Replanning(w.op.iter, version + 1))
            else
              && w'.db == w.db.(row := Row(NEEDS_REVIEW, row.version + 1, row.cancelRequested),
                                events := w.db.events + [Event(REPLANNING, NEEDS_REVIEW)])
              && w'.op == Head(w.op.iter + 1, Some(REPLANNING)) && w'.invoked == w.invoked
  {
    hide RowsOk, Exceeds, HistoryOk, BudgetOk, Accepted;
    assert LatestVersion(w.db.tables) in w.db.tables.plans;
  }

  /** A revision starts as long as the latest version is at most the number of revisions allowed; then review. */
  lemma ReplanStarts(cfg: Config, actions: seq<Action>)
    requires ValidLimits(cfg.limits) && Run(cfg, actions).op.ReplanStart?
    requires Run(cfg, actions).db.row.state == REPLANNING
    ensures var w, w' := Run(cfg, actions), Run(cfg, actions + [Go(Tick)]);
            var row, plans := w.db.row, w.db.tables.plans;
            exists latest :: && latest in plans && (forall v :: v in plans ==> v <= latest)
              && if latest <= cfg.limits.maxRevisions then w' == w.(op := Replanning(w.op.iter, latest + 1))
                 else
                   && w'.db == w.db.(row := Row(NEEDS_REVIEW, row.version + 1, row.cancelRequested),
                                     events := w.db.events + [Event(REPLANNING, NEEDS_REVIEW)])
                   && w'.op == Head(w.op.iter + 1, Some(REPLANNING)) && w'.invoked == w.invoked
  {
    hide Run, Inv, Next;
    Reachable(cfg, actions);
    RunSnoc(cfg, actions, Go(Tick));
    ReplanStartWorld(cfg, Run(cfg, actions));
    var latest := LatestVersion(Run(cfg, actions).db.tables);
    assert latest in Run(cfg, actions).db.tables.plans;
  }

  // ----- The verifier judges -----

  lemma VerdictWorld(cfg: Config, w: World, verdict: Verdict, advised: bool, usages: seq<Usage>)
    requires Inv(cfg, w) && w.op.Verifying? && w.db.row.state == VERIFYING
    ensures var w', row, plan := Next(cfg, w, Go(Judged(verdict, advised, usages))), w.db.row, w.op.x.plan;
            var state, over := w'.db.row.state, Exceeds(cfg.limits, w.db.usage + usages);
            && w' == World(w'.db, Head(w.op.x.iter + 1, Some(EXECUTING)), w.invoked)
            && w'.db == w.db.(usage := w.db.usage + usages, reports := w.db.reports + {plan.planId},
                              row := Row(state, row.version + 1, row.cancelRequested),
                              events := w.db.events + [Event(VERIFYING, state)])
            && (state == BUDGET_EXCEEDED <==> over)
            && (state == SUCCEEDED <==> !over && verdict.Passed?)
            && (state == REPLANNING <==> !over && verdict.Failed? && advised)
            && (state == FAILED <==> !over && verdict.Failed? && !advised)
            && (state == NEEDS_REVIEW <==> !over && verdict.NeedsReview?)
  {
    hide TablesOk, Exceeds, HistoryOk, BudgetOk, StageOk, ExecOk, OnLatest;
  }

  /**
   The verdict decides. Over budget, the task ends as BUDGET_EXCEEDED whatever the verdict; otherwise
   a pass is SUCCEEDED, a failure is REPLANNING if a revision was advised and FAILED if not, and an
   undecided verdict is NEEDS_REVIEW. The usage and the report are recorded in each case.
   */
  lemma VerdictOutcome(cfg: Config, actions: seq<Action>, verdict: Verdict, advised: bool, usages: seq<Usage>)
    requires ValidLimits(cfg.limits) && Run(cfg, actions).op.Verifying? && Run(cfg, actions).db.row.state == VERIFYING
    ensures var w, w' := Run(cfg, actions), Run(cfg, actions + [Go(Judged(verdict, advised, usages))]);
            var row, plan, state := w.db.row, w.op.x.plan, w'.db.row.state;
            var spent := w.db.usage + usages;
            var over :=
              || TokenSum(spent, InputTokens) + TokenSum(spent, CacheCreationTokens) + TokenSum(spent, CacheReadTokens)
                   + TokenSum(spent, OutputTokens) > cfg.limits.maxTokens
              || CostSum(spent) > cfg.limits.maxCost;
            && w' == World(w'.db, Head(w.op.x.iter + 1, Some(EXECUTING)), w.invoked)
            && w'.db == w.db.(usage := spent, reports := w.db.reports + {plan.planId},
                              row := Row(state, row.version + 1, row.cancelRequested),
                              events := w.db.events + [Event(VERIFYING, state)])
            && (state == BUDGET_EXCEEDED <==> over)
            && (state == SUCCEEDED <==> !over && verdict.Passed?)
            && (state == REPLANNING <==> !over && verdict.Failed? && advised)
            && (state == FAILED <==> !over && verdict.Failed? && !advised)
            && (state == NEEDS_REVIEW <==> !over && verdict.NeedsReview?)
  {
    hide Run, Inv, Next, TokenSum, CostSum, TotalTokens, TotalCost;
    Reachable(cfg, actions);
    RunSnoc(cfg, actions, Go(Judged(verdict, advised, usages)));
    var w := Run(cfg, actions);
    VerdictWorld(cfg, w, verdict, advised, usages);
    TotalsAreColumns(w.db.usage + usages);
  }

  // ----- Where the rows of a run come from -----

  /** Some action of the run was the handler of this step returning or raising in this way. */
  ghost predicate Told(cfg: Config, actions: seq<Action>, plan: Plan, s: Step, input: Input) {
    exists i :: 0 <= i < |actions| && actions[i] == Go(input) && StepAt(Run(cfg, actions[..i]).op, plan, s, input)
  }

  /** The operation runs the step; only a refusal of its input can come before the handler runs. */
  predicate StepAt(op: Operation, plan: Plan, s: Step, input: Input) {
    (op.Running? || (op.Invoking? && input.Raised?)) && op.x.plan == plan && op.step == s
  }

  /** A success was told by a handler that returned without a failed check, a failure by one that did not. */
  ghost predicate OutcomeTold(cfg: Config, actions: seq<Action>, plan: Plan, s: Step, status: StepStatus) {
    if status == StepSucceeded then Told(cfg, actions, plan, s, Returned(false))
    else Told(cfg, actions, plan, s, Returned(true)) || exists target :: Told(cfg, actions, plan, s, Raised(target))
  }

  lemma ToldBefore(cfg: Config, init: seq<Action>, a: Action, plan: Plan, s: Step)
    ensures forall input :: Told(cfg, init, plan, s, input) ==> Told(cfg, init + [a], plan, s, input)
    ensures a.Go? && StepAt(Run(cfg, init).op, plan, s, a.input) ==> Told(cfg, init + [a], plan, s, a.input)
  {
    hide Run, StepAt;
    var all := init + [a];
    assert all[..|init|] == init && all[|init|] == a;
    assert forall i :: 0 <= i < |init| ==> all[..i] == init[..i] && all[i] == init[i];
    forall input | Told(cfg, init, plan, s, input) ensures Told(cfg, all, plan, s, input) {
      var i :| 0 <= i < |init| && init[i] == Go(input) && StepAt(Run(cfg, init[..i]).op, plan, s, input);
      assert all[i] == Go(input) && StepAt(Run(cfg, all[..i]).op, plan, s, input);
    }
  }

  /** What an operation that is about to record an outcome was told in its last step. */
  lemma RecordingTold(cfg: Config, w: World, a: Action)
    ensures var op' := Next(cfg, w, a).op;
            (op'.Recording? || op'.FailRecording?) && op' != w.op ==>
              && a.Go? && StepAt(w.op, op'.x.plan, op'.step, a.input)
              && if op'.Recording? then a.input == Returned(op'.checkFailed) else a.input.Raised?
  {
    hide LatestVersion, Uncertain, LoadProgress, Ready, Absorb, Exceeds, HasUncertainCall, InsertPlan, CanInsert,
        WellFormed;
  }

  ghost predicate AllTold(cfg: Config, actions: seq<Action>) {
    var t, op := Run(cfg, actions).db.tables, Run(cfg, actions).op;
    && (forall v, s, status | v in t.plans && s in t.plans[v].steps && status in {StepSucceeded, StepFailed} ::
          StatusIs(t, t.plans[v], s.id, status) ==> OutcomeTold(cfg, actions, t.plans[v], s, status))
    && (op.Recording? || op.FailRecording? ==>
          var status := if op.Recording? && !op.checkFailed then StepSucceeded else StepFailed;
          OutcomeTold(cfg, actions, op.x.plan, op.step, status))
  }

  lemma OutcomeStays(cfg: Config, init: seq<Action>, a: Action, plan: Plan, s: Step, status: StepStatus)
    requires OutcomeTold(cfg, init, plan, s, status)
    ensures OutcomeTold(cfg, init + [a], plan, s, status)
  {
    hide Told;
    ToldBefore(cfg, init, a, plan, s);
  }

  lemma OperationTold(cfg: Config, init: seq<Action>, a: Action)
    requires AllTold(cfg, init)
    ensures var op' := Next(cfg, Run(cfg, init), a).op;
            (op'.Recording? || op'.FailRecording?) ==>
              var status := if op'.Recording? && !op'.checkFailed then StepSucceeded else StepFailed;
              OutcomeTold(cfg, init + [a], op'.x.plan, op'.step, status)
  {
    hide Run, Next, Told, StepAt;
    var w := Run(cfg, init);
    var op' := Next(cfg, w, a).op;
    RecordingTold(cfg, w, a);
    if op'.Recording? || op'.FailRecording? {
      var status := if op'.Recording? && !op'.checkFailed then StepSucceeded else StepFailed;
      if op' == w.op {
        OutcomeStays(cfg, init, a, op'.x.plan, op'.step, status);
      } else {
        ToldBefore(cfg, init, a, op'.x.plan, op'.step);
      }
    }
  }

  lemma TablesTold(cfg: Config, init: seq<Action>, a: Action, v: nat, s: Step, status: StepStatus)
    requires AllTold(cfg, init)
    requires OutcomeEffect(Run(cfg, init).db.tables, Next(cfg, Run(cfg, init), a).db.tables, Run(cfg, init).op)
    requires var t' := Next(cfg, Run(cfg, init), a).db.tables;
             v in t'.plans && s in t'.plans[v].steps && status in {StepSucceeded, StepFailed}
             && StatusIs(t', t'.plans[v], s.id, status)
    ensures OutcomeTold(cfg, init + [a], Next(cfg, Run(cfg, init), a).db.tables.plans[v], s, status)
  {
    hide Run, Next, OutcomeTold, StatusIs;
    OutcomeStays(cfg, init, a, Next(cfg, Run(cfg, init), a).db.tables.plans[v], s, status);
  }

  lemma {:induction false} AllIsTold(cfg: Config, actions: seq<Action>)
    requires ValidLimits(cfg.limits)
    ensures AllTold(cfg, actions)
  {
    if actions == [] {
      assert Run(cfg, actions) == INIT;
    } else {
      hide Run, Inv, Next, OutcomeEffect, OutcomeTold;
      var init, a := actions[..|actions| - 1], actions[|actions| - 1];
      assert init + [a] == actions;
      RunSnoc(cfg, init, a);
      AllIsTold(cfg, init);
      Reachable(cfg, init);
      OutcomeStep(cfg, Run(cfg, init), a);
      OperationTold(cfg, init, a);
      var t' := Run(cfg, actions).db.tables;
      forall v, s, status | v in t'.plans && s in t'.plans[v].steps && status in {StepSucceeded, StepFailed}
          && StatusIs(t', t'.plans[v], s.id, status)
        ensures OutcomeTold(cfg, actions, t'.plans[v], s, status)
      {
        TablesTold(cfg, init, a, v, s, status);
      }
    }
  }

  /**
   In every committed state a step is succeeded only if its handler returned without a failed check,
   and failed only if its handler returned with one or raised, while the operation ran this very step
   of this very plan.
   */
  lemma OutcomesWereTold(cfg: Config, actions: seq<Action>, v: nat, s: Step)
    requires ValidLimits(cfg.limits)
    requires v in Run(cfg, actions).db.tables.plans && s in Run(cfg, actions).db.tables.plans[v].steps
    ensures var t := Run(cfg, actions).db.tables;
            && (StatusIs(t, t.plans[v], s.id, StepSucceeded) ==>
                  exists i :: 0 <= i < |actions| && actions[i] == Go(Returned(false))
                    && StepAt(Run(cfg, actions[..i]).op, t.plans[v], s, actions[i].input))
            && (StatusIs(t, t.plans[v], s.id, StepFailed) ==>
                  exists i :: 0 <= i < |actions| && actions[i].Go?
                    && (actions[i].input == Returned(true) || actions[i].input.Raised?)
                    && StepAt(Run(cfg, actions[..i]).op, t.plans[v], s, actions[i].input))
  {
    hide Run, StepAt, StatusIs;
    AllIsTold(cfg, actions);
  }

  lemma PlansCome(cfg: Config, w: World, a: Action, v: nat)
    requires v in Next(cfg, w, a).db.tables.plans
    ensures var plans, plan := w.db.tables.plans, Next(cfg, w, a).db.tables.plans[v];
            || (v in plans && plan == plans[v])
            || (a.Go? && a.input.Planned? && a.input.validated && Acceptable(a.input.plan)
                && plan == a.input.plan.(version := v))
  {
    hide Next, Acceptable;
    if a.Go? && (w.op.Analyzing? || w.op.Replanning?) {
      StoredPlan(cfg, w, a.input);
    } else if a.Go? && WritesTables(w.op) {
      PlansKept(cfg, w, a.input);
    } else {
      TablesUntouched(cfg, w, a);
    }
  }

  lemma StoredPlan(cfg: Config, w: World, input: Input)
    requires w.op.Analyzing? || w.op.Replanning?
    ensures var plans, plans' := w.db.tables.plans, Next(cfg, w, Go(input)).db.tables.plans;
            || plans' == plans
            || (input.Planned? && input.validated && Acceptable(input.plan)
                && exists v :: plans' == plans[v := input.plan.(version := v)])
  {
    hide Exceeds, PendingRecords, CanInsert, Accepted;
    if input.Planned? {
      assert input.plan.(version := input.plan.version) == input.plan;
    }
  }

  lemma PlansKept(cfg: Config, w: World, input: Input)
    requires w.op.Reserving? || w.op.FailRecording? || w.op.Recording?
    ensures Next(cfg, w, Go(input)).db.tables.plans == w.db.tables.plans
  {
    hide Absorb, ReserveStep, RecordFailure, RecordResult;
    ReserveEffect(w.db, w.op.x.plan, w.op.step);
    RecordEffect(w.db, w.op.x.plan.version, w.op.step, w.op.Recording? && w.op.checkFailed);
  }

  /**
   No plan is stored that the contract model or the validation refused: each is an answer of the planner
   that both accepted, apart from the version that a revision gets.
   */
  lemma {:induction false} StoredPlansWereValidated(cfg: Config, actions: seq<Action>, v: nat)
    requires v in Run(cfg, actions).db.tables.plans
    ensures exists i :: 0 <= i < |actions| && actions[i].Go? && actions[i].input.Planned?
              && actions[i].input.validated && Acceptable(actions[i].input.plan)
              && actions[i].input.plan.(version := v) == Run(cfg, actions).db.tables.plans[v]
  {
    hide Next, Acceptable;
    if actions != [] {
      var init, a := actions[..|actions| - 1], actions[|actions| - 1];
      var plans := Run(cfg, init).db.tables.plans;
      PlansCome(cfg, Run(cfg, init), a, v);
      if v in plans && Run(cfg, actions).db.tables.plans[v] == plans[v] {
        StoredPlansWereValidated(cfg, init, v);
        var i :| 0 <= i < |init| && init[i].Go? && init[i].input.Planned? && init[i].input.validated
              && Acceptable(init[i].input.plan) && init[i].input.plan.(version := v) == plans[v];
        assert actions[i] == init[i];
      }
    }
  }

  lemma VerdictsCome(cfg: Config, w: World, a: Action)
    requires Inv(cfg, w)
    ensures var state := Next(cfg, w, a).db.row.state;
            state in {SUCCEEDED, REPLANNING} && state != w.db.row.state ==>
              && w.op.Verifying? && w.db.row.state == VERIFYING && a.Go? && a.input.Judged?
              && !OverBudget(cfg.limits, w.db.usage + a.input.usages)
              && (state == SUCCEEDED ==> a.input.verdict.Passed?)
              && (state == REPLANNING ==> a.input.verdict.Failed? && a.input.replanAdvised)
  {
    hide Inv, Next, OverBudget;
    if a.Go? && w.op.Verifying? && w.db.row.state == VERIFYING && a.input.Judged? {
      VerdictWorld(cfg, w, a.input.verdict, a.input.replanAdvised, a.input.usages);
      TotalsAreColumns(w.db.usage + a.input.usages);
    } else {
      OtherStates(cfg, w, a);
    }
  }

  lemma OtherStates(cfg: Config, w: World, a: Action)
    requires Inv(cfg, w) && !(a.Go? && w.op.Verifying? && w.db.row.state == VERIFYING && a.input.Judged?)
    ensures var state := Next(cfg, w, a).db.row.state;
            state in {SUCCEEDED, REPLANNING} ==> state == w.db.row.state
  {
    hide Next, Inv;
    if a.Go? && MovesRow(w.op) {
      OtherMoves(cfg, w, a.input);
    } else if a.Go? {
      hide MovesRow, Advance;
      RowKept(cfg, w, a.input);
      NextIsAdvance(cfg, w, a.input);
    } else {
      OutsideMoves(cfg, w, a);
    }
  }

  lemma NextIsAdvance(cfg: Config, w: World, input: Input)
    ensures Next(cfg, w, Go(input)) == Advance(cfg, w, input)
  {
    hide Advance;
  }

  lemma OtherMoves(cfg: Config, w: World, input: Input)
    requires Inv(cfg, w) && MovesRow(w.op) && !(w.op.Verifying? && w.db.row.state == VERIFYING && input.Judged?)
    ensures var state := Next(cfg, w, Go(input)).db.row.state;
            state in {SUCCEEDED, REPLANNING} ==> state == w.db.row.state
  {
    hide TablesOk, BudgetOk, StageOk, HistoryOk, OnLatest, Clean, LatestVersion, Exceeds, InsertPlan, CanInsert,
        WellFormed, Fits, ExecOk, VerdictTarget, AtScheduling, AtProgressing, AtReserving, AtRecording,
        AtFailRecording, AtHead, AtLoading;
  }

  lemma OutsideMoves(cfg: Config, w: World, a: Action)
    requires !a.Go?
    ensures var state := Next(cfg, w, a).db.row.state;
            state in {SUCCEEDED, REPLANNING} ==> state == w.db.row.state
  {
    hide HasUncertainCall;
  }

  /** A task is SUCCEEDED only if the verifier passed it within its budget. */
  lemma {:induction false} SucceededWasPassed(cfg: Config, actions: seq<Action>)
    requires ValidLimits(cfg.limits) && Run(cfg, actions).db.row.state == SUCCEEDED
    ensures exists i :: 0 <= i < |actions| && actions[i].Go? && actions[i].input.Judged?
              && actions[i].input.verdict.Passed?
              && var w := Run(cfg, actions[..i]);
                 && w.op.Verifying? && w.db.row.state == VERIFYING
                 && !OverBudget(cfg.limits, w.db.usage + actions[i].input.usages)
  {
    hide Next, Inv, OverBudget;
    if actions != [] {
      var n := |actions| - 1;
      var init := actions[..n];
      Reachable(cfg, init);
      VerdictsCome(cfg, Run(cfg, init), actions[n]);
      if Run(cfg, init).db.row.state == SUCCEEDED {
        SucceededWasPassed(cfg, init);
        var i :| 0 <= i < |init| && init[i].Go? && init[i].input.Judged? && init[i].input.verdict.Passed?
              && Run(cfg, init[..i]).op.Verifying? && Run(cfg, init[..i]).db.row.state == VERIFYING
              && !OverBudget(cfg.limits, Run(cfg, init[..i]).db.usage + init[i].input.usages);
        assert actions[i] == init[i] && actions[..i] == init[..i];
      }
    }
  }
}
