/** The invariant of the workflow and its preservation by every action. */
module WorkflowInvariant {
  import opened Contracts
  import opened PlanGraph
  import opened WaveScheduler
  import opened TaskStates
  import opened Tables
  import opened Transactions
  import opened Workflow

  // ----- The durable part -----

  ghost predicate LogOk(db: Database) {
    db.row.version == 1 + |db.events| && Linked(db.events, db.row.state)
  }

  /** States that appear only inside a transaction, or only in legacy rows, are never committed. */
  ghost predicate StateOk(db: Database) {
    && db.row.state !in {PLANNING, POLICY_CHECK, WAITING_CONFIRMATION, REJECTED}
    && (db.row.cancelRequested ==> db.row.state != PENDING)
  }

  ghost predicate BudgetOk(limits: Limits, db: Database) {
    Exceeds(limits, db.usage) <==> db.row.state == BUDGET_EXCEEDED
  }

  ghost predicate StageOk(db: Database) {
    && (db.row.state in {PENDING, ANALYZING} ==> db.tables == NO_TABLES && db.usage == [])
    && (db.row.state in {EXECUTING, VERIFYING, REPLANNING} ==> db.tables.plans != map[])
    && (db.row.state == REPLANNING ==> LatestPlan(db.tables).planId in db.reports)
  }

  ghost predicate DbInv(limits: Limits, db: Database) {
    StateOk(db) && BudgetOk(limits, db) && StageOk(db) && TablesOk(db.tables)
  }

  // ----- The handler history -----

  /** Every invocation has its call record, and no call was invoked twice. */
  ghost predicate HistoryOk(t: Tables, invoked: seq<CallKey>) {
    && (forall i :: 0 <= i < |invoked| ==> invoked[i] in t.calls)
    && (forall i, j :: 0 <= i < j < |invoked| ==> invoked[i] != invoked[j])
  }

  // ----- The volatile part -----

  /** The row is in the state the operation put it in, unless the task was cancelled meanwhile. */
  predicate At(db: Database, state: TaskState) {
    db.row.state == state || (db.row.cancelRequested && Terminal(db.row.state))
  }

  /** Iterations of the state loop still possible from a state with the given latest version. */
  function Rest(limits: Limits, state: TaskState, version: nat): nat {
    var revisions := if version <= limits.maxRevisions then limits.maxRevisions - version + 1 else 0;
    match state
    case PENDING => 3 + 2 * limits.maxRevisions
    case EXECUTING => 2 + 2 * revisions
    case REPLANNING => 1 + 2 * revisions
    case _ => 0
  }

  predicate Fits(limits: Limits, iter: nat, state: TaskState, version: nat) {
    iter + Rest(limits, state, version) <= Bound(limits)
  }

  ghost predicate OnLatest(limits: Limits, db: Database, iter: nat, plan: Plan) {
    && db.tables.plans != map[] && plan == LatestPlan(db.tables)
    && Fits(limits, iter, EXECUTING, LatestVersion(db.tables))
  }

  function FailedIds(x: Exec): set<string> {
    if x.failed.Some? then {x.failed.value} else {}
  }

  /** The locals of an execution mirror the step records; current is the step between two commits. */
  ghost predicate ExecOk(t: Tables, x: Exec, current: Option<string>) {
    && x.completed == SucceededIds(t, x.plan)
    && x.remaining == Pick(x.plan.steps, Ids(x.plan.steps) - x.completed - FailedIds(x))
    && (forall s :: s in x.remaining ==>
          StatusIs(t, x.plan, s.id, if current == Some(s.id) then StepRunning else StepPending))
    && UniqueIds(x.ready)
    && (forall s :: s in x.ready ==> s in x.remaining && s.dependsOn <= x.completed && current != Some(s.id))
    && (x.failed.Some? ==>
          && x.ready == [] && x.failed.value in Ids(x.plan.steps) && x.failed.value !in x.completed
          && StatusIs(t, x.plan, x.failed.value, StepFailed)
          && multiset(t.evidence)[StepKey(x.plan.planId, x.failed.value)] == 1)
    && x.evidence == EvidenceOf(t.evidence, x.plan.planId)
  }

  ghost predicate Executes(limits: Limits, db: Database, x: Exec, current: Option<string>) {
    At(db, EXECUTING) && OnLatest(limits, db, x.iter, x.plan) && ExecOk(db.tables, x, current)
  }

  /** A step whose call has been committed as started. */
  ghost predicate StepInFlight(limits: Limits, db: Database, x: Exec, s: Step) {
    && Executes(limits, db, x, Some(s.id)) && s in x.remaining && x.failed.None?
    && KeyOf(x.plan, s) in db.tables.calls
  }

  predicate LoopState(s: TaskState) {
    s in {PENDING, EXECUTING, REPLANNING}
  }

  /** Failures that only a cancellation can cause. */
  predicate CancelCause(c: Cause) {
    c in {CancelSeen, Illegal, StaleVersion, NotExecutable, NotReplanning}
  }

  ghost predicate OpInv(cfg: Config, db: Database, op: Operation, invoked: seq<CallKey>) {
    var limits := cfg.limits;
    match op
    case Idle => true
    case Head(i, previous) =>
      && Fits(limits, i, db.row.state, LatestVersion(db.tables))
      && (previous.Some? ==> LoopState(previous.value) && previous.value != db.row.state)
      && (db.row.state == EXECUTING ==> Clean(db.tables))
    case RunStart(i) => At(db, PENDING) && i == 0
    case RunLock(i, seen) =>
      && At(db, PENDING) && i == 0
      && (if seen.cancelRequested then db.row.cancelRequested && Terminal(seen.state)
          else
            && seen.state == PENDING && db.tables == NO_TABLES && db.usage == [] && !Exceeds(limits, [])
            && if db.row.cancelRequested then seen.version < db.row.version else seen.version == db.row.version)
    case Analyzing(i) => At(db, ANALYZING) && i == 0
    case Loading(i) => At(db, EXECUTING) && Clean(db.tables) && db.tables.plans != map[]
        && OnLatest(limits, db, i, LatestPlan(db.tables))
    case Progressing(i, plan) => At(db, EXECUTING) && Clean(db.tables) && OnLatest(limits, db, i, plan)
    case Scheduling(x) => Executes(limits, db, x, None)
    case Reserving(x, s) =>
      && Executes(limits, db, x, None) && x.failed.None?
      && s in x.remaining && s.dependsOn <= x.completed && forall r :: r in x.ready ==> r.id != s.id
    case Invoking(x, s) => StepInFlight(limits, db, x, s) && KeyOf(x.plan, s) !in invoked
    case Running(x, s) => StepInFlight(limits, db, x, s)
    case FailRecording(x, s, target) => StepInFlight(limits, db, x, s) && FailureTarget(target) == target
    case Recording(x, s, _) => StepInFlight(limits, db, x, s)
    case Closing(x) => Executes(limits, db, x, None) && (x.remaining == [] || x.failed.Some?)
    case Verifying(x) =>
      && At(db, VERIFYING) && OnLatest(limits, db, x.iter, x.plan) && ExecOk(db.tables, x, None)
      && (x.remaining == [] || x.failed.Some?)
    case ReplanStart(i) => At(db, REPLANNING) && Fits(limits, i, REPLANNING, LatestVersion(db.tables))
    case Replanning(i, version) =>
      && At(db, REPLANNING) && Fits(limits, i, REPLANNING, LatestVersion(db.tables))
      && version == LatestVersion(db.tables) + 1 && version <= 1 + limits.maxRevisions
    case Finishing(target, cause) =>
      && FailureTarget(target) == target
      && (cause == External || (CancelCause(cause) && db.row.cancelRequested))
  }

  ghost predicate Inv(cfg: Config, w: World) {
    DbInv(cfg.limits, w.db) && HistoryOk(w.db.tables, w.invoked) && OpInv(cfg, w.db, w.op, w.invoked)
  }

  // ----- What a stale locking read can break -----

  /** The log tells the state, and a cancelled row has ended. */
  ghost predicate Faithful(db: Database) {
    LogOk(db) && (db.row.cancelRequested ==> Terminal(db.row.state))
  }

  /** The operation locks a row that was cancelled after its unlocked read, and gets the copy it has. */
  predicate StaleLock(cfg: Config, w: World, a: Action) {
    !cfg.refresh && a.Go? && w.op.RunLock? && !w.op.seen.cancelRequested && w.db.row.cancelRequested
  }

  ghost predicate NeverStale(cfg: Config, actions: seq<Action>) {
    forall i :: 0 <= i < |actions| ==> !StaleLock(cfg, Run(cfg, actions[..i]), actions[i])
  }

  // ----- Row transitions -----

  /** A legal move changes only the row and the log, and keeps what depends on neither. */
  lemma MoveKeeps(limits: Limits, db: Database, target: TaskState)
    requires DbInv(limits, db) && CanMove(db.row.state, target)
    requires target in {VERIFYING, NEEDS_REVIEW, SUCCEEDED, FAILED, CANCELLED}
              || (target == ANALYZING && db.row.state == PENDING)
    ensures DbInv(limits, Move(db, target))
  {
    hide TablesOk, Exceeds;
  }

  lemma MoveKeepsLog(db: Database, target: TaskState)
    requires LogOk(db) && CanMove(db.row.state, target)
    ensures LogOk(Move(db, target))
  {
    LinkedSnoc(db.events, db.row.state, target);
  }

  lemma CancelKeeps(limits: Limits, db: Database)
    requires DbInv(limits, db)
    ensures CancelTask(db).Commit? && var db' := CancelTask(db).db;
            && DbInv(limits, db') && db'.row.cancelRequested && Terminal(db'.row.state)
            && db'.tables == db.tables && db'.usage == db.usage && (LogOk(db) ==> LogOk(db'))
            && (Terminal(db.row.state) ==> db'.row.state == db.row.state && db'.row.version == db.row.version)
            && (!Terminal(db.row.state) ==> db'.row.state == CANCELLED && db'.row.version == db.row.version + 1)
  {
    hide TablesOk, Exceeds;
    if !Terminal(db.row.state) && LogOk(db) {
      LinkedSnoc(db.events, db.row.state, CANCELLED);
    }
  }

  // ----- Plans -----

  lemma {:induction false} TotalsOfConcat(a: seq<Usage>, b: seq<Usage>)
    ensures TotalTokens(a + b) == TotalTokens(a) + TotalTokens(b)
    ensures TotalCost(a + b) == TotalCost(a) + TotalCost(b)
  {
    if b == [] {
      assert a + b == a;
    } else {
      assert (a + b)[..|a + b| - 1] == a + b[..|b| - 1];
      TotalsOfConcat(a, b[..|b| - 1]);
    }
  }

  lemma FirstPlanKeeps(limits: Limits, db: Database, plan: Plan, usages: seq<Usage>, validated: bool)
    requires DbInv(limits, db) && At(db, ANALYZING) && WellFormed(plan)
    ensures match StoreFirstPlan(db, limits, plan, usages, validated)
            case Commit(d) =>
              && DbInv(limits, d) && d.row.state in {EXECUTING, BUDGET_EXCEEDED}
              && Clean(d.tables) && d.tables.calls == db.tables.calls
              && (d.row.state == EXECUTING ==> d.tables.plans != map[] && 1 <= LatestVersion(d.tables))
            case Rollback(c) => c == External || (c == Illegal && db.row.cancelRequested)
  {
    hide Accepted, RowsOk, PlansOk;
    assert [] + usages == usages;
    if db.row.state == ANALYZING {
      assert db.usage + usages == usages;
      InsertKeepsPlans(db.tables, plan);
      InsertKeepsRows(db.tables, plan);
      InsertedIsLatest(db.tables, plan);
    }
  }

  lemma ReplanKeeps(limits: Limits, db: Database, plan: Plan, usages: seq<Usage>)
    requires DbInv(limits, db) && At(db, REPLANNING) && WellFormed(plan)
    requires plan.version == LatestVersion(db.tables) + 1
    ensures match StoreReplan(db, limits, plan, usages)
            case Commit(d) =>
              && DbInv(limits, d) && d.row.state in {EXECUTING, BUDGET_EXCEEDED}
              && d.tables.calls == db.tables.calls
              && (d.row.state == EXECUTING ==>
                    Clean(d.tables) && d.tables.plans != map[] && LatestVersion(d.tables) == plan.version)
            case Rollback(c) => c == External || (c == Illegal && db.row.cancelRequested)
  {
    hide Accepted, RowsOk, PlansOk;
    if db.row.state == REPLANNING {
      if CanInsert(db.tables, plan) {
        InsertKeepsPlans(db.tables, plan);
        InsertKeepsRows(db.tables, plan);
        assert forall v :: v in db.tables.plans ==> v <= LatestVersion(db.tables);
        InsertedIsLatest(db.tables, plan);
      }
    }
  }

  lemma VerdictKeeps(limits: Limits, db: Database, verdict: Verdict, advised: bool, usages: seq<Usage>)
    requires DbInv(limits, db) && At(db, VERIFYING) && db.tables.plans != map[]
    ensures match StoreVerdict(db, limits, LatestPlan(db.tables).planId, verdict, advised, usages)
            case Commit(d) =>
              var over := OverBudget(limits, db.usage + usages);
              && DbInv(limits, d) && d.tables == db.tables
              && d.row.state == if over then BUDGET_EXCEEDED
                                else if verdict.Passed? then SUCCEEDED
                                else if verdict.NeedsReview? then NEEDS_REVIEW
                                else if advised then REPLANNING
                                else FAILED
            case Rollback(c) => c == Illegal && db.row.cancelRequested
  {
    TotalsAreColumns(db.usage + usages);
    hide TablesOk, Exceeds, OverBudget;
  }

  lemma StartReplanKeeps(limits: Limits, db: Database)
    requires DbInv(limits, db) && At(db, REPLANNING)
    ensures match StartReplan(db, limits)
            case ReplanLimit(d) => DbInv(limits, d) && d.row.state == NEEDS_REVIEW && d.tables == db.tables
            case ReplanGo(version) => version == LatestVersion(db.tables) + 1 && version <= 1 + limits.maxRevisions
                && db.row.state == REPLANNING
            case ReplanError(c) => c == NotReplanning && db.row.cancelRequested
  {
    hide RowsOk, Accepted;
    if db.row.state == REPLANNING {
      assert LatestVersion(db.tables) in db.tables.plans;
      if LatestPlan(db.tables).version >= 1 + limits.maxRevisions {
        MoveKeeps(limits, db, NEEDS_REVIEW);
      }
    }
  }

  lemma FinishKeepsDb(limits: Limits, db: Database, target: TaskState)
    requires DbInv(limits, db) && FailureTarget(target) == target
    ensures DbInv(limits, FinishTask(db, target)) && FinishTask(db, target).tables == db.tables
  {
    hide TablesOk;
    if CanMove(db.row.state, target) {
      MoveKeeps(limits, db, target);
    }
  }

  /** Recovery asks only for legal transitions, and leaves the task scheduled or in review. */
  lemma RecoverKeeps(limits: Limits, db: Database)
    requires DbInv(limits, db) && !Terminal(db.row.state)
    ensures match RecoverTask(db)
            case Skipped => db.row.state == NEEDS_REVIEW
            case Scheduled(d) => d == db && (db.row.state == PENDING || (db.row.state == EXECUTING && Clean(db.tables)))
            case Reviewed(d) => DbInv(limits, d) && d.row.state == NEEDS_REVIEW && d.tables == db.tables
            case RecoveryError => false
  {
    hide RowsOk, Accepted, PlansOk;
    if !HasUncertainCall(db.tables) {
      NoUncertainCallIsClean(db.tables);
    }
    if CanMove(db.row.state, NEEDS_REVIEW) {
      MoveKeeps(limits, db, NEEDS_REVIEW);
    }
  }

  // ----- The log -----

  lemma StoredPlanLog(events: seq<Event>, state: TaskState)
    requires Linked(events, state) && state in {ANALYZING, REPLANNING}
    ensures state == ANALYZING ==>
              Linked(events
                  + [Event(ANALYZING, PLANNING), Event(PLANNING, POLICY_CHECK), Event(POLICY_CHECK, EXECUTING)],
                  EXECUTING)
    ensures state == REPLANNING ==>
              Linked(events + [Event(REPLANNING, POLICY_CHECK), Event(POLICY_CHECK, EXECUTING)], EXECUTING)
  {
    hide Linked;
    var planned, checked, executed :=
        Event(ANALYZING, PLANNING), Event(state, POLICY_CHECK), Event(POLICY_CHECK, EXECUTING);
    if state == ANALYZING {
      checked := Event(PLANNING, POLICY_CHECK);
      LinkedSnoc(events, ANALYZING, PLANNING);
      LinkedSnoc(events + [planned], PLANNING, POLICY_CHECK);
      LinkedSnoc(events + [planned] + [checked], POLICY_CHECK, EXECUTING);
      assert events + [planned] + [checked] + [executed] == events + [planned, checked, executed];
    } else {
      LinkedSnoc(events, REPLANNING, POLICY_CHECK);
      LinkedSnoc(events + [checked], POLICY_CHECK, EXECUTING);
      assert events + [checked] + [executed] == events + [checked, executed];
    }
  }

  lemma TryMoveKeepsLog(db: Database, target: TaskState)
    requires LogOk(db)
    ensures TryMove(db, target).Commit? ==> LogOk(TryMove(db, target).db)
    ensures LogOk(FinishTask(db, target))
  {
    hide LogOk, CanMove;
    if CanMove(db.row.state, target) { MoveKeepsLog(db, target); }
  }

  lemma VerdictKeepsLog(db: Database, limits: Limits, planId: nat, verdict: Verdict, advised: bool, usages: seq<Usage>)
    requires LogOk(db)
    ensures var txn := StoreVerdict(db, limits, planId, verdict, advised, usages); txn.Commit? ==> LogOk(txn.db)
  {
    hide Linked, CanMove, Exceeds, VerdictTarget;
    var target := VerdictTarget(verdict, advised, Exceeds(limits, db.usage + usages));
    if CanMove(db.row.state, target) { LinkedSnoc(db.events, db.row.state, target); }
  }

  lemma FirstPlanKeepsLog(db: Database, limits: Limits, plan: Plan, usages: seq<Usage>, validated: bool)
    requires LogOk(db) && db.row.state == ANALYZING
    ensures var txn := StoreFirstPlan(db, limits, plan, usages, validated); txn.Commit? ==> LogOk(txn.db)
  {
    hide Linked, CanInsert, Exceeds, InsertPlan;
    LinkedSnoc(db.events, ANALYZING, BUDGET_EXCEEDED);
    StoredPlanLog(db.events, ANALYZING);
  }

  lemma ReplanKeepsLog(db: Database, limits: Limits, plan: Plan, usages: seq<Usage>)
    requires LogOk(db) && db.row.state == REPLANNING
    ensures var txn := StoreReplan(db, limits, plan, usages); txn.Commit? ==> LogOk(txn.db)
  {
    hide Linked, CanInsert, Exceeds, InsertPlan;
    LinkedSnoc(db.events, REPLANNING, BUDGET_EXCEEDED);
    StoredPlanLog(db.events, REPLANNING);
  }
}
