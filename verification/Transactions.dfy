/**
 The transactions of the orchestrator, the canceller, the finisher and recovery, as functions from
 one committed database to the next. A transaction that raises commits nothing.
 */
module Transactions {
  import opened Contracts
  import opened TaskStates
  import opened Tables

  datatype Limits = Limits(maxRevisions: nat, maxTokens: nat, maxCost: real)

  datatype Usage = Usage(input: nat, cacheCreation: nat, cacheRead: nat, output: nat, cost: real)

  datatype Row = Row(state: TaskState, version: nat, cancelRequested: bool)

  /** Everything durable about one task. reports holds the plans with a verification report. */
  datatype Database = Database(
    row: Row, events: seq<Event>, tables: Tables, usage: seq<Usage>, reports: set<nat>)

  const NEW_TASK := Database(Row(PENDING, 1, false), [], NO_TABLES, [], {})

  /** Why an operation ended with an exception. */
  datatype Cause =
    | External            // a model call, a tool, the disk, the network, or an interruption
    | CancelSeen          // the cancellation flag was read between two steps
    | Illegal             // the repository refused a transition
    | StaleVersion        // the repository found another version
    | NotExecutable | NotReplanning
    | NoPlan | NoReport | UncertainSteps | NoRunnableStep | UncertainCall | MissingRecord | LostCall
    | NoProgress | LoopBound

  datatype Txn = Commit(db: Database) | Rollback(cause: Cause)

  // ----- Usage -----

  function TokensOf(u: Usage): nat {
    u.input + u.cacheCreation + u.cacheRead + u.output
  }

  function TotalTokens(usage: seq<Usage>): nat {
    if usage == [] then 0 else TotalTokens(usage[..|usage| - 1]) + TokensOf(usage[|usage| - 1])
  }

  function TotalCost(usage: seq<Usage>): real {
    if usage == [] then 0.0 else TotalCost(usage[..|usage| - 1]) + usage[|usage| - 1].cost
  }

  predicate Exceeds(limits: Limits, usage: seq<Usage>) {
    TotalTokens(usage) > limits.maxTokens || TotalCost(usage) > limits.maxCost
  }

  // ----- Usage, column by column -----

  datatype TokenColumn = InputTokens | CacheCreationTokens | CacheReadTokens | OutputTokens

  function Cell(u: Usage, column: TokenColumn): nat {
    match column
    case InputTokens => u.input
    case CacheCreationTokens => u.cacheCreation
    case CacheReadTokens => u.cacheRead
    case OutputTokens => u.output
  }

  /** The sum of one column of the usage rows. */
  function TokenSum(usage: seq<Usage>, column: TokenColumn): nat {
    if usage == [] then 0 else Cell(usage[0], column) + TokenSum(usage[1..], column)
  }

  /** The sum of the cost column. */
  function CostSum(usage: seq<Usage>): real {
    if usage == [] then 0.0 else usage[0].cost + CostSum(usage[1..])
  }

  /** All four token columns together, or the cost column, are strictly above their limit. */
  predicate OverBudget(limits: Limits, usage: seq<Usage>) {
    || TokenSum(usage, InputTokens) + TokenSum(usage, CacheCreationTokens) + TokenSum(usage, CacheReadTokens)
         + TokenSum(usage, OutputTokens) > limits.maxTokens
    || CostSum(usage) > limits.maxCost
  }

  lemma {:induction false} ColumnsSnoc(usage: seq<Usage>, u: Usage)
    ensures forall column :: TokenSum(usage + [u], column) == TokenSum(usage, column) + Cell(u, column)
    ensures CostSum(usage + [u]) == CostSum(usage) + u.cost
  {
    if usage == [] {
      assert [u][1..] == [];
    } else {
      assert (usage + [u])[1..] == usage[1..] + [u];
      ColumnsSnoc(usage[1..], u);
    }
  }

  /** The running totals are the sums of the columns, so the budget test is the one on the columns. */
  lemma {:induction false} TotalsAreColumns(usage: seq<Usage>)
    ensures TotalTokens(usage) == TokenSum(usage, InputTokens) + TokenSum(usage, CacheCreationTokens)
                + TokenSum(usage, CacheReadTokens) + TokenSum(usage, OutputTokens)
    ensures TotalCost(usage) == CostSum(usage)
    ensures forall limits :: Exceeds(limits, usage) <==> OverBudget(limits, usage)
  {
    if usage != [] {
      var init, last := usage[..|usage| - 1], usage[|usage| - 1];
      TotalsAreColumns(init);
      ColumnsSnoc(init, last);
      assert init + [last] == usage;
    }
  }

  // ----- Row transitions -----

  function Move(db: Database, target: TaskState): Database {
    db.(row := Row(target, db.row.version + 1, db.row.cancelRequested),
        events := db.events + [Event(db.row.state, target)])
  }

  function TryMove(db: Database, target: TaskState): Txn {
    if CanMove(db.row.state, target) then Commit(Move(db, target)) else Rollback(Illegal)
  }

  /** A cancellation request: the flag always, the CANCELLED state unless the task has ended. */
  function CancelTask(db: Database): Txn {
    var flagged := db.(row := db.row.(cancelRequested := true));
    if Terminal(db.row.state) then Commit(flagged) else TryMove(flagged, CANCELLED)
  }

  /** What the background operation does with its own failure; an illegal target leaves the row alone. */
  function FinishTask(db: Database, target: TaskState): Database {
    if CanMove(db.row.state, target) then Move(db, target) else db
  }

  // ----- Planning -----

  /** PLANNING, POLICY_CHECK and EXECUTING in one commit, or BUDGET_EXCEEDED, from the given state. */
  function StoreFirstPlan(db: Database, limits: Limits, plan: Plan, usages: seq<Usage>, validated: bool): Txn {
    var spent := db.(usage := db.usage + usages);
    if Exceeds(limits, usages) then TryMove(spent, BUDGET_EXCEEDED)
    else if !CanMove(db.row.state, PLANNING) then Rollback(Illegal)
    else if !validated || !CanInsert(db.tables, plan) then Rollback(External)
    else Commit(spent.(
      row := Row(EXECUTING, db.row.version + 3, db.row.cancelRequested),
      events := db.events
          + [Event(db.row.state, PLANNING), Event(PLANNING, POLICY_CHECK), Event(POLICY_CHECK, EXECUTING)],
      tables := InsertPlan(db.tables, plan)))
  }

  function StoreReplan(db: Database, limits: Limits, plan: Plan, usages: seq<Usage>): Txn {
    var spent := db.(usage := db.usage + usages);
    if Exceeds(limits, spent.usage) then TryMove(spent, BUDGET_EXCEEDED)
    else if !CanInsert(db.tables, plan) then Rollback(External)
    else if !CanMove(db.row.state, POLICY_CHECK) then Rollback(Illegal)
    else Commit(spent.(
      row := Row(EXECUTING, db.row.version + 2, db.row.cancelRequested),
      events := db.events + [Event(db.row.state, POLICY_CHECK), Event(POLICY_CHECK, EXECUTING)],
      tables := InsertPlan(db.tables, plan)))
  }

  datatype ReplanRead = ReplanLimit(db: Database) | ReplanGo(nextVersion: nat) | ReplanError(cause: Cause)

  ghost function StartReplan(db: Database, limits: Limits): ReplanRead {
    if db.row.state != REPLANNING then ReplanError(NotReplanning)
    else if db.tables.plans == map[] then ReplanError(NoPlan)
    else
      var current := LatestPlan(db.tables);
      if current.version >= 1 + limits.maxRevisions then
        match TryMove(db, NEEDS_REVIEW)
        case Commit(d) => ReplanLimit(d)
        case Rollback(c) => ReplanError(c)
      else if current.planId !in db.reports then ReplanError(NoReport)
      else ReplanGo(current.version + 1)
  }

  // ----- Verification -----

  datatype Verdict = Passed | Failed | NeedsReview

  function VerdictTarget(verdict: Verdict, replanAdvised: bool, overBudget: bool): TaskState {
    if overBudget then BUDGET_EXCEEDED
    else match verdict
      case Passed => SUCCEEDED
      case Failed => if replanAdvised then REPLANNING else FAILED
      case NeedsReview => NEEDS_REVIEW
  }

  /** The report and the state that follows from it, in one commit. */
  function StoreVerdict(db: Database, limits: Limits, planId: nat, verdict: Verdict, replanAdvised: bool,
      usages: seq<Usage>): Txn {
    var spent := db.(usage := db.usage + usages, reports := db.reports + {planId});
    TryMove(spent, VerdictTarget(verdict, replanAdvised, Exceeds(limits, spent.usage)))
  }

  // ----- One tool step -----

  datatype Reservation = Reserved(db: Database) | Reused | Refused(cause: Cause)

  function ReserveStep(db: Database, version: nat, s: Step): Reservation {
    var t := db.tables;
    var key := CallKey(version, s.id, s.tool, s.arguments);
    if key in t.calls then
      if t.calls[key].status == CallSucceeded then Reused else Refused(UncertainCall)
    else if version !in t.plans || StepKey(t.plans[version].planId, s.id) !in t.steps then Refused(MissingRecord)
    else
      var record := StepKey(t.plans[version].planId, s.id);
      Reserved(db.(tables := t.(calls := t.calls[key := CallRow(record, CallStarted)],
                                steps := t.steps[record := StepRunning])))
  }

  /** A handler that raised: the call and its step become failed, if they still exist. */
  function RecordFailure(db: Database, version: nat, s: Step): Database {
    var t := db.tables;
    var key := CallKey(version, s.id, s.tool, s.arguments);
    if key !in t.calls then db
    else
      var record := t.calls[key].record;
      db.(tables := t.(
        calls := t.calls[key := t.calls[key].(status := CallFailed)],
        steps := if record in t.steps then t.steps[record := StepFailed] else t.steps))
  }

  /** A handler that returned: status, result and evidence in one commit. */
  function RecordResult(db: Database, version: nat, s: Step, checkFailed: bool): Txn {
    var t := db.tables;
    var key := CallKey(version, s.id, s.tool, s.arguments);
    if key !in t.calls then Rollback(LostCall)
    else
      var record := t.calls[key].record;
      var status := if checkFailed then StepFailed else StepSucceeded;
      Commit(db.(tables := t.(
        calls := t.calls[key := t.calls[key].(status := if checkFailed then CallFailed else CallSucceeded)],
        steps := if record in t.steps then t.steps[record := status] else t.steps,
        evidence := t.evidence + [record])))
  }

  // ----- Recovery -----

  datatype Recovery = Skipped | Scheduled(db: Database) | Reviewed(db: Database) | RecoveryError

  /** What recovery does with one non-terminal task after a restart. */
  function RecoverTask(db: Database): Recovery {
    match db.row.state
    case NEEDS_REVIEW => Skipped
    case WAITING_CONFIRMATION =>
      if CanMove(db.row.state, EXECUTING) then Scheduled(Move(db, EXECUTING)) else RecoveryError
    case PENDING => Scheduled(db)
    case state =>
      if state == EXECUTING && !HasUncertainCall(db.tables) then Scheduled(db)
      else if CanMove(state, NEEDS_REVIEW) then Reviewed(Move(db, NEEDS_REVIEW))
      else RecoveryError
  }
}
