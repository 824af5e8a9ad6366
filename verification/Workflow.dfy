/**
 The workflow of one task as a transition system. The durable part is the database; the volatile
 part is the background operation, at most one per task, which a crash discards. Every action is
 one atomic step: a committed transaction, a read, the start or the end of a tool handler, or an
 event from outside. invoked is the history of handler invocations.
 */
module Workflow {
  import opened Contracts
  import opened PlanGraph
  import opened WaveScheduler
  import opened TaskStates
  import opened Tables
  import opened Transactions

  /**
   refresh says whether a locking read returns the committed row even when the session has already
   read the row without a lock; an object-relational mapper may keep the copy it has.
   */
  datatype Config = Config(limits: Limits, refresh: bool)

  /** The locals of one execution of a plan; iter counts the finished iterations of the state loop. */
  datatype Exec = Exec(
    iter: nat, plan: Plan, completed: set<string>, remaining: seq<Step>, ready: seq<Step>,
    failed: Option<string>, evidence: seq<string>)

  datatype Operation =
    | Idle
    | Head(iter: nat, previous: Option<TaskState>)             // about to read the task state
    | RunStart(iter: nat)                                      // about to read the row, without a lock
    | RunLock(iter: nat, seen: Row)                            // about to lock and move it
    | Analyzing(iter: nat)                                     // waiting for the supervisor's plan
    | Loading(iter: nat)                                       // about to load the plan
    | Progressing(iter: nat, plan: Plan)                       // about to load the step records
    | Scheduling(x: Exec)                                      // between two steps
    | Reserving(x: Exec, step: Step)                           // about to commit the started call
    | Invoking(x: Exec, step: Step)                            // about to run the handler
    | Running(x: Exec, step: Step)                             // the handler runs
    | FailRecording(x: Exec, step: Step, target: TaskState)    // the handler raised
    | Recording(x: Exec, step: Step, checkFailed: bool)        // the handler returned
    | Closing(x: Exec)                                         // no step left to run
    | Verifying(x: Exec)                                       // waiting for the verifier
    | ReplanStart(iter: nat)
    | Replanning(iter: nat, version: nat)                      // waiting for the revised plan
    | Finishing(target: TaskState, cause: Cause)               // about to record its own failure

  datatype World = World(db: Database, op: Operation, invoked: seq<CallKey>)

  datatype Input =
    | Tick
    | Planned(plan: Plan, usages: seq<Usage>, validated: bool)
    | Returned(checkFailed: bool)
    | Raised(target: TaskState)
    | Judged(verdict: Verdict, replanAdvised: bool, usages: seq<Usage>)

  datatype Action =
    | Schedule                     // a new task is handed to the coordinator
    | Cancel                       // the user cancels
    | Crash                        // the process, or the operation, disappears
    | Recover                      // the recovery pass after a restart
    | Interrupt(target: TaskState) // any exception or cancellation at the current await
    | Go(input: Input)             // the operation takes its next atomic step

  const INIT := World(NEW_TASK, Idle, [])

  function Bound(limits: Limits): nat {
    3 + 2 * limits.maxRevisions
  }

  /** Exceptions end as FAILED, workspace preconditions as NEEDS_REVIEW, cancellation as CANCELLED. */
  function FailureTarget(target: TaskState): TaskState {
    if target == NEEDS_REVIEW || target == CANCELLED then target else FAILED
  }

  function Fails(w: World, cause: Cause): World {
    w.(op := Finishing(FAILED, cause))
  }

  // ----- The state loop -----

  function AtHead(cfg: Config, w: World): World
    requires w.op.Head?
  {
    var state, i, previous := w.db.row.state, w.op.iter, w.op.previous;
    if previous == Some(state) then Fails(w, NoProgress)
    else if previous.Some? && i > Bound(cfg.limits) then Fails(w, LoopBound)
    else match state
      case PENDING => w.(op := RunStart(i))
      case EXECUTING => w.(op := Loading(i))
      case REPLANNING => w.(op := ReplanStart(i))
      case _ => w.(op := Idle)
  }

  // ----- Planning -----

  function AtRunLock(cfg: Config, w: World): World
    requires w.op.RunLock?
  {
    var i, seen, db := w.op.iter, w.op.seen, w.db;
    if cfg.refresh && db.row.version != seen.version then Fails(w, StaleVersion)
    else
      var current := if cfg.refresh then db.row.state else seen.state;
      var target := if seen.cancelRequested then CANCELLED else ANALYZING;
      if !CanMove(current, target) then Fails(w, Illegal)
      else
        var db' := db.(row := Row(target, seen.version + 1, db.row.cancelRequested),
                       events := db.events + [Event(current, target)]);
        w.(db := db', op := if target == CANCELLED then Head(i + 1, Some(PENDING)) else Analyzing(i))
  }

  function Settle(w: World, txn: Txn, op: Operation): World {
    match txn
    case Commit(db) => w.(db := db, op := op)
    case Rollback(cause) => Fails(w, cause)
  }

  /** A plan object exists only if the contract model accepted it. */
  ghost predicate WellFormed(plan: Plan) {
    1 <= plan.version && plan.steps != [] && Accepted(plan.steps)
  }

  ghost function AtAnalyzing(cfg: Config, w: World, input: Input): World
    requires w.op.Analyzing? && input.Planned?
  {
    if !WellFormed(input.plan) then Fails(w, External)
    else Settle(w, StoreFirstPlan(w.db, cfg.limits, input.plan, input.usages, input.validated),
        Head(w.op.iter + 1, Some(PENDING)))
  }

  // ----- Executing -----

  ghost function AtLoading(w: World): World
    requires w.op.Loading?
  {
    if w.db.row.state != EXECUTING then Fails(w, NotExecutable)
    else if w.db.tables.plans == map[] then Fails(w, NoPlan)
    else w.(op := Progressing(w.op.iter, LatestPlan(w.db.tables)))
  }

  predicate Uncertain(t: Tables, plan: Plan) {
    exists s :: s in plan.steps && (StatusIs(t, plan, s.id, StepRunning) || StatusIs(t, plan, s.id, StepFailed))
  }

  function SucceededIds(t: Tables, plan: Plan): set<string> {
    set s | s in plan.steps && StatusIs(t, plan, s.id, StepSucceeded) :: s.id
  }

  /** The evidence of one plan, oldest first. */
  function EvidenceOf(evidence: seq<StepKey>, planId: nat): seq<string> {
    if evidence == [] then []
    else
      var last := evidence[|evidence| - 1];
      EvidenceOf(evidence[..|evidence| - 1], planId) + if last.planId == planId then [last.stepId] else []
  }

  function LoadProgress(i: nat, t: Tables, plan: Plan): Exec {
    var completed := SucceededIds(t, plan);
    Exec(i, plan, completed, Pick(plan.steps, Ids(plan.steps) - completed), [], None,
        EvidenceOf(t.evidence, plan.planId))
  }

  function AtProgressing(w: World): World
    requires w.op.Progressing?
  {
    if Uncertain(w.db.tables, w.op.plan) then Fails(w, UncertainSteps)
    else w.(op := Scheduling(LoadProgress(w.op.iter, w.db.tables, w.op.plan)))
  }

  function AtScheduling(w: World): World
    requires w.op.Scheduling?
  {
    var x := w.op.x;
    if x.ready != [] then
      if w.db.row.cancelRequested then Fails(w, CancelSeen)
      else w.(op := Reserving(x.(ready := x.ready[1..]), x.ready[0]))
    else if x.remaining != [] && x.failed.None? then
      var ready := Ready(x.remaining, x.completed);
      if ready == [] then Fails(w, NoRunnableStep) else w.(op := Scheduling(x.(ready := ready)))
    else w.(op := Closing(x))
  }

  function Pop(x: Exec, id: string): Exec {
    x.(remaining := Pick(x.remaining, Ids(x.remaining) - {id}))
  }

  /** The outcome of a step enters the locals; a failure also ends the ready list. */
  function Absorb(x: Exec, id: string, checkFailed: bool): Exec {
    var x' := Pop(x.(evidence := x.evidence + [id]), id);
    if checkFailed then x'.(failed := Some(id), ready := []) else x'.(completed := x.completed + {id})
  }

  function AtReserving(w: World): World
    requires w.op.Reserving?
  {
    var x, s := w.op.x, w.op.step;
    match ReserveStep(w.db, x.plan.version, s)
    case Reserved(db) => w.(db := db, op := Invoking(x, s))
    case Reused => w.(op := Scheduling(Absorb(x, s.id, false)))
    case Refused(cause) => Fails(w, cause)
  }

  /** The executor looks the tool up and validates its input, which may raise, and calls the handler. */
  function AtInvoking(w: World, input: Input): World
    requires w.op.Invoking?
  {
    var x, s := w.op.x, w.op.step;
    match input
    case Tick => w.(invoked := w.invoked + [KeyOf(x.plan, s)], op := Running(x, s))
    case Raised(target) => w.(op := FailRecording(x, s, FailureTarget(target)))
    case _ => w
  }

  function AtRunning(w: World, input: Input): World
    requires w.op.Running?
  {
    var x, s := w.op.x, w.op.step;
    match input
    case Returned(checkFailed) => w.(op := Recording(x, s, checkFailed))
    case Raised(target) => w.(op := FailRecording(x, s, FailureTarget(target)))
    case _ => w
  }

  function AtFailRecording(w: World): World
    requires w.op.FailRecording?
  {
    World(RecordFailure(w.db, w.op.x.plan.version, w.op.step), Finishing(w.op.target, External), w.invoked)
  }

  function AtRecording(w: World): World
    requires w.op.Recording?
  {
    var x, s, checkFailed := w.op.x, w.op.step, w.op.checkFailed;
    Settle(w, RecordResult(w.db, x.plan.version, s, checkFailed), Scheduling(Absorb(x, s.id, checkFailed)))
  }

  function AtClosing(w: World): World
    requires w.op.Closing?
  {
    Settle(w, TryMove(w.db, VERIFYING), Verifying(w.op.x))
  }

  function AtVerifying(cfg: Config, w: World, input: Input): World
    requires w.op.Verifying? && input.Judged?
  {
    var x := w.op.x;
    Settle(w, StoreVerdict(w.db, cfg.limits, x.plan.planId, input.verdict, input.replanAdvised, input.usages),
           Head(x.iter + 1, Some(EXECUTING)))
  }

  // ----- Replanning -----

  ghost function AtReplanStart(cfg: Config, w: World): World
    requires w.op.ReplanStart?
  {
    match StartReplan(w.db, cfg.limits)
    case ReplanLimit(db) => w.(db := db, op := Head(w.op.iter + 1, Some(REPLANNING)))
    case ReplanGo(version) => w.(op := Replanning(w.op.iter, version))
    case ReplanError(cause) => Fails(w, cause)
  }

  ghost function AtReplanning(cfg: Config, w: World, input: Input): World
    requires w.op.Replanning? && input.Planned?
  {
    var plan := input.plan.(version := w.op.version);
    if !WellFormed(input.plan) || !input.validated then Fails(w, External)
    else Settle(w, StoreReplan(w.db, cfg.limits, plan, input.usages), Head(w.op.iter + 1, Some(REPLANNING)))
  }

  // ----- All actions -----

  ghost function Advance(cfg: Config, w: World, input: Input): World {
    match w.op
    case Idle => w
    case Head(_, _) => AtHead(cfg, w)
    case RunStart(i) => w.(op := RunLock(i, w.db.row))
    case RunLock(_, _) => AtRunLock(cfg, w)
    case Analyzing(_) => if input.Planned? then AtAnalyzing(cfg, w, input) else w
    case Loading(_) => AtLoading(w)
    case Progressing(_, _) => AtProgressing(w)
    case Scheduling(_) => AtScheduling(w)
    case Reserving(_, _) => AtReserving(w)
    case Invoking(_, _) => AtInvoking(w, input)
    case Running(_, _) => AtRunning(w, input)
    case FailRecording(_, _, _) => AtFailRecording(w)
    case Recording(_, _, _) => AtRecording(w)
    case Closing(_) => AtClosing(w)
    case Verifying(_) => if input.Judged? then AtVerifying(cfg, w, input) else w
    case ReplanStart(_) => AtReplanStart(cfg, w)
    case Replanning(_, _) => if input.Planned? then AtReplanning(cfg, w, input) else w
    case Finishing(target, _) => World(FinishTask(w.db, target), Idle, w.invoked)
  }

  ghost function AtRecover(w: World): World
    requires w.op.Idle? && !Terminal(w.db.row.state)
  {
    match RecoverTask(w.db)
    case Scheduled(db) => w.(db := db, op := Head(0, None))
    case Reviewed(db) => w.(db := db)
    case _ => w
  }

  /** An action that is not enabled leaves the world alone. */
  ghost function Next(cfg: Config, w: World, a: Action): World {
    match a
    case Schedule => if w.op.Idle? && w.db.row.state == PENDING then w.(op := Head(0, None)) else w
    case Cancel => (match CancelTask(w.db) case Commit(db) => w.(db := db) case Rollback(_) => w)
    case Crash => w.(op := Idle)
    case Recover => if w.op.Idle? && !Terminal(w.db.row.state) then AtRecover(w) else w
    case Interrupt(target) =>
      if w.op.Idle? then w
      else if w.op.Finishing? then w.(op := Idle)
      else w.(op := Finishing(FailureTarget(target), External))
    case Go(input) => Advance(cfg, w, input)
  }

  /** The world after a sequence of actions. */
  ghost function Run(cfg: Config, actions: seq<Action>): World {
    if actions == [] then INIT
    else Next(cfg, Run(cfg, actions[..|actions| - 1]), actions[|actions| - 1])
  }
}
