/** Every action of the workflow keeps the invariant. */
module WorkflowSteps {
  import opened Contracts
  import opened PlanGraph
  import opened WaveScheduler
  import opened TaskStates
  import opened Tables
  import opened Transactions
  import opened Workflow
  import opened WorkflowInvariant

  // ----- The locals of an execution -----

  lemma LoadedExecOk(t: Tables, i: nat, plan: Plan)
    requires t.plans != map[] && plan == LatestPlan(t) && Clean(t)
    ensures !Uncertain(t, plan) && ExecOk(t, LoadProgress(i, t, plan), None)
  {
    var x := LoadProgress(i, t, plan);
    assert Ids(plan.steps) - x.completed - FailedIds(x) == Ids(plan.steps) - x.completed;
  }

  /** The scheduler finds a runnable step, and its ready list fits the locals. */
  lemma ReadyExecOk(t: Tables, x: Exec)
    requires ExecOk(t, x, None) && Accepted(x.plan.steps) && x.remaining != [] && x.failed.None?
    ensures Ready(x.remaining, x.completed) != []
    ensures ExecOk(t, x.(ready := Ready(x.remaining, x.completed)), None)
  {
    assert Ids(x.plan.steps) - x.completed - FailedIds(x) == Ids(x.plan.steps) - x.completed;
    RemainingCovers(x.plan.steps, x.completed);
    AlwaysReady(x.plan.steps, x.completed, x.remaining);
    PickUnique(x.plan.steps, Ids(x.plan.steps) - x.completed);
    ReadyUnique(x.remaining, x.completed);
  }

  lemma TakeReady(t: Tables, x: Exec)
    requires ExecOk(t, x, None) && x.ready != []
    ensures x.failed.None?
    ensures var x', s := x.(ready := x.ready[1..]), x.ready[0];
            && ExecOk(t, x', None) && s in x.remaining && s.dependsOn <= x.completed
            && forall r :: r in x'.ready ==> r.id != s.id
  {
    var rest := x.ready[1..];
    assert forall i :: 0 <= i < |rest| ==> rest[i] == x.ready[i + 1];
    assert x.ready[0] in x.ready;
  }

  /** What the reservation relies on: the step is pending, so it has no call, and its dependencies are done. */
  lemma ReadyToReserve(t: Tables, v: nat, x: Exec, s: Step)
    requires TablesOk(t) && v in t.plans && x.plan == t.plans[v] && ExecOk(t, x, None)
    requires s in x.remaining && s.dependsOn <= x.completed
    ensures s in x.plan.steps && StatusIs(t, x.plan, s.id, StepPending)
    ensures KeyOf(x.plan, s) !in t.calls && RecordOf(x.plan, s) in t.steps
    ensures forall d :: d in s.dependsOn ==> StatusIs(t, x.plan, d, StepSucceeded)
  {
    hide PlansOk, Accepted;
    RecordExists(t, v, s);
  }

  lemma ReserveExecOk(t: Tables, x: Exec, s: Step)
    requires ExecOk(t, x, None) && s in x.remaining && x.failed.None? && UniqueIds(x.plan.steps)
    requires forall r :: r in x.ready ==> r.id != s.id
    ensures ExecOk(ReserveCall(t, x.plan, s), x, Some(s.id))
  {
    var t' := ReserveCall(t, x.plan, s);
    assert SucceededIds(t', x.plan) == SucceededIds(t, x.plan) by {
      forall r | r in x.plan.steps
          ensures StatusIs(t', x.plan, r.id, StepSucceeded) == StatusIs(t, x.plan, r.id, StepSucceeded) {
        assert RecordOf(x.plan, r) == RecordOf(x.plan, s) ==> r.id == s.id;
      }
    }
    forall r | r in x.remaining
        ensures StatusIs(t', x.plan, r.id, if Some(s.id) == Some(r.id) then StepRunning else StepPending) {
    }
  }

  lemma EvidenceSnoc(evidence: seq<StepKey>, record: StepKey)
    ensures EvidenceOf(evidence + [record], record.planId) == EvidenceOf(evidence, record.planId) + [record.stepId]
  {
    assert (evidence + [record])[..|evidence|] == evidence;
  }

  lemma AbsorbRemaining(x: Exec, id: string, checkFailed: bool)
    requires x.failed.None? && x.remaining == Pick(x.plan.steps, Ids(x.plan.steps) - x.completed - FailedIds(x))
    ensures var x' := Absorb(x, id, checkFailed);
            x'.remaining == Pick(x.plan.steps, Ids(x.plan.steps) - x'.completed - FailedIds(x'))
  {
    var x' := Absorb(x, id, checkFailed);
    assert Ids(x.plan.steps) - x.completed - FailedIds(x) == Ids(x.plan.steps) - x.completed;
    PopRemaining(x.plan.steps, x.completed, id);
    assert Ids(x.plan.steps) - x'.completed - FailedIds(x') == Ids(x.plan.steps) - (x.completed + {id});
  }

  lemma FinishedIds(t: Tables, x: Exec, s: Step, checkFailed: bool)
    requires ExecOk(t, x, Some(s.id)) && s in x.remaining
    ensures SucceededIds(FinishCall(t, x.plan, s, checkFailed), x.plan)
         == x.completed + if checkFailed then {} else {s.id}
  {
    var t' := FinishCall(t, x.plan, s, checkFailed);
    forall r | r in x.plan.steps
      ensures StatusIs(t', x.plan, r.id, StepSucceeded)
           == if r.id == s.id then !checkFailed else StatusIs(t, x.plan, r.id, StepSucceeded)
    {
    }
    assert StatusIs(t, x.plan, s.id, StepRunning);
  }

  lemma FinishExecOk(t: Tables, x: Exec, s: Step, checkFailed: bool)
    requires ExecOk(t, x, Some(s.id)) && s in x.remaining && x.failed.None?
    requires multiset(t.evidence)[RecordOf(x.plan, s)] == 0
    ensures ExecOk(FinishCall(t, x.plan, s, checkFailed), Absorb(x, s.id, checkFailed), None)
  {
    hide UniqueIds, StatusIs, SucceededIds, EvidenceOf, Pick, Ids;
    FinishedIds(t, x, s, checkFailed);
    EvidenceSnoc(t.evidence, RecordOf(x.plan, s));
    AbsorbRemaining(x, s.id, checkFailed);
    FinishRemaining(t, x, s, checkFailed);
    NotCompleted(t, x, s);
    FinishedReady(x, s.id, checkFailed);
    FinishedStatus(t, x, s);
  }

  lemma FinishedReady(x: Exec, id: string, checkFailed: bool)
    requires UniqueIds(x.ready)
    ensures UniqueIds(Absorb(x, id, checkFailed).ready)
  {
  }

  lemma FinishedStatus(t: Tables, x: Exec, s: Step)
    requires s in x.plan.steps && multiset(t.evidence)[RecordOf(x.plan, s)] == 0
    ensures var t' := FinishCall(t, x.plan, s, true);
            && StatusIs(t', x.plan, s.id, StepFailed) && s.id in Ids(x.plan.steps)
            && multiset(t'.evidence)[RecordOf(x.plan, s)] == 1
  {
  }

  lemma NotCompleted(t: Tables, x: Exec, s: Step)
    requires ExecOk(t, x, Some(s.id)) && s in x.remaining
    ensures s.id !in x.completed && s in x.plan.steps
  {
    assert StatusIs(t, x.plan, s.id, StepRunning);
  }

  lemma FinishRemaining(t: Tables, x: Exec, s: Step, checkFailed: bool)
    requires ExecOk(t, x, Some(s.id)) && s in x.remaining && x.failed.None?
    ensures var t', x' := FinishCall(t, x.plan, s, checkFailed), Absorb(x, s.id, checkFailed);
            && (forall r :: r in x'.remaining ==> StatusIs(t', x.plan, r.id, StepPending))
            && (forall r :: r in x'.ready ==> r in x'.remaining && r.dependsOn <= x'.completed)
  {
    var t', x' := FinishCall(t, x.plan, s, checkFailed), Absorb(x, s.id, checkFailed);
    forall r | r in x'.remaining ensures StatusIs(t', x.plan, r.id, StepPending) {
      assert r in x.remaining && r.id != s.id;
    }
    forall r | r in x'.ready ensures r in x'.remaining && r.dependsOn <= x'.completed {
      assert r in x.ready && r in x.remaining && r.id in Ids(x.remaining) - {s.id};
    }
  }

  // ----- One lemma per atomic step of the operation -----

  lemma HeadKeeps(cfg: Config, w: World)
    requires Inv(cfg, w) && w.op.Head?
    ensures Inv(cfg, AtHead(cfg, w))
  {
    hide TablesOk, LogOk, BudgetOk, HistoryOk;
  }

  lemma RunLockKeeps(cfg: Config, w: World)
    requires Inv(cfg, w) && w.op.RunLock?
    ensures Inv(cfg, AtRunLock(cfg, w))
  {
    hide TablesOk, BudgetOk, HistoryOk;
    if !w.db.row.cancelRequested {
      MoveKeeps(cfg.limits, w.db, ANALYZING);
      assert AtRunLock(cfg, w).db == Move(w.db, ANALYZING);
    } else if !cfg.refresh && !w.op.seen.cancelRequested {
      StaleLockKeeps(cfg, w);
    }
  }

  /** A lock that returns the stale row moves a cancelled task to ANALYZING. */
  lemma StaleLockKeeps(cfg: Config, w: World)
    requires Inv(cfg, w) && StaleLock(cfg, w, Go(Tick))
    ensures var w' := AtRunLock(cfg, w);
            && w'.db == w.db.(row := Row(ANALYZING, w.op.seen.version + 1, true),
                              events := w.db.events + [Event(PENDING, ANALYZING)])
            && w'.op == Analyzing(0) && DbInv(cfg.limits, w'.db)
  {
    hide TablesOk, HistoryOk, Exceeds;
  }

  lemma AnalyzingKeeps(cfg: Config, w: World, input: Input)
    requires Inv(cfg, w) && w.op.Analyzing? && input.Planned?
    ensures Inv(cfg, AtAnalyzing(cfg, w, input))
  {
    hide DbInv, StoreFirstPlan, WellFormed, Clean;
    if WellFormed(input.plan) {
      FirstPlanKeeps(cfg.limits, w.db, input.plan, input.usages, input.validated);
    }
  }

  lemma LoadingKeeps(cfg: Config, w: World)
    requires Inv(cfg, w) && w.op.Loading?
    ensures Inv(cfg, AtLoading(w))
  {
    hide DbInv, HistoryOk, Clean;
  }

  lemma ProgressingKeeps(cfg: Config, w: World)
    requires Inv(cfg, w) && w.op.Progressing?
    ensures Inv(cfg, AtProgressing(w))
  {
    hide DbInv, HistoryOk, Clean, ExecOk, Uncertain;
    LoadedExecOk(w.db.tables, w.op.iter, w.op.plan);
    assert LoadProgress(w.op.iter, w.db.tables, w.op.plan).plan == w.op.plan;
  }

  lemma LatestAccepted(limits: Limits, db: Database, iter: nat, plan: Plan)
    requires DbInv(limits, db) && OnLatest(limits, db, iter, plan)
    ensures var v := LatestVersion(db.tables);
            v in db.tables.plans && db.tables.plans[v] == plan && plan.version == v && Accepted(plan.steps)
                && UniqueIds(plan.steps)
  {
  }

  lemma SchedulingKeeps(cfg: Config, w: World)
    requires Inv(cfg, w) && w.op.Scheduling?
    ensures Inv(cfg, AtScheduling(w))
  {
    hide DbInv, HistoryOk, ExecOk, OnLatest, Accepted, UniqueIds, Ready;
    var x := w.op.x;
    LatestAccepted(cfg.limits, w.db, x.iter, x.plan);
    if x.ready != [] {
      TakeReady(w.db.tables, x);
      KeepsPlan(cfg.limits, w.db, x, x.(ready := x.ready[1..]));
    } else if x.remaining != [] && x.failed.None? {
      ReadyExecOk(w.db.tables, x);
      KeepsPlan(cfg.limits, w.db, x, x.(ready := Ready(x.remaining, x.completed)));
    }
  }

  lemma KeepsPlan(limits: Limits, db: Database, x: Exec, x': Exec)
    requires OnLatest(limits, db, x.iter, x.plan) && x'.plan == x.plan && x'.iter == x.iter
    ensures OnLatest(limits, db, x'.iter, x'.plan)
  {
  }

  /** A write to the rows of a stored plan keeps the durable invariant and the latest plan. */
  lemma TablesWrite(limits: Limits, db: Database, t: Tables, iter: nat, plan: Plan)
    requires DbInv(limits, db) && At(db, EXECUTING) && OnLatest(limits, db, iter, plan)
    requires TablesOk(t) && t.plans == db.tables.plans
    ensures DbInv(limits, db.(tables := t)) && OnLatest(limits, db.(tables := t), iter, plan)
  {
    hide TablesOk, Linked, Exceeds;
    assert LatestVersion(t) == LatestVersion(db.tables);
  }

  /** The reservation always takes the branch that inserts a new started call. */
  lemma ReserveIsNew(cfg: Config, w: World)
    requires Inv(cfg, w) && w.op.Reserving?
    ensures var t := ReserveCall(w.db.tables, w.op.x.plan, w.op.step);
            && TablesOk(t) && KeyOf(w.op.x.plan, w.op.step) !in w.db.tables.calls
            && ReserveStep(w.db, w.op.x.plan.version, w.op.step) == Reserved(w.db.(tables := t))
  {
    hide TablesOk, ExecOk, OnLatest, Accepted, UniqueIds;
    var x, s, t := w.op.x, w.op.step, w.db.tables;
    LatestAccepted(cfg.limits, w.db, x.iter, x.plan);
    ReadyToReserve(t, x.plan.version, x, s);
    ReserveKeeps(t, x.plan.version, s);
  }

  lemma ReservingKeeps(cfg: Config, w: World)
    requires Inv(cfg, w) && w.op.Reserving?
    ensures Inv(cfg, AtReserving(w))
  {
    hide DbInv, TablesOk, ExecOk, OnLatest, Accepted, UniqueIds;
    var x, s := w.op.x, w.op.step;
    LatestAccepted(cfg.limits, w.db, x.iter, x.plan);
    ReserveIsNew(cfg, w);
    hide ReserveStep;
    ReserveExecOk(w.db.tables, x, s);
    TablesWrite(cfg.limits, w.db, ReserveCall(w.db.tables, x.plan, s), x.iter, x.plan);
  }

  lemma InvokingKeeps(cfg: Config, w: World, input: Input)
    requires Inv(cfg, w) && (w.op.Invoking? || w.op.Running?)
    ensures w.op.Invoking? ==> Inv(cfg, AtInvoking(w, input))
    ensures w.op.Running? ==> Inv(cfg, AtRunning(w, input))
  {
    hide DbInv, Executes;
  }

  /** A step in flight is running in the tables, and both ways of ending it are the plain table writes. */
  lemma InFlightWrites(cfg: Config, db: Database, x: Exec, s: Step, checkFailed: bool)
    requires DbInv(cfg.limits, db) && StepInFlight(cfg.limits, db, x, s)
    ensures var t, t' := FailCall(db.tables, x.plan, s), FinishCall(db.tables, x.plan, s, checkFailed);
            && TablesOk(t) && RecordFailure(db, x.plan.version, s) == db.(tables := t)
            && TablesOk(t') && RecordResult(db, x.plan.version, s, checkFailed) == Commit(db.(tables := t'))
    ensures multiset(db.tables.evidence)[RecordOf(x.plan, s)] == 0
  {
    LatestAccepted(cfg.limits, db, x.iter, x.plan);
    hide PlansOk, OnLatest, Accepted;
    assert s in x.plan.steps && IsRunning(db.tables, x.plan, s);
    hide ExecOk;
    RecordExists(db.tables, x.plan.version, s);
    hide RowsOk;
    FailKeeps(db.tables, x.plan.version, s);
    FinishKeeps(db.tables, x.plan.version, s, checkFailed);
  }

  lemma FailRecordingKeeps(cfg: Config, w: World)
    requires Inv(cfg, w) && w.op.FailRecording?
    ensures Inv(cfg, AtFailRecording(w))
  {
    hide DbInv, TablesOk, ExecOk, OnLatest, RecordFailure, RecordResult, FinishCall;
    var x, s := w.op.x, w.op.step;
    InFlightWrites(cfg, w.db, x, s, false);
    TablesWrite(cfg.limits, w.db, FailCall(w.db.tables, x.plan, s), x.iter, x.plan);
  }

  lemma RecordingKeeps(cfg: Config, w: World)
    requires Inv(cfg, w) && w.op.Recording?
    ensures Inv(cfg, AtRecording(w))
  {
    hide DbInv, TablesOk, ExecOk, OnLatest, Accepted, UniqueIds, RecordFailure, RecordResult, FailCall;
    var x, s, checkFailed := w.op.x, w.op.step, w.op.checkFailed;
    LatestAccepted(cfg.limits, w.db, x.iter, x.plan);
    InFlightWrites(cfg, w.db, x, s, checkFailed);
    FinishExecOk(w.db.tables, x, s, checkFailed);
    TablesWrite(cfg.limits, w.db, FinishCall(w.db.tables, x.plan, s, checkFailed), x.iter, x.plan);
  }

  lemma ClosingKeeps(cfg: Config, w: World)
    requires Inv(cfg, w) && w.op.Closing?
    ensures Inv(cfg, AtClosing(w))
  {
    hide TablesOk, ExecOk, HistoryOk, BudgetOk;
    if CanMove(w.db.row.state, VERIFYING) {
      MoveKeeps(cfg.limits, w.db, VERIFYING);
    }
  }

  lemma VerifyingKeeps(cfg: Config, w: World, input: Input)
    requires Inv(cfg, w) && w.op.Verifying? && input.Judged?
    ensures Inv(cfg, AtVerifying(cfg, w, input))
  {
    hide DbInv, StoreVerdict, ExecOk, HistoryOk;
    VerdictKeeps(cfg.limits, w.db, input.verdict, input.replanAdvised, input.usages);
    hide LatestVersion;
  }

  lemma ReplanStartKeeps(cfg: Config, w: World)
    requires Inv(cfg, w) && w.op.ReplanStart?
    ensures Inv(cfg, AtReplanStart(cfg, w))
  {
    hide DbInv, StartReplan, HistoryOk, LatestVersion;
    StartReplanKeeps(cfg.limits, w.db);
  }

  lemma ReplanningKeeps(cfg: Config, w: World, input: Input)
    requires Inv(cfg, w) && w.op.Replanning? && input.Planned?
    ensures Inv(cfg, AtReplanning(cfg, w, input))
  {
    hide DbInv, StoreReplan, LatestVersion, Clean;
    var plan := input.plan.(version := w.op.version);
    if WellFormed(input.plan) {
      ReplanKeeps(cfg.limits, w.db, plan, input.usages);
    }
  }

  lemma AdvanceKeeps(cfg: Config, w: World, input: Input)
    requires Inv(cfg, w)
    ensures Inv(cfg, Advance(cfg, w, input))
  {
    hide Inv, AtHead, AtRunLock, AtAnalyzing, AtLoading, AtProgressing, AtScheduling, AtReserving, AtInvoking,
        AtRunning;
    hide AtFailRecording, AtRecording, AtClosing, AtVerifying, AtReplanStart, AtReplanning, FinishTask;
    match w.op
    case Idle =>
    case Head(_, _) => HeadKeeps(cfg, w);
    case RunStart(_) => RunStartKeeps(cfg, w);
    case RunLock(_, _) => RunLockKeeps(cfg, w);
    case Analyzing(_) => if input.Planned? { AnalyzingKeeps(cfg, w, input); }
    case Loading(_) => LoadingKeeps(cfg, w);
    case Progressing(_, _) => ProgressingKeeps(cfg, w);
    case Scheduling(_) => SchedulingKeeps(cfg, w);
    case Reserving(_, _) => ReservingKeeps(cfg, w);
    case Invoking(_, _) => InvokingKeeps(cfg, w, input);
    case Running(_, _) => InvokingKeeps(cfg, w, input);
    case FailRecording(_, _, _) => FailRecordingKeeps(cfg, w);
    case Recording(_, _, _) => RecordingKeeps(cfg, w);
    case Closing(_) => ClosingKeeps(cfg, w);
    case Verifying(_) => if input.Judged? { VerifyingKeeps(cfg, w, input); }
    case ReplanStart(_) => ReplanStartKeeps(cfg, w);
    case Replanning(_, _) => if input.Planned? { ReplanningKeeps(cfg, w, input); }
    case Finishing(target, _) => FinishingKeeps(cfg, w);
  }

  lemma RunStartKeeps(cfg: Config, w: World)
    requires Inv(cfg, w) && w.op.RunStart?
    ensures Inv(cfg, w.(op := RunLock(w.op.iter, w.db.row)))
  {
    hide TablesOk, HistoryOk, Exceeds;
  }

  lemma FinishingKeeps(cfg: Config, w: World)
    requires Inv(cfg, w) && w.op.Finishing?
    ensures Inv(cfg, World(FinishTask(w.db, w.op.target), Idle, w.invoked))
  {
    hide DbInv, HistoryOk, FinishTask;
    FinishKeepsDb(cfg.limits, w.db, w.op.target);
  }

  // ----- Actions from outside -----

  lemma CancelActionKeeps(cfg: Config, w: World)
    requires Inv(cfg, w)
    ensures Inv(cfg, Next(cfg, w, Cancel)) && Next(cfg, w, Cancel).db.row.cancelRequested
  {
    hide DbInv, HistoryOk, ExecOk, Clean, LatestVersion, CancelTask;
    CancelKeeps(cfg.limits, w.db);
    var db' := CancelTask(w.db).db;
    if w.op.RunLock? { NewTaskLock(cfg, w); }
    CancelKeepsOp(cfg, w.db, db', w.op, w.invoked);
  }

  lemma NewTaskLock(cfg: Config, w: World)
    requires Inv(cfg, w) && w.op.RunLock?
    ensures if w.db.row.cancelRequested then Terminal(w.db.row.state) else w.db.row.state == PENDING
  {
    hide TablesOk, BudgetOk, StageOk, HistoryOk, Exceeds, LatestVersion;
  }

  /** Once the row is cancelled, every state the operation expects is excused. */
  lemma CancelKeepsOp(cfg: Config, db: Database, db': Database, op: Operation, invoked: seq<CallKey>)
    requires OpInv(cfg, db, op, invoked)
    requires db'.row.cancelRequested && Terminal(db'.row.state) && db'.tables == db.tables && db'.usage == db.usage
    requires op.RunLock? ==> if db.row.cancelRequested then db'.row == db.row else db.row.version < db'.row.version
    ensures OpInv(cfg, db', op, invoked)
  {
    hide ExecOk, Clean, LatestVersion;
  }

  lemma ScheduleKeeps(cfg: Config, w: World)
    requires Inv(cfg, w)
    ensures Inv(cfg, Next(cfg, w, Schedule))
  {
    hide DbInv, HistoryOk, LatestVersion;
  }

  lemma LatestPositive(limits: Limits, db: Database)
    requires DbInv(limits, db) && db.row.state == EXECUTING
    ensures 1 <= LatestVersion(db.tables)
  {
    hide RowsOk, Accepted;
    assert LatestVersion(db.tables) in db.tables.plans;
  }

  lemma RecoverActionKeeps(cfg: Config, w: World)
    requires Inv(cfg, w)
    ensures Inv(cfg, Next(cfg, w, Recover))
  {
    hide DbInv, HistoryOk, LatestVersion, Clean, RecoverTask;
    if w.op.Idle? && !Terminal(w.db.row.state) {
      RecoverKeeps(cfg.limits, w.db);
      if w.db.row.state == EXECUTING {
        LatestPositive(cfg.limits, w.db);
      }
    }
  }

  lemma InterruptKeeps(cfg: Config, w: World, a: Action)
    requires Inv(cfg, w) && (a.Crash? || a.Interrupt?)
    ensures Inv(cfg, Next(cfg, w, a))
  {
    hide DbInv, HistoryOk, ExecOk, Clean;
  }

  lemma NextKeeps(cfg: Config, w: World, a: Action)
    requires Inv(cfg, w)
    ensures Inv(cfg, Next(cfg, w, a))
  {
    hide Inv, Advance;
    match a
    case Schedule => ScheduleKeeps(cfg, w);
    case Cancel => CancelActionKeeps(cfg, w);
    case Crash => InterruptKeeps(cfg, w, a);
    case Recover => RecoverActionKeeps(cfg, w);
    case Interrupt(_) => InterruptKeeps(cfg, w, a);
    case Go(input) => AdvanceKeeps(cfg, w, input);
  }

  predicate ValidLimits(limits: Limits) {
    0.0 <= limits.maxCost
  }

  lemma InitOk(cfg: Config)
    requires ValidLimits(cfg.limits)
    ensures Inv(cfg, INIT)
  {
  }

  /** The invariant holds in every world that a sequence of actions reaches. */
  lemma {:induction false} Reachable(cfg: Config, actions: seq<Action>)
    requires ValidLimits(cfg.limits)
    ensures Inv(cfg, Run(cfg, actions))
  {
    hide Inv, Next;
    if actions == [] {
      InitOk(cfg);
    } else {
      Reachable(cfg, actions[..|actions| - 1]);
      NextKeeps(cfg, Run(cfg, actions[..|actions| - 1]), actions[|actions| - 1]);
    }
  }

  // ----- The log -----

  /** Operations whose step may move the row. */
  predicate MovesRow(op: Operation) {
    op.RunLock? || op.Analyzing? || op.Closing? || op.Verifying? || op.ReplanStart? || op.Replanning? || op.Finishing?
  }

  lemma RowKept(cfg: Config, w: World, input: Input)
    requires !MovesRow(w.op)
    ensures Advance(cfg, w, input).db.row == w.db.row && Advance(cfg, w, input).db.events == w.db.events
  {
    hide LatestVersion, Uncertain, LoadProgress, Ready, Absorb;
  }

  lemma AdvanceFaithful(cfg: Config, w: World, input: Input)
    requires Inv(cfg, w) && Faithful(w.db) && !StaleLock(cfg, w, Go(input))
    ensures Faithful(Advance(cfg, w, input).db)
  {
    if MovesRow(w.op) {
      MovedFaithful(cfg, w, input);
    } else {
      RowKept(cfg, w, input);
      hide Advance, Inv, Linked, Terminal;
    }
  }

  lemma MovedFaithful(cfg: Config, w: World, input: Input)
    requires Inv(cfg, w) && Faithful(w.db) && !StaleLock(cfg, w, Go(input)) && MovesRow(w.op)
    ensures Faithful(Advance(cfg, w, input).db)
  {
    hide Inv, Faithful, AtRunLock, AtAnalyzing, AtClosing, AtVerifying, AtReplanStart, AtReplanning, FinishTask;
    match w.op
    case RunLock(_, _) => LockFaithful(cfg, w, input);
    case Analyzing(_) => if input.Planned? { AnalyzingFaithful(cfg, w, input); }
    case Closing(_) => ClosingFaithful(cfg, w);
    case Verifying(_) => if input.Judged? { VerifyingFaithful(cfg, w, input); }
    case ReplanStart(_) => ReplanStartFaithful(cfg, w);
    case Replanning(_, _) => if input.Planned? { ReplanningFaithful(cfg, w, input); }
    case Finishing(target, _) => FinishingFaithful(w.db, target);
  }

  lemma LockFaithful(cfg: Config, w: World, input: Input)
    requires Inv(cfg, w) && Faithful(w.db) && !StaleLock(cfg, w, Go(input)) && w.op.RunLock?
    ensures Faithful(AtRunLock(cfg, w).db)
  {
    hide TablesOk, HistoryOk, BudgetOk, StageOk, LogOk, Exceeds;
    if !w.db.row.cancelRequested {
      MoveKeepsLog(w.db, ANALYZING);
      assert AtRunLock(cfg, w).db == Move(w.db, ANALYZING);
    }
  }

  lemma AnalyzingFaithful(cfg: Config, w: World, input: Input)
    requires Inv(cfg, w) && Faithful(w.db) && w.op.Analyzing? && input.Planned?
    ensures Faithful(AtAnalyzing(cfg, w, input).db)
  {
    hide TablesOk, HistoryOk, BudgetOk, StageOk, LogOk, Exceeds, InsertPlan, CanInsert, WellFormed;
    if w.db.row.state == ANALYZING {
      FirstPlanKeepsLog(w.db, cfg.limits, input.plan, input.usages, input.validated);
    }
  }

  lemma ClosingFaithful(cfg: Config, w: World)
    requires Inv(cfg, w) && Faithful(w.db) && w.op.Closing?
    ensures Faithful(AtClosing(w).db)
  {
    hide Inv, LogOk;
    TryMoveKeepsLog(w.db, VERIFYING);
  }

  lemma VerifyingFaithful(cfg: Config, w: World, input: Input)
    requires Inv(cfg, w) && Faithful(w.db) && w.op.Verifying? && input.Judged?
    ensures Faithful(AtVerifying(cfg, w, input).db)
  {
    hide Inv, LogOk, Exceeds, VerdictTarget;
    VerdictKeepsLog(w.db, cfg.limits, w.op.x.plan.planId, input.verdict, input.replanAdvised, input.usages);
  }

  lemma ReplanStartFaithful(cfg: Config, w: World)
    requires Inv(cfg, w) && Faithful(w.db) && w.op.ReplanStart?
    ensures Faithful(AtReplanStart(cfg, w).db)
  {
    hide Inv, LogOk, LatestVersion;
    TryMoveKeepsLog(w.db, NEEDS_REVIEW);
  }

  lemma ReplanningFaithful(cfg: Config, w: World, input: Input)
    requires Inv(cfg, w) && Faithful(w.db) && w.op.Replanning? && input.Planned?
    ensures Faithful(AtReplanning(cfg, w, input).db)
  {
    hide TablesOk, HistoryOk, BudgetOk, StageOk, LogOk, Exceeds, InsertPlan, CanInsert, WellFormed, LatestVersion, Fits;
    if w.db.row.state == REPLANNING {
      ReplanKeepsLog(w.db, cfg.limits, input.plan.(version := w.op.version), input.usages);
    }
  }

  lemma FinishingFaithful(db: Database, target: TaskState)
    requires Faithful(db)
    ensures Faithful(FinishTask(db, target))
  {
    hide LogOk;
    TryMoveKeepsLog(db, target);
  }

  lemma NextFaithful(cfg: Config, w: World, a: Action)
    requires Inv(cfg, w) && Faithful(w.db) && !StaleLock(cfg, w, a)
    ensures Faithful(Next(cfg, w, a).db)
  {
    hide Inv, Advance, LogOk, CancelTask, RecoverTask, Terminal;
    match a
    case Cancel => CancelKeeps(cfg.limits, w.db) by { DurablePart(cfg, w); }
    case Recover => RecoverFaithful(cfg, w);
    case Go(input) => AdvanceFaithful(cfg, w, input);
    case _ =>
  }

  lemma DurablePart(cfg: Config, w: World)
    requires Inv(cfg, w)
    ensures DbInv(cfg.limits, w.db)
  {
  }

  lemma RecoverFaithful(cfg: Config, w: World)
    requires Inv(cfg, w) && Faithful(w.db)
    ensures Faithful(Next(cfg, w, Recover).db)
  {
    hide DbInv, HistoryOk, OpInv, LogOk, HasUncertainCall;
    if w.op.Idle? && !Terminal(w.db.row.state) {
      RecoverKeeps(cfg.limits, w.db);
      if CanMove(w.db.row.state, NEEDS_REVIEW) { MoveKeepsLog(w.db, NEEDS_REVIEW); }
    }
  }

  /** An event follows the one that ended the task. */
  ghost predicate Reopened(events: seq<Event>) {
    exists i :: 0 <= i < |events| - 1 && Terminal(events[i].to)
  }

  lemma EventsGrow(cfg: Config, w: World, a: Action)
    ensures w.db.events <= Next(cfg, w, a).db.events
  {
    hide LatestVersion, Uncertain, LoadProgress, Ready, Absorb, WellFormed, CanInsert, InsertPlan, Exceeds,
        HasUncertainCall, Terminal;
  }

  lemma StaleLockBreaks(cfg: Config, w: World, a: Action)
    requires Inv(cfg, w) && Faithful(w.db) && StaleLock(cfg, w, a)
    ensures Reopened(Next(cfg, w, a).db.events)
  {
    hide DbInv, HistoryOk, OpInv;
    StaleLockStep(cfg, w, a);
    var events := Next(cfg, w, a).db.events;
    var n := |w.db.events|;
    assert Terminal(events[n - 1].to);
  }

  /** A stale lock takes a row that had ended as cancelled back to ANALYZING. */
  lemma StaleLockStep(cfg: Config, w: World, a: Action)
    requires Inv(cfg, w) && StaleLock(cfg, w, a)
    ensures Terminal(w.db.row.state) && w.db.row.cancelRequested
    ensures var db := Next(cfg, w, a).db;
            && db.events == w.db.events + [Event(PENDING, ANALYZING)]
            && db.row.state == ANALYZING && db.row.cancelRequested
  {
    hide TablesOk, HistoryOk, Exceeds;
    NewTaskLock(cfg, w);
    StaleLockKeeps(cfg, w);
    hide AtRunLock;
  }

  /** The log describes the row exactly in the runs without a stale lock; otherwise it goes on after its end. */
  lemma {:induction false} FaithfulIffNeverStale(cfg: Config, actions: seq<Action>)
    requires ValidLimits(cfg.limits)
    ensures NeverStale(cfg, actions) ==> Faithful(Run(cfg, actions).db)
    ensures !NeverStale(cfg, actions) ==> Reopened(Run(cfg, actions).db.events)
  {
    hide Inv, Next, StaleLock, Faithful, Reopened;
    if actions == [] {
      StartsFaithful(cfg);
    } else {
      var init, a := actions[..|actions| - 1], actions[|actions| - 1];
      assert forall i :: 0 <= i < |init| ==> init[..i] == actions[..i];
      FaithfulIffNeverStale(cfg, init);
      Reachable(cfg, init);
      var w := Run(cfg, init);
      if NeverStale(cfg, init) {
        if StaleLock(cfg, w, a) { StaleLockBreaks(cfg, w, a); } else { NextFaithful(cfg, w, a); }
      } else {
        EventsGrow(cfg, w, a);
        StaysReopened(w.db.events, Next(cfg, w, a).db.events);
      }
    }
  }

  lemma StartsFaithful(cfg: Config)
    ensures Faithful(Run(cfg, []).db)
  {
  }

  lemma StaysReopened(events: seq<Event>, more: seq<Event>)
    requires Reopened(events) && events <= more
    ensures Reopened(more)
  {
    var i :| 0 <= i < |events| - 1 && Terminal(events[i].to);
    assert Terminal(more[i].to);
  }
}
