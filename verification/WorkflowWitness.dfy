/**
 Concrete runs of the workflow: one that reaches the bound of the state loop for every number of
 revisions, and one that shows what a locking read that keeps a stale copy would break.
 */
module WorkflowWitness {
  import opened Contracts
  import opened PlanGraph
  import opened WaveScheduler
  import opened TaskStates
  import opened Tables
  import opened Transactions
  import opened Workflow
  import opened WorkflowInvariant
  import opened WorkflowSteps
  import opened WorkflowTheorems

  // ----- The bound is reached -----

  const ONLY := Step("only", {}, "run_check", Arguments(None, ""), Low, true)

  function Solo(v: nat): Plan {
    Plan(v, 0, v, [ONLY])
  }

  lemma SoloWellFormed(v: nat)
    requires 1 <= v
    ensures WellFormed(Solo(v))
  {
    var steps := [ONLY];
    assert ONLY in steps;
    GraphOfEdges(steps, ONLY);
    GraphOfKeys(steps);
    RankedIsAcyclic(GraphOf(steps), map["only" := 0]);
  }

  /** A live task without usage whose plans so far are the one-step plans 1 to v. */
  ghost predicate SoloDb(db: Database, state: TaskState, v: nat) {
    && db.row.state == state && !db.row.cancelRequested && db.usage == []
    && 1 <= v && (forall u :: u in db.tables.plans <==> 1 <= u <= v)
    && (forall u :: u in db.tables.plans ==> db.tables.plans[u] == Solo(u))
  }

  lemma SoloLatest(t: Tables, v: nat)
    requires 1 <= v && (forall u :: u in t.plans <==> 1 <= u <= v)
    requires forall u :: u in t.plans ==> t.plans[u] == Solo(u)
    ensures t.plans != map[] && LatestVersion(t) == v && LatestPlan(t) == Solo(v)
  {
    assert v in t.plans;
  }

  lemma PickOne(s: Step, ids: set<string>)
    ensures Pick([s], ids) == if s.id in ids then [s] else []
    ensures Ids([s]) == {s.id}
  {
    assert s in [s];
    assert [s][1..] == [];
  }

  lemma ToAnalyzing(cfg: Config) returns (actions: seq<Action>)
    requires ValidLimits(cfg.limits)
    ensures Run(cfg, actions).op == Analyzing(0)
    ensures Run(cfg, actions).db.row == Row(ANALYZING, 2, false) && Run(cfg, actions).db.usage == []
    ensures Run(cfg, actions).db.tables == NO_TABLES
  {
    var a1 := [Schedule];
    RunSnoc(cfg, [], Schedule);
    assert [] + [Schedule] == a1;
    assert Run(cfg, a1) == World(NEW_TASK, Head(0, None), []);
    var a2 := a1 + [Go(Tick)];
    RunSnoc(cfg, a1, Go(Tick));
    assert Run(cfg, a2).op == RunStart(0) && Run(cfg, a2).db == NEW_TASK;
    var a3 := a2 + [Go(Tick)];
    RunSnoc(cfg, a2, Go(Tick));
    assert Run(cfg, a3).op == RunLock(0, Row(PENDING, 1, false)) && Run(cfg, a3).db == NEW_TASK;
    actions := a3 + [Go(Tick)];
    RunSnoc(cfg, a3, Go(Tick));
  }

  lemma FirstSoloPlan(cfg: Config) returns (actions: seq<Action>)
    requires ValidLimits(cfg.limits)
    ensures Run(cfg, actions).op == Head(1, Some(PENDING))
    ensures SoloDb(Run(cfg, actions).db, EXECUTING, 1)
    ensures StatusIs(Run(cfg, actions).db.tables, Solo(1), "only", StepPending)
  {
    var before := ToAnalyzing(cfg);
    var input := Planned(Solo(1), [], true);
    actions := before + [Go(input)];
    RunSnoc(cfg, before, Go(input));
    hide WellFormed, Run, StoreFirstPlan, SoloDb, StatusIs;
    SoloWellFormed(1);
    var w := Run(cfg, before);
    FirstSoloStored(cfg.limits, w.db);
    assert Next(cfg, w, Go(input)) == AtAnalyzing(cfg, w, input);
  }

  lemma FirstSoloStored(limits: Limits, db: Database)
    requires ValidLimits(limits) && db.row == Row(ANALYZING, 2, false) && db.usage == [] && db.tables == NO_TABLES
    ensures var txn := StoreFirstPlan(db, limits, Solo(1), [], true);
            && txn.Commit? && SoloDb(txn.db, EXECUTING, 1)
            && StatusIs(txn.db.tables, Solo(1), "only", StepPending)
  {
    assert db.usage + [] == [] && !Exceeds(limits, []);
    assert ONLY in Solo(1).steps;
    assert RecordOf(Solo(1), ONLY) in PendingRecords(Solo(1));
  }

  /** The volatile state of a one-step execution before, during and after its step. */
  lemma SoloLoad(i: nat, t: Tables, v: nat)
    requires StatusIs(t, Solo(v), "only", StepPending)
    ensures var x := LoadProgress(i, t, Solo(v));
            && !Uncertain(t, Solo(v)) && x.completed == {} && x.remaining == [ONLY] && x.ready == [] && x.failed.None?
            && Ready(x.remaining, x.completed) == [ONLY]
  {
    assert ONLY in [ONLY];
    assert [ONLY][1..] == [];
    PickOne(ONLY, Ids([ONLY]) - {});
  }

  lemma SoloAbsorb(x: Exec)
    requires x.remaining == [ONLY] && x.completed == {} && x.failed.None? && x.ready == []
    ensures var x' := Absorb(x, "only", false);
            x'.remaining == [] && x'.ready == [] && x'.failed.None? && x'.plan == x.plan && x'.iter == x.iter
  {
    PickOne(ONLY, Ids([ONLY]) - {"only"});
  }

  /** From the loop head in EXECUTING to the reservation of the only step. */
  lemma SoloToReserve(cfg: Config, before: seq<Action>, i: nat, previous: Option<TaskState>, v: nat)
    returns (actions: seq<Action>, x: Exec)
    requires Run(cfg, before).op == Head(i, previous) && previous != Some(EXECUTING)
    requires previous.Some? ==> i <= Bound(cfg.limits)
    requires SoloDb(Run(cfg, before).db, EXECUTING, v)
              && StatusIs(Run(cfg, before).db.tables, Solo(v), "only", StepPending)
    ensures Run(cfg, actions).op == Reserving(x, ONLY) && Run(cfg, actions).db == Run(cfg, before).db
    ensures x.plan == Solo(v) && x.iter == i && x.remaining == [ONLY] && x.completed == {} && x.failed.None?
              && x.ready == []
  {
    hide Run, Uncertain, LoadProgress, Ready, StatusIs;
    var w := Run(cfg, before);
    SoloLatest(w.db.tables, v);
    hide SoloDb, LatestVersion;
    SoloLoad(i, w.db.tables, v);
    var loaded := LoadProgress(i, w.db.tables, Solo(v));
    assert loaded.plan == Solo(v) && loaded.iter == i by { LoadedPlan(i, w.db.tables, Solo(v)); }
    var a1 := before + [Go(Tick)];
    RunSnoc(cfg, before, Go(Tick));
    assert Run(cfg, a1) == World(w.db, Loading(i), w.invoked);
    var a2 := a1 + [Go(Tick)];
    RunSnoc(cfg, a1, Go(Tick));
    assert Run(cfg, a2) == World(w.db, Progressing(i, Solo(v)), w.invoked);
    var a3 := a2 + [Go(Tick)];
    RunSnoc(cfg, a2, Go(Tick));
    assert Run(cfg, a3) == World(w.db, Scheduling(loaded), w.invoked);
    var a4 := a3 + [Go(Tick)];
    RunSnoc(cfg, a3, Go(Tick));
    assert Run(cfg, a4) == World(w.db, Scheduling(loaded.(ready := [ONLY])), w.invoked);
    actions := a4 + [Go(Tick)];
    RunSnoc(cfg, a4, Go(Tick));
    x := loaded.(ready := [ONLY][1..]);
  }

  lemma LoadedPlan(i: nat, t: Tables, plan: Plan)
    ensures LoadProgress(i, t, plan).plan == plan && LoadProgress(i, t, plan).iter == i
  {
  }

  /** From the reservation to the verifier. */
  lemma SoloToVerify(cfg: Config, before: seq<Action>, x: Exec, v: nat) returns (actions: seq<Action>, y: Exec)
    requires ValidLimits(cfg.limits) && Run(cfg, before).op == Reserving(x, ONLY)
    requires SoloDb(Run(cfg, before).db, EXECUTING, v)
    requires x.plan == Solo(v) && x.remaining == [ONLY] && x.completed == {} && x.failed.None? && x.ready == []
    ensures Run(cfg, actions).op == Verifying(y) && SoloDb(Run(cfg, actions).db, VERIFYING, v)
    ensures y.plan == Solo(v) && y.iter == x.iter
  {
    hide Run, Inv, ReserveStep, TablesOk, Next;
    var a1 := before + [Go(Tick)];
    RunSnoc(cfg, before, Go(Tick));
    Reachable(cfg, before);
    var w := Run(cfg, before);
    ReserveIsNew(cfg, w);
    NextReserving(cfg, w, Tick);
    var db1 := w.db.(tables := ReserveCall(w.db.tables, Solo(v), ONLY));
    assert Run(cfg, a1) == World(db1, Invoking(x, ONLY), w.invoked);
    actions, y := SoloFinish(cfg, a1, x, v);
  }

  lemma SoloFinish(cfg: Config, before: seq<Action>, x: Exec, v: nat) returns (actions: seq<Action>, y: Exec)
    requires Run(cfg, before).op == Invoking(x, ONLY)
    requires SoloDb(Run(cfg, before).db, EXECUTING, v) && KeyOf(Solo(v), ONLY) in Run(cfg, before).db.tables.calls
    requires x.plan == Solo(v) && x.remaining == [ONLY] && x.completed == {} && x.failed.None? && x.ready == []
    ensures Run(cfg, actions).op == Verifying(y) && SoloDb(Run(cfg, actions).db, VERIFYING, v)
    ensures y.plan == Solo(v) && y.iter == x.iter
  {
    hide Run, Absorb;
    var w := Run(cfg, before);
    y := Absorb(x, "only", false);
    SoloAbsorb(x);
    var a1 := before + [Go(Tick)];
    RunSnoc(cfg, before, Go(Tick));
    assert Run(cfg, a1).op == Running(x, ONLY) && Run(cfg, a1).db == w.db;
    var a2 := a1 + [Go(Returned(false))];
    RunSnoc(cfg, a1, Go(Returned(false)));
    assert Run(cfg, a2).op == Recording(x, ONLY, false) && Run(cfg, a2).db == w.db;
    var a3 := a2 + [Go(Tick)];
    RunSnoc(cfg, a2, Go(Tick));
    assert Run(cfg, a3).op == Scheduling(y) && SoloDb(Run(cfg, a3).db, EXECUTING, v);
    actions := SoloClose(cfg, a3, y, v);
  }

  lemma SoloClose(cfg: Config, before: seq<Action>, y: Exec, v: nat) returns (actions: seq<Action>)
    requires Run(cfg, before).op == Scheduling(y) && SoloDb(Run(cfg, before).db, EXECUTING, v)
    requires y.ready == [] && y.remaining == []
    ensures Run(cfg, actions).op == Verifying(y) && SoloDb(Run(cfg, actions).db, VERIFYING, v)
  {
    hide Run;
    var a1 := before + [Go(Tick)];
    RunSnoc(cfg, before, Go(Tick));
    assert Run(cfg, a1).op == Closing(y) && Run(cfg, a1).db == Run(cfg, before).db;
    actions := a1 + [Go(Tick)];
    RunSnoc(cfg, a1, Go(Tick));
    assert Run(cfg, actions).op == Verifying(y) && Run(cfg, actions).db == Move(Run(cfg, a1).db, VERIFYING);
  }

  /** The verifier asks for a revision; the loop head sees REPLANNING one iteration later. */
  lemma SoloVerdict(cfg: Config, before: seq<Action>, x: Exec, v: nat) returns (actions: seq<Action>)
    requires ValidLimits(cfg.limits) && Run(cfg, before).op == Verifying(x)
    requires SoloDb(Run(cfg, before).db, VERIFYING, v) && x.plan == Solo(v)
    ensures Run(cfg, actions).op == Head(x.iter + 1, Some(EXECUTING))
    ensures SoloDb(Run(cfg, actions).db, REPLANNING, v) && v in Run(cfg, actions).db.reports
  {
    hide Run;
    var input := Judged(Verdict.Failed, true, []);
    actions := before + [Go(input)];
    RunSnoc(cfg, before, Go(input));
    var w := Run(cfg, before);
    assert w.db.usage + [] == [] && !Exceeds(cfg.limits, []);
    assert Next(cfg, w, Go(input)) == AtVerifying(cfg, w, input);
  }

  /** A revision below the limit stores plan v + 1 and returns to EXECUTING. */
  lemma SoloReplan(cfg: Config, before: seq<Action>, i: nat, v: nat) returns (actions: seq<Action>)
    requires ValidLimits(cfg.limits) && Run(cfg, before).op == Head(i, Some(EXECUTING)) && i <= Bound(cfg.limits)
    requires SoloDb(Run(cfg, before).db, REPLANNING, v) && v in Run(cfg, before).db.reports
              && v <= cfg.limits.maxRevisions
    ensures Run(cfg, actions).op == Head(i + 1, Some(REPLANNING))
    ensures SoloDb(Run(cfg, actions).db, EXECUTING, v + 1)
    ensures StatusIs(Run(cfg, actions).db.tables, Solo(v + 1), "only", StepPending)
  {
    hide Run, LatestVersion;
    var w := Run(cfg, before);
    SoloLatest(w.db.tables, v);
    var a1 := before + [Go(Tick)];
    RunSnoc(cfg, before, Go(Tick));
    assert Run(cfg, a1).op == ReplanStart(i) && Run(cfg, a1).db == w.db;
    var a2 := a1 + [Go(Tick)];
    RunSnoc(cfg, a1, Go(Tick));
    assert Run(cfg, a2).op == Replanning(i, v + 1) && Run(cfg, a2).db == w.db;
    actions := SoloStore(cfg, a2, i, v);
  }

  lemma SoloStore(cfg: Config, before: seq<Action>, i: nat, v: nat) returns (actions: seq<Action>)
    requires ValidLimits(cfg.limits) && Run(cfg, before).op == Replanning(i, v + 1)
    requires SoloDb(Run(cfg, before).db, REPLANNING, v)
    ensures Run(cfg, actions).op == Head(i + 1, Some(REPLANNING))
    ensures SoloDb(Run(cfg, actions).db, EXECUTING, v + 1)
    ensures StatusIs(Run(cfg, actions).db.tables, Solo(v + 1), "only", StepPending)
  {
    hide Run, WellFormed, Next, StatusIs, StoreReplan, SoloDb;
    SoloWellFormed(v + 1);
    var w := Run(cfg, before);
    var input := Planned(Solo(v + 1), [], true);
    actions := before + [Go(input)];
    RunSnoc(cfg, before, Go(input));
    NextReplanning(cfg, w, input);
    SoloStored(cfg.limits, w.db, v);
  }

  lemma NextReplanning(cfg: Config, w: World, input: Input)
    requires w.op.Replanning? && input.Planned?
    ensures Next(cfg, w, Go(input)) == AtReplanning(cfg, w, input)
  {
    hide AtReplanning;
  }

  lemma SoloStored(limits: Limits, db: Database, v: nat)
    requires ValidLimits(limits) && SoloDb(db, REPLANNING, v)
    ensures var txn := StoreReplan(db, limits, Solo(v + 1), []);
            && txn.Commit? && SoloDb(txn.db, EXECUTING, v + 1)
            && StatusIs(txn.db.tables, Solo(v + 1), "only", StepPending)
  {
    assert db.usage + [] == [] && !Exceeds(limits, []);
    assert ONLY in Solo(v + 1).steps;
    assert RecordOf(Solo(v + 1), ONLY) in PendingRecords(Solo(v + 1));
    assert CanInsert(db.tables, Solo(v + 1));
  }

  /** One more revision at the limit ends in NEEDS_REVIEW. */
  lemma SoloLimit(cfg: Config, before: seq<Action>, i: nat, v: nat) returns (actions: seq<Action>)
    requires Run(cfg, before).op == Head(i, Some(EXECUTING)) && i <= Bound(cfg.limits)
    requires SoloDb(Run(cfg, before).db, REPLANNING, v) && v == cfg.limits.maxRevisions + 1
    ensures Run(cfg, actions).op == Head(i + 1, Some(REPLANNING))
  {
    hide Run, LatestVersion;
    var w := Run(cfg, before);
    SoloLatest(w.db.tables, v);
    var a1 := before + [Go(Tick)];
    RunSnoc(cfg, before, Go(Tick));
    assert Run(cfg, a1).op == ReplanStart(i) && Run(cfg, a1).db == w.db;
    actions := a1 + [Go(Tick)];
    RunSnoc(cfg, a1, Go(Tick));
  }

  lemma SoloExecute(cfg: Config, before: seq<Action>, i: nat, previous: Option<TaskState>, v: nat)
    returns (actions: seq<Action>)
    requires ValidLimits(cfg.limits)
    requires Run(cfg, before).op == Head(i, previous) && previous != Some(EXECUTING)
              && (previous.Some? ==> i <= Bound(cfg.limits))
    requires SoloDb(Run(cfg, before).db, EXECUTING, v)
              && StatusIs(Run(cfg, before).db.tables, Solo(v), "only", StepPending)
    ensures Run(cfg, actions).op == Head(i + 1, Some(EXECUTING))
    ensures SoloDb(Run(cfg, actions).db, REPLANNING, v) && v in Run(cfg, actions).db.reports
  {
    hide Run, SoloDb, StatusIs;
    var a1, x := SoloToReserve(cfg, before, i, previous, v);
    var a2, y := SoloToVerify(cfg, a1, x, v);
    actions := SoloVerdict(cfg, a2, y, v);
  }

  /** After v revisions that all failed verification, 2v iterations of the loop have finished. */
  lemma {:induction false} SoloRevisions(cfg: Config, v: nat) returns (actions: seq<Action>)
    requires ValidLimits(cfg.limits) && 1 <= v <= cfg.limits.maxRevisions + 1
    ensures Run(cfg, actions).op == Head(2 * v, Some(EXECUTING))
    ensures SoloDb(Run(cfg, actions).db, REPLANNING, v) && v in Run(cfg, actions).db.reports
  {
    hide Run, SoloDb, StatusIs;
    if v == 1 {
      var a := FirstSoloPlan(cfg);
      actions := SoloExecute(cfg, a, 1, Some(PENDING), 1);
    } else {
      var a := SoloRevisions(cfg, v - 1);
      var b := SoloReplan(cfg, a, 2 * v - 2, v - 1);
      actions := SoloExecute(cfg, b, 2 * v - 1, Some(REPLANNING), v);
    }
  }

  /** For every number of revisions some run finishes exactly 3 + 2 * max_revisions iterations. */
  lemma LoopBoundReached(cfg: Config) returns (actions: seq<Action>)
    requires ValidLimits(cfg.limits)
    ensures Run(cfg, actions).op == Head(3 + 2 * cfg.limits.maxRevisions, Some(REPLANNING))
  {
    hide Run, SoloDb;
    var v := cfg.limits.maxRevisions + 1;
    var a := SoloRevisions(cfg, v);
    actions := SoloLimit(cfg, a, 2 * v, v);
  }

  // ----- A stale locking read -----

  /**
   A cancellation that commits between the unlocked read of a new task and the lock is honoured
   exactly when the locking read returns the committed row.
   */
  lemma StaleReadIff(cfg: Config, actions: seq<Action>)
    requires ValidLimits(cfg.limits) && LogOk(Run(cfg, actions).db)
    requires Run(cfg, actions).op.RunLock? && !Run(cfg, actions).db.row.cancelRequested
    ensures var db := Run(cfg, actions + [Cancel] + [Go(Tick)]).db;
            && (LogOk(db) <==> cfg.refresh)
            && (cfg.refresh ==> db.row.state == CANCELLED)
            && (!cfg.refresh ==> db.row.state == ANALYZING && db.row.cancelRequested)
  {
    hide Run, Inv, Next, LogOk;
    Reachable(cfg, actions);
    RunSnoc(cfg, actions, Cancel);
    RunSnoc(cfg, actions + [Cancel], Go(Tick));
    StaleWorld(cfg, Run(cfg, actions));
  }

  lemma StaleWorld(cfg: Config, w: World)
    requires Inv(cfg, w) && LogOk(w.db) && w.op.RunLock? && !w.db.row.cancelRequested
    ensures var db := Next(cfg, Next(cfg, w, Cancel), Go(Tick)).db;
            && (LogOk(db) <==> cfg.refresh)
            && (cfg.refresh ==> db.row.state == CANCELLED)
            && (!cfg.refresh ==> db.row.state == ANALYZING && db.row.cancelRequested)
  {
    hide TablesOk, BudgetOk, StageOk, HistoryOk, LatestVersion;
    assert w.db.row.state == PENDING && w.op.seen == Row(PENDING, w.db.row.version, false);
    LinkedSnoc(w.db.events, PENDING, CANCELLED);
    var w1 := w.(db := Move(w.db.(row := w.db.row.(cancelRequested := true)), CANCELLED));
    assert Next(cfg, w, Cancel) == w1;
    NextRunLock(cfg, w1, Tick);
    hide Next;
  }

  lemma NextRunLock(cfg: Config, w: World, input: Input)
    requires w.op.RunLock?
    ensures Next(cfg, w, Go(input)) == AtRunLock(cfg, w)
  {
    hide AtRunLock;
  }

  /** Such a window exists: three actions after its creation a task is between the read and the lock. */
  lemma StaleWindow(cfg: Config) returns (actions: seq<Action>)
    requires ValidLimits(cfg.limits)
    ensures LogOk(Run(cfg, actions).db) && Run(cfg, actions).op.RunLock? && !Run(cfg, actions).db.row.cancelRequested
  {
    var a1 := [Schedule];
    RunSnoc(cfg, [], Schedule);
    assert [] + [Schedule] == a1;
    assert Run(cfg, a1) == World(NEW_TASK, Head(0, None), []);
    var a2 := a1 + [Go(Tick)];
    RunSnoc(cfg, a1, Go(Tick));
    assert Run(cfg, a2).op == RunStart(0) && Run(cfg, a2).db == NEW_TASK;
    actions := a2 + [Go(Tick)];
    RunSnoc(cfg, a2, Go(Tick));
  }
}
