/**
 Several background operations of one task at the same time, for instance after the task was
 scheduled twice. They share the database and take their atomic steps in any order. Much of the
 workflow's order is lost then, but the unique key of the tool calls still lets a handler run once.
 */
module WorkflowCrowd {
  import opened Contracts
  import opened PlanGraph
  import opened WaveScheduler
  import opened Tables
  import opened Transactions
  import opened Workflow

  datatype Crowd = Crowd(db: Database, ops: seq<Operation>, invoked: seq<CallKey>)

  /** One of the operations acts on the shared database, exactly as it would alone. */
  ghost function NextOf(cfg: Config, c: Crowd, i: nat, a: Action): Crowd {
    if i >= |c.ops| then c
    else
      var w := Next(cfg, World(c.db, c.ops[i], c.invoked), a);
      Crowd(w.db, c.ops[i := w.op], w.invoked)
  }

  ghost function RunAll(cfg: Config, n: nat, actions: seq<(nat, Action)>): Crowd {
    if actions == [] then Crowd(NEW_TASK, seq(n, _ => Idle), [])
    else
      var last := actions[|actions| - 1];
      NextOf(cfg, RunAll(cfg, n, actions[..|actions| - 1]), last.0, last.1)
  }

  // ----- Which rows and locals can be there -----

  predicate Known(plans: map<nat, Plan>, plan: Plan) {
    plan.version in plans && plans[plan.version] == plan
  }

  ghost predicate PlansSane(t: Tables) {
    forall v :: v in t.plans ==> t.plans[v].version == v && UniqueIds(t.plans[v].steps)
  }

  /** The key belongs to a step of a stored plan. */
  predicate Stems(t: Tables, k: CallKey) {
    k.version in t.plans && exists s :: s in t.plans[k.version].steps && KeyOf(t.plans[k.version], s) == k
  }

  ghost predicate CallsSane(t: Tables) {
    forall k :: k in t.calls ==> Stems(t, k)
  }

  predicate LocalsSane(plans: map<nat, Plan>, x: Exec) {
    && Known(plans, x.plan)
    && (forall s :: s in x.remaining ==> s in x.plan.steps) && (forall s :: s in x.ready ==> s in x.plan.steps)
  }

  ghost predicate OpSane(plans: map<nat, Plan>, op: Operation) {
    match op
    case Progressing(_, plan) => Known(plans, plan)
    case Scheduling(x) => LocalsSane(plans, x)
    case Reserving(x, s) => LocalsSane(plans, x) && s in x.plan.steps
    case Invoking(x, s) => LocalsSane(plans, x) && s in x.plan.steps
    case Running(x, s) => LocalsSane(plans, x) && s in x.plan.steps
    case FailRecording(x, s, _) => LocalsSane(plans, x) && s in x.plan.steps
    case Recording(x, s, _) => LocalsSane(plans, x) && s in x.plan.steps
    case _ => true
  }

  predicate PlansGrow(t: Tables, t': Tables) {
    (forall v :: v in t.plans ==> v in t'.plans && t'.plans[v] == t.plans[v]) && t.calls.Keys <= t'.calls.Keys
  }

  // ----- One step of one operation, whatever the others have done to the database -----

  lemma LoadedLocals(i: nat, t: Tables, plan: Plan)
    requires Known(t.plans, plan)
    ensures LocalsSane(t.plans, LoadProgress(i, t, plan))
  {
    hide SucceededIds, EvidenceOf;
  }

  lemma AbsorbedLocals(plans: map<nat, Plan>, x: Exec, id: string, checkFailed: bool)
    requires LocalsSane(plans, x)
    ensures LocalsSane(plans, Absorb(x, id, checkFailed))
  {
  }

  /** A step stores a plan under a new version, inserts the call it reserves, or touches neither kind of key. */
  ghost predicate TablesEffect(t: Tables, t': Tables, op: Operation) {
    || (t'.plans == t.plans && t'.calls.Keys == t.calls.Keys)
    || (t'.plans == t.plans && op.Reserving? && t'.calls.Keys == t.calls.Keys + {KeyOf(op.x.plan, op.step)})
    || (t'.calls == t.calls && exists plan :: StoresPlan(t, t', plan))
  }

  ghost predicate StoresPlan(t: Tables, t': Tables, plan: Plan) {
    plan.version !in t.plans && t'.plans == t.plans[plan.version := plan] && UniqueIds(plan.steps)
  }

  /** Operations whose step may write the tables. */
  predicate WritesTables(op: Operation) {
    op.Analyzing? || op.Replanning? || op.Reserving? || op.FailRecording? || op.Recording?
  }

  lemma TablesUntouched(cfg: Config, w: World, a: Action)
    requires !(a.Go? && WritesTables(w.op))
    ensures Next(cfg, w, a).db.tables == w.db.tables
  {
    hide LatestVersion, Uncertain, LoadProgress, Ready, Absorb, Exceeds, HasUncertainCall;
  }

  lemma StoringEffect(cfg: Config, w: World, input: Input)
    requires w.op.Analyzing? || w.op.Replanning?
    ensures TablesEffect(w.db.tables, Next(cfg, w, Go(input)).db.tables, w.op)
  {
    hide Exceeds, PendingRecords, Acyclic, KnownDependencies;
    var t, t' := w.db.tables, Next(cfg, w, Go(input)).db.tables;
    if input.Planned? && t'.plans != t.plans {
      var plan := if w.op.Replanning? then input.plan.(version := w.op.version) else input.plan;
      assert StoresPlan(t, t', plan);
    }
  }

  lemma CallEffect(cfg: Config, w: World, input: Input)
    requires w.op.Reserving? || w.op.FailRecording? || w.op.Recording?
    ensures TablesEffect(w.db.tables, Next(cfg, w, Go(input)).db.tables, w.op)
  {
    hide Absorb, StoresPlan;
    match w.op
    case Reserving(x, s) => ReserveEffect(w.db, x.plan, s);
    case FailRecording(x, s, _) => RecordEffect(w.db, x.plan.version, s, false);
    case Recording(x, s, checkFailed) => RecordEffect(w.db, x.plan.version, s, checkFailed);
    case _ =>
    hide ReserveStep, RecordFailure, RecordResult;
  }

  lemma ReserveEffect(db: Database, plan: Plan, s: Step)
    ensures var r := ReserveStep(db, plan.version, s);
            r.Reserved? ==>
              && r.db.tables.plans == db.tables.plans
              && r.db.tables.calls.Keys == db.tables.calls.Keys + {KeyOf(plan, s)}
  {
  }

  lemma RecordEffect(db: Database, version: nat, s: Step, checkFailed: bool)
    ensures var t := RecordFailure(db, version, s).tables;
            t.plans == db.tables.plans && t.calls.Keys == db.tables.calls.Keys
    ensures var txn := RecordResult(db, version, s, checkFailed);
            txn.Commit? ==>
              txn.db.tables.plans == db.tables.plans && txn.db.tables.calls.Keys == db.tables.calls.Keys
  {
  }

  lemma EffectOfStep(cfg: Config, w: World, a: Action)
    ensures TablesEffect(w.db.tables, Next(cfg, w, a).db.tables, w.op)
  {
    if a.Go? && WritesTables(w.op) {
      hide TablesEffect, Next;
      if w.op.Analyzing? || w.op.Replanning? {
        StoringEffect(cfg, w, a.input);
      } else {
        CallEffect(cfg, w, a.input);
      }
    } else {
      hide Next, StoresPlan;
      TablesUntouched(cfg, w, a);
    }
  }

  lemma EffectIsSane(t: Tables, t': Tables, op: Operation)
    requires PlansSane(t) && CallsSane(t) && OpSane(t.plans, op) && TablesEffect(t, t', op)
    ensures PlansSane(t') && CallsSane(t') && PlansGrow(t, t')
  {
    forall k | k in t'.calls ensures Stems(t', k) {
      if k in t.calls {
        assert Stems(t, k);
      }
    }
  }

  lemma TablesStep(cfg: Config, w: World, a: Action)
    requires PlansSane(w.db.tables) && CallsSane(w.db.tables) && OpSane(w.db.tables.plans, w.op)
    ensures var t, t' := w.db.tables, Next(cfg, w, a).db.tables;
            PlansSane(t') && CallsSane(t') && PlansGrow(t, t')
  {
    hide PlansSane, CallsSane, OpSane, TablesEffect, Next;
    EffectOfStep(cfg, w, a);
    EffectIsSane(w.db.tables, Next(cfg, w, a).db.tables, w.op);
  }

  lemma LocalsStep(cfg: Config, w: World, a: Action)
    requires PlansSane(w.db.tables) && OpSane(w.db.tables.plans, w.op)
    requires PlansGrow(w.db.tables, Next(cfg, w, a).db.tables)
    ensures OpSane(Next(cfg, w, a).db.tables.plans, Next(cfg, w, a).op)
  {
    hide Uncertain, LoadProgress, Absorb, Exceeds, HasUncertainCall, InsertPlan, CanInsert, WellFormed, LatestVersion;
    hide Accepted, UniqueIds, LatestPlan, RecordResult, RecordFailure, StoreVerdict, StoreFirstPlan, StoreReplan;
    var w' := Next(cfg, w, a);
    if w.op.Loading? && w.db.tables.plans != map[] {
      LatestKnown(w.db.tables);
    }
    if w.op.Progressing? {
      LoadedLocals(w.op.iter, w.db.tables, w.op.plan);
    }
    if w.op.Reserving? || w.op.Recording? {
      AbsorbedLocals(w.db.tables.plans, w.op.x, w.op.step.id, w.op.Recording? && w.op.checkFailed);
    }
  }

  lemma LatestKnown(t: Tables)
    requires PlansSane(t) && t.plans != map[]
    ensures Known(t.plans, LatestPlan(t))
  {
  }

  /** A handler is only ever invoked for a call that this very operation has inserted as new. */
  predicate InvocationEffect(w: World, w': World) {
    || (w'.invoked == w.invoked && (w'.op.Invoking? ==> w'.op == w.op))
    || (&& w'.invoked == w.invoked && w.op.Reserving? && w'.op == Invoking(w.op.x, w.op.step)
        && KeyOf(w.op.x.plan, w.op.step) !in w.db.tables.calls && KeyOf(w.op.x.plan, w.op.step) in w'.db.tables.calls)
    || (w.op.Invoking? && !w'.op.Invoking? && w'.invoked == w.invoked + [KeyOf(w.op.x.plan, w.op.step)])
  }

  lemma InvocationStep(cfg: Config, w: World, a: Action)
    ensures InvocationEffect(w, Next(cfg, w, a))
  {
    hide LatestVersion, Uncertain, LoadProgress, Ready, Absorb, Exceeds, HasUncertainCall, InsertPlan, CanInsert,
        WellFormed;
  }

  // ----- All operations together -----

  ghost predicate CrowdInv(c: Crowd) {
    && PlansSane(c.db.tables) && CallsSane(c.db.tables)
    && (forall i :: 0 <= i < |c.ops| ==> OpSane(c.db.tables.plans, c.ops[i]))
    && ClaimsOk(c.db.tables.calls.Keys, c.ops, c.invoked)
  }

  /**
   Calls that were claimed and not invoked yet have one owner each; what was invoked was claimed, and
   is there once.
   */
  predicate ClaimsOk(calls: set<CallKey>, ops: seq<Operation>, invoked: seq<CallKey>) {
    && (forall k :: 0 <= k < |invoked| ==> invoked[k] in calls)
    && (forall k, l :: 0 <= k < l < |invoked| ==> invoked[k] != invoked[l])
    && (forall i :: 0 <= i < |ops| && ops[i].Invoking? ==> ClaimOf(ops[i]) in calls && ClaimOf(ops[i]) !in invoked)
    && (forall i, j :: 0 <= i < j < |ops| && ops[i].Invoking? && ops[j].Invoking? ==>
          ClaimOf(ops[i]) != ClaimOf(ops[j]))
  }

  function ClaimOf(op: Operation): CallKey
    requires op.Invoking?
  {
    KeyOf(op.x.plan, op.step)
  }

  lemma ClaimsKeep(w: World, w': World, ops: seq<Operation>, i: nat)
    requires i < |ops| && ops[i] == w.op && ClaimsOk(w.db.tables.calls.Keys, ops, w.invoked)
    requires InvocationEffect(w, w') && w.db.tables.calls.Keys <= w'.db.tables.calls.Keys
    ensures ClaimsOk(w'.db.tables.calls.Keys, ops[i := w'.op], w'.invoked)
  {
  }

  lemma SaneLater(t: Tables, t': Tables, op: Operation)
    requires PlansGrow(t, t') && OpSane(t.plans, op)
    ensures OpSane(t'.plans, op)
  {
  }

  lemma CrowdKeeps(cfg: Config, c: Crowd, i: nat, a: Action)
    requires CrowdInv(c)
    ensures CrowdInv(NextOf(cfg, c, i, a))
  {
    hide Next, PlansSane, CallsSane, OpSane, ClaimsOk, InvocationEffect;
    if i < |c.ops| {
      var w := World(c.db, c.ops[i], c.invoked);
      TablesStep(cfg, w, a);
      LocalsStep(cfg, w, a);
      InvocationStep(cfg, w, a);
      var w' := Next(cfg, w, a);
      ClaimsKeep(w, w', c.ops, i);
      forall j | 0 <= j < |c.ops| && j != i ensures OpSane(w'.db.tables.plans, c.ops[j]) {
        SaneLater(c.db.tables, w'.db.tables, c.ops[j]);
      }
    }
  }

  lemma {:induction false} CrowdReachable(cfg: Config, n: nat, actions: seq<(nat, Action)>)
    ensures CrowdInv(RunAll(cfg, n, actions))
  {
    if actions != [] {
      hide CrowdInv, NextOf;
      var last := actions[|actions| - 1];
      CrowdReachable(cfg, n, actions[..|actions| - 1]);
      CrowdKeeps(cfg, RunAll(cfg, n, actions[..|actions| - 1]), last.0, last.1);
    }
  }

  lemma KeysIdentified(t: Tables, a: CallKey, b: CallKey)
    requires PlansSane(t) && Stems(t, a) && Stems(t, b) && a.version == b.version && a.stepId == b.stepId
    ensures a == b
  {
    var r :| r in t.plans[a.version].steps && KeyOf(t.plans[a.version], r) == a;
    var s :| s in t.plans[b.version].steps && KeyOf(t.plans[b.version], s) == b;
    SameIdSameStep(t.plans[a.version].steps, r, s);
  }

  /**
   Any number of operations of one task, scheduled, crashing, recovering and racing in any way, run
   the handler of a step of a plan version at most once between them.
   */
  lemma AtMostOnceInACrowd(cfg: Config, n: nat, actions: seq<(nat, Action)>, i: nat, j: nat)
    requires i < j < |RunAll(cfg, n, actions).invoked|
    ensures var invoked := RunAll(cfg, n, actions).invoked;
            !(invoked[i].version == invoked[j].version && invoked[i].stepId == invoked[j].stepId)
  {
    CrowdReachable(cfg, n, actions);
    hide RunAll, OpSane, Stems;
    var c := RunAll(cfg, n, actions);
    assert Stems(c.db.tables, c.invoked[i]) && Stems(c.db.tables, c.invoked[j]);
    if c.invoked[i].version == c.invoked[j].version && c.invoked[i].stepId == c.invoked[j].stepId {
      KeysIdentified(c.db.tables, c.invoked[i], c.invoked[j]);
    }
  }
}
