/**
 The durable tables of one task below its row: execution plans, step records, tool calls and
 evidence, the four writes that ever touch them, and the agreement between them that every
 committed state keeps.
 */
module Tables {
  import opened Contracts
  import opened PlanGraph

  datatype StepStatus = StepPending | StepRunning | StepSucceeded | StepFailed
  datatype CallStatus = CallStarted | CallSucceeded | CallFailed

  /** A step record is identified by its plan and its step id. */
  datatype StepKey = StepKey(planId: nat, stepId: string)

  /** The payload of the idempotency key; the digest is taken to be injective on it. */
  datatype CallKey = CallKey(version: nat, stepId: string, tool: string, arguments: Arguments)

  datatype CallRow = CallRow(record: StepKey, status: CallStatus)

  /** Plans are keyed by version, which the unique constraint makes possible. */
  datatype Tables = Tables(
    plans: map<nat, Plan>, steps: map<StepKey, StepStatus>, calls: map<CallKey, CallRow>, evidence: seq<StepKey>)

  const NO_TABLES := Tables(map[], map[], map[], [])

  function KeyOf(plan: Plan, s: Step): CallKey {
    CallKey(plan.version, s.id, s.tool, s.arguments)
  }

  function RecordOf(plan: Plan, s: Step): StepKey {
    StepKey(plan.planId, s.id)
  }

  ghost function Maximum(versions: set<nat>): (v: nat)
    requires versions != {}
    ensures v in versions && forall u :: u in versions ==> u <= v
  {
    var x :| x in versions;
    if versions == {x} then x
    else
      assert versions == (versions - {x}) + {x};
      var m := Maximum(versions - {x});
      if x <= m then m else x
  }

  /** The plan with the highest version: what "order by version descending, limit 1" returns. */
  ghost function LatestVersion(t: Tables): nat {
    if t.plans == map[] then 0 else Maximum(t.plans.Keys)
  }

  ghost function LatestPlan(t: Tables): (p: Plan)
    requires t.plans != map[]
  {
    t.plans[LatestVersion(t)]
  }

  // ----- The writes -----

  function PendingRecords(plan: Plan): map<StepKey, StepStatus> {
    map s | s in plan.steps :: RecordOf(plan, s) := StepPending
  }

  function InsertPlan(t: Tables, plan: Plan): Tables {
    t.(plans := t.plans[plan.version := plan], steps := t.steps + PendingRecords(plan))
  }

  /** Marks the call started and its step running. */
  function ReserveCall(t: Tables, plan: Plan, s: Step): Tables {
    t.(calls := t.calls[KeyOf(plan, s) := CallRow(RecordOf(plan, s), CallStarted)],
       steps := t.steps[RecordOf(plan, s) := StepRunning])
  }

  /** Marks the call and its step failed without evidence. */
  function FailCall(t: Tables, plan: Plan, s: Step): Tables {
    t.(calls := t.calls[KeyOf(plan, s) := CallRow(RecordOf(plan, s), CallFailed)],
       steps := t.steps[RecordOf(plan, s) := StepFailed])
  }

  /** Stores the handler's result, its evidence, and the status that the check decided. */
  function FinishCall(t: Tables, plan: Plan, s: Step, checkFailed: bool): Tables {
    var status := if checkFailed then CallFailed else CallSucceeded;
    t.(calls := t.calls[KeyOf(plan, s) := CallRow(RecordOf(plan, s), status)],
       steps := t.steps[RecordOf(plan, s) := if checkFailed then StepFailed else StepSucceeded],
       evidence := t.evidence + [RecordOf(plan, s)])
  }

  // ----- The agreement -----

  ghost predicate PlansOk(t: Tables) {
    && (forall v :: v in t.plans ==> t.plans[v].version == v && 1 <= v && Accepted(t.plans[v].steps))
    && (forall u, v :: u in t.plans && v in t.plans && t.plans[u].planId == t.plans[v].planId ==> u == v)
  }

  predicate SameOutcome(step: StepStatus, call: CallStatus) {
    match call
    case CallStarted => step == StepRunning
    case CallSucceeded => step == StepSucceeded
    case CallFailed => step == StepFailed
  }

  predicate StatusIs(t: Tables, plan: Plan, id: string, status: StepStatus) {
    StepKey(plan.planId, id) in t.steps && t.steps[StepKey(plan.planId, id)] == status
  }

  /** One step record agrees with its tool call, its evidence and its dependencies. */
  ghost predicate StepOk(t: Tables, plan: Plan, s: Step) {
    var record, key := RecordOf(plan, s), KeyOf(plan, s);
    && record in t.steps
    && (key in t.calls <==> t.steps[record] != StepPending)
    && (key in t.calls ==> t.calls[key].record == record && SameOutcome(t.steps[record], t.calls[key].status))
    && multiset(t.evidence)[record] <= 1
    && (t.steps[record] == StepSucceeded ==> multiset(t.evidence)[record] == 1)
    && (t.steps[record] == StepPending || t.steps[record] == StepRunning ==> multiset(t.evidence)[record] == 0)
    && (t.steps[record] != StepPending ==> forall d :: d in s.dependsOn ==> StatusIs(t, plan, d, StepSucceeded))
  }

  ghost predicate RowsOk(t: Tables) {
    && (forall v, s :: v in t.plans && s in t.plans[v].steps ==> StepOk(t, t.plans[v], s))
    && (forall k :: k in t.calls ==>
          k.version in t.plans && exists s :: s in t.plans[k.version].steps && KeyOf(t.plans[k.version], s) == k)
    && (forall r :: r in t.steps ==>
          exists v, s :: v in t.plans && s in t.plans[v].steps && RecordOf(t.plans[v], s) == r)
    && (forall r :: r in t.evidence ==> r in t.steps)
  }

  ghost predicate TablesOk(t: Tables) {
    PlansOk(t) && RowsOk(t)
  }

  /** No step of the latest plan is running or failed. */
  ghost predicate Clean(t: Tables) {
    t.plans != map[] ==> forall s :: s in LatestPlan(t).steps ==>
      var plan := LatestPlan(t);
      StatusIs(t, plan, s.id, StepPending) || StatusIs(t, plan, s.id, StepSucceeded)
  }

  // ----- Each write keeps the agreement -----

  /** Different steps, also of different plans, have different records and different calls. */
  lemma DistinctRows(t: Tables, v: nat, s: Step, u: nat, r: Step)
    requires PlansOk(t) && v in t.plans && u in t.plans && s in t.plans[v].steps && r in t.plans[u].steps
    ensures RecordOf(t.plans[v], s) == RecordOf(t.plans[u], r) <==> v == u && s == r
    ensures KeyOf(t.plans[v], s) == KeyOf(t.plans[u], r) <==> v == u && s == r
  {
    if v == u && s.id == r.id {
      SameIdSameStep(t.plans[v].steps, s, r);
    }
  }

  predicate CanInsert(t: Tables, plan: Plan) {
    plan.version !in t.plans && forall v :: v in t.plans ==> t.plans[v].planId != plan.planId
  }

  lemma InsertKeepsPlans(t: Tables, plan: Plan)
    requires PlansOk(t) && CanInsert(t, plan) && 1 <= plan.version && Accepted(plan.steps)
    ensures PlansOk(InsertPlan(t, plan))
  {
    hide Accepted;
  }

  lemma InsertKeepsRows(t: Tables, plan: Plan)
    requires TablesOk(t) && CanInsert(t, plan)
    ensures RowsOk(InsertPlan(t, plan))
  {
    hide Accepted, StepOk;
    var t' := InsertPlan(t, plan);
    forall v, s | v in t'.plans && s in t'.plans[v].steps ensures StepOk(t', t'.plans[v], s) {
      if v == plan.version {
        NewStepOk(t, plan, s);
      } else {
        OldStepOk(t, plan, v, s);
      }
    }
    InsertKeepsKeys(t, plan);
  }

  /** No stored row mentions the new plan's id. */
  lemma FreshPlanId(t: Tables, plan: Plan)
    requires RowsOk(t) && CanInsert(t, plan)
    ensures forall r :: r in t.steps || r in t.evidence ==> r.planId != plan.planId
  {
    hide Accepted, StepOk;
    forall r | r in t.steps ensures r.planId != plan.planId {
      var v, s :| v in t.plans && s in t.plans[v].steps && RecordOf(t.plans[v], s) == r;
    }
  }

  lemma InsertKeepsKeys(t: Tables, plan: Plan)
    requires RowsOk(t) && CanInsert(t, plan)
    ensures var t' := InsertPlan(t, plan);
            && (forall k :: k in t'.calls ==>
                  && k.version in t'.plans
                  && exists s :: s in t'.plans[k.version].steps && KeyOf(t'.plans[k.version], s) == k)
            && (forall r :: r in t'.steps ==>
                  exists v, s :: v in t'.plans && s in t'.plans[v].steps && RecordOf(t'.plans[v], s) == r)
            && (forall r :: r in t'.evidence ==> r in t'.steps)
  {
    hide Accepted, StepOk;
    var t' := InsertPlan(t, plan);
    assert forall v :: v in t.plans ==> v in t'.plans && t'.plans[v] == t.plans[v];
    forall r | r in t'.steps
      ensures exists v, s :: v in t'.plans && s in t'.plans[v].steps && RecordOf(t'.plans[v], s) == r
    {
      if r in t.steps {
        var v, s :| v in t.plans && s in t.plans[v].steps && RecordOf(t.plans[v], s) == r;
        assert v in t'.plans && s in t'.plans[v].steps && RecordOf(t'.plans[v], s) == r;
      } else {
        var s :| s in plan.steps && RecordOf(plan, s) == r;
        assert plan.version in t'.plans && s in t'.plans[plan.version].steps
            && RecordOf(t'.plans[plan.version], s) == r;
      }
    }
  }

  lemma OldStepOk(t: Tables, plan: Plan, v: nat, s: Step)
    requires RowsOk(t) && CanInsert(t, plan) && v in t.plans && s in t.plans[v].steps
    ensures StepOk(InsertPlan(t, plan), t.plans[v], s)
  {
    hide Accepted;
    var t' := InsertPlan(t, plan);
    assert StepOk(t, t.plans[v], s);
    assert forall r :: r in PendingRecords(plan) ==> r.planId == plan.planId;
    forall d | StatusIs(t, t.plans[v], d, StepSucceeded) ensures StatusIs(t', t.plans[v], d, StepSucceeded) {
      assert StepKey(t.plans[v].planId, d) !in PendingRecords(plan);
    }
  }

  lemma NewStepOk(t: Tables, plan: Plan, s: Step)
    requires RowsOk(t) && CanInsert(t, plan) && s in plan.steps
    ensures StepOk(InsertPlan(t, plan), plan, s)
  {
    FreshPlanId(t, plan);
    hide RowsOk;
    assert RecordOf(plan, s) in PendingRecords(plan);
    assert KeyOf(plan, s) !in t.calls by { NoCallYet(t, plan, s); }
  }

  lemma NoCallYet(t: Tables, plan: Plan, s: Step)
    requires RowsOk(t) && CanInsert(t, plan)
    ensures KeyOf(plan, s) !in t.calls
  {
    hide Accepted, StepOk;
    forall k | k in t.calls ensures k != KeyOf(plan, s) {
      assert k.version in t.plans;
    }
  }

  lemma InsertedIsLatest(t: Tables, plan: Plan)
    requires forall v :: v in t.plans ==> v < plan.version
    ensures var t' := InsertPlan(t, plan);
            && t'.plans != map[] && LatestVersion(t') == plan.version && LatestPlan(t') == plan && Clean(t')
  {
    var t' := InsertPlan(t, plan);
    assert plan.version in t'.plans;
    forall s | s in plan.steps ensures StatusIs(t', plan, s.id, StepPending) {
      assert RecordOf(plan, s) in PendingRecords(plan);
    }
  }

  /**
   Changing the rows of one step keeps every other step in agreement, provided the step was not
   already a completed dependency of someone.
   */
  lemma OtherStepKept(t: Tables, t': Tables, v: nat, s: Step, u: nat, r: Step)
    requires TablesOk(t) && v in t.plans && s in t.plans[v].steps && u in t.plans && r in t.plans[u].steps
    requires (v, s) != (u, r)
    requires t'.plans == t.plans
    requires forall k :: k != KeyOf(t.plans[v], s) ==>
              (k in t'.calls <==> k in t.calls) && (k in t.calls ==> t'.calls[k] == t.calls[k])
    requires forall k :: k != RecordOf(t.plans[v], s) ==>
              (k in t'.steps <==> k in t.steps) && (k in t.steps ==> t'.steps[k] == t.steps[k])
    requires t'.evidence == t.evidence || t'.evidence == t.evidence + [RecordOf(t.plans[v], s)]
    requires !StatusIs(t, t.plans[v], s.id, StepSucceeded)
    ensures StepOk(t', t'.plans[u], r)
  {
    hide PlansOk, RowsOk, Accepted, StepOk;
    DistinctRows(t, v, s, u, r);
    RecordExists(t, u, r);
    assert multiset(t'.evidence)[RecordOf(t.plans[u], r)] == multiset(t.evidence)[RecordOf(t.plans[u], r)];
    forall d | d in r.dependsOn && StatusIs(t, t.plans[u], d, StepSucceeded)
      ensures StatusIs(t', t.plans[u], d, StepSucceeded)
    {
      assert StepKey(t.plans[u].planId, d) != RecordOf(t.plans[v], s);
    }
    SameRows(t, t', t.plans[u], r);
  }

  lemma SameRows(t: Tables, t': Tables, plan: Plan, r: Step)
    requires StepOk(t, plan, r)
    requires RecordOf(plan, r) in t'.steps && t'.steps[RecordOf(plan, r)] == t.steps[RecordOf(plan, r)]
    requires KeyOf(plan, r) in t'.calls <==> KeyOf(plan, r) in t.calls
    requires KeyOf(plan, r) in t.calls ==> t'.calls[KeyOf(plan, r)] == t.calls[KeyOf(plan, r)]
    requires multiset(t'.evidence)[RecordOf(plan, r)] == multiset(t.evidence)[RecordOf(plan, r)]
    requires forall d :: d in r.dependsOn && StatusIs(t, plan, d, StepSucceeded) ==>
              StatusIs(t', plan, d, StepSucceeded)
    ensures StepOk(t', plan, r)
  {
  }

  /** The common part of the three writes that touch one step of a stored plan. */
  ghost predicate OneStepWrite(t: Tables, t': Tables, v: nat, s: Step) {
    && v in t.plans && s in t.plans[v].steps && t'.plans == t.plans
    && var key, record := KeyOf(t.plans[v], s), RecordOf(t.plans[v], s);
    && key in t'.calls && t'.calls == t.calls[key := t'.calls[key]]
    && record in t'.steps && t'.steps == t.steps[record := t'.steps[record]]
    && (t'.evidence == t.evidence || t'.evidence == t.evidence + [RecordOf(t.plans[v], s)])
    && !StatusIs(t, t.plans[v], s.id, StepSucceeded)
  }

  lemma OneStepWriteKeeps(t: Tables, t': Tables, v: nat, s: Step)
    requires TablesOk(t) && OneStepWrite(t, t', v, s) && StepOk(t', t.plans[v], s)
    ensures TablesOk(t')
  {
    hide Accepted, StepOk, PlansOk;
    forall u, r | u in t'.plans && r in t'.plans[u].steps ensures StepOk(t', t'.plans[u], r) {
      if (v, s) != (u, r) {
        OneStepWriteOther(t, t', v, s, u, r);
      }
    }
    PlansStay(t, t');
    OneStepWriteKeys(t, t', v, s);
  }

  lemma PlansStay(t: Tables, t': Tables)
    requires PlansOk(t) && t'.plans == t.plans
    ensures PlansOk(t')
  {
    hide Accepted;
  }

  lemma OneStepWriteOther(t: Tables, t': Tables, v: nat, s: Step, u: nat, r: Step)
    requires TablesOk(t) && OneStepWrite(t, t', v, s) && u in t.plans && r in t.plans[u].steps && (v, s) != (u, r)
    ensures StepOk(t', t'.plans[u], r)
  {
    hide TablesOk, StepOk;
    OtherStepKept(t, t', v, s, u, r);
  }

  lemma OneStepWriteKeys(t: Tables, t': Tables, v: nat, s: Step)
    requires TablesOk(t) && OneStepWrite(t, t', v, s)
    ensures forall k :: k in t'.calls ==>
              && k.version in t'.plans
              && exists r :: r in t'.plans[k.version].steps && KeyOf(t'.plans[k.version], r) == k
    ensures forall k :: k in t'.steps ==>
              exists u, r :: u in t'.plans && r in t'.plans[u].steps && RecordOf(t'.plans[u], r) == k
    ensures forall k :: k in t'.evidence ==> k in t'.steps
  {
    hide StepOk, KeyOf, RecordOf, PlansOk;
    RecordExists(t, v, s);
    assert s in t'.plans[v].steps;
    KeyVersion(t, v, s);
  }

  lemma KeyVersion(t: Tables, v: nat, s: Step)
    requires PlansOk(t) && v in t.plans
    ensures KeyOf(t.plans[v], s).version == v
  {
    hide Accepted;
  }

  lemma RecordExists(t: Tables, v: nat, s: Step)
    requires RowsOk(t) && v in t.plans && s in t.plans[v].steps
    ensures RecordOf(t.plans[v], s) in t.steps && StepOk(t, t.plans[v], s)
  {
  }

  lemma ReserveKeeps(t: Tables, v: nat, s: Step)
    requires TablesOk(t) && v in t.plans && s in t.plans[v].steps
    requires StatusIs(t, t.plans[v], s.id, StepPending)
    requires forall d :: d in s.dependsOn ==> StatusIs(t, t.plans[v], d, StepSucceeded)
    ensures TablesOk(ReserveCall(t, t.plans[v], s))
  {
    hide Accepted, PlansOk, RowsOk;
    RecordExists(t, v, s);
    var t' := ReserveCall(t, t.plans[v], s);
    assert StepOk(t', t.plans[v], s);
    OneStepWriteKeeps(t, t', v, s);
  }

  /** s is the step whose handler is being run: its call is started. */
  ghost predicate IsRunning(t: Tables, plan: Plan, s: Step) {
    StatusIs(t, plan, s.id, StepRunning)
  }

  lemma FailKeeps(t: Tables, v: nat, s: Step)
    requires TablesOk(t) && v in t.plans && s in t.plans[v].steps && IsRunning(t, t.plans[v], s)
    ensures TablesOk(FailCall(t, t.plans[v], s))
  {
    hide Accepted, PlansOk, RowsOk;
    RecordExists(t, v, s);
    var t' := FailCall(t, t.plans[v], s);
    assert forall d :: d in s.dependsOn ==> StatusIs(t', t.plans[v], d, StepSucceeded);
    OneStepWriteKeeps(t, t', v, s);
  }

  lemma FinishKeeps(t: Tables, v: nat, s: Step, checkFailed: bool)
    requires TablesOk(t) && v in t.plans && s in t.plans[v].steps && IsRunning(t, t.plans[v], s)
    ensures TablesOk(FinishCall(t, t.plans[v], s, checkFailed))
  {
    hide Accepted, PlansOk, RowsOk;
    RecordExists(t, v, s);
    var t' := FinishCall(t, t.plans[v], s, checkFailed);
    assert forall d :: d in s.dependsOn ==> StatusIs(t', t.plans[v], d, StepSucceeded);
    OneStepWriteKeeps(t, t', v, s);
  }

  // ----- What recovery looks at -----

  predicate HasUncertainCall(t: Tables) {
    exists k :: k in t.calls && t.calls[k].status != CallSucceeded
  }

  /** Without a started or failed call, every step record is pending or succeeded. */
  lemma NoUncertainCallIsClean(t: Tables)
    requires TablesOk(t) && !HasUncertainCall(t)
    ensures Clean(t)
  {
    if t.plans != map[] {
      var plan := LatestPlan(t);
      forall s | s in plan.steps
          ensures StatusIs(t, plan, s.id, StepPending) || StatusIs(t, plan, s.id, StepSucceeded) {
        RecordExists(t, LatestVersion(t), s);
      }
    }
  }
}
