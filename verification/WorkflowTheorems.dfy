/** What the invariant means: the safety theorems over every run of the workflow. */
module WorkflowTheorems {
  import opened Contracts
  import opened PlanGraph
  import opened WaveScheduler
  import opened TaskStates
  import opened Tables
  import opened Transactions
  import opened Workflow
  import opened WorkflowInvariant
  import opened WorkflowSteps

  // ----- Effects -----

  /** The handler of a step of a plan version is invoked at most once, in any run whatsoever. */
  lemma AtMostOnce(cfg: Config, actions: seq<Action>, i: nat, j: nat)
    requires ValidLimits(cfg.limits)
    requires i < j < |Run(cfg, actions).invoked|
    ensures var invoked := Run(cfg, actions).invoked;
            !(invoked[i].version == invoked[j].version && invoked[i].stepId == invoked[j].stepId)
  {
    Reachable(cfg, actions);
    hide Run, StateOk, BudgetOk, StageOk, TablesOk, OpInv;
    var w := Run(cfg, actions);
    CallsIdentified(w.db.tables, w.invoked[i], w.invoked[j]);
  }

  /** Within a task, version and step id determine the whole idempotency key. */
  lemma CallsIdentified(t: Tables, a: CallKey, b: CallKey)
    requires TablesOk(t) && a in t.calls && b in t.calls
    ensures a.version == b.version && a.stepId == b.stepId ==> a == b
  {
    hide StepOk;
    var r :| r in t.plans[a.version].steps && KeyOf(t.plans[a.version], r) == a;
    var s :| s in t.plans[b.version].steps && KeyOf(t.plans[b.version], s) == b;
    if a.version == b.version && a.stepId == b.stepId {
      SameIdSameStep(t.plans[a.version].steps, r, s);
    }
  }

  /** In every committed state each step record agrees with its call, its evidence and its dependencies. */
  lemma ResumeAgreement(cfg: Config, actions: seq<Action>, v: nat, s: Step)
    requires ValidLimits(cfg.limits)
    requires v in Run(cfg, actions).db.tables.plans && s in Run(cfg, actions).db.tables.plans[v].steps
    ensures var t := Run(cfg, actions).db.tables;
            var plan, key := t.plans[v], KeyOf(t.plans[v], s);
            && (StatusIs(t, plan, s.id, StepPending) <==> key !in t.calls)
            && (StatusIs(t, plan, s.id, StepRunning) <==> key in t.calls && t.calls[key].status == CallStarted)
            && (StatusIs(t, plan, s.id, StepSucceeded) <==> key in t.calls && t.calls[key].status == CallSucceeded)
            && (StatusIs(t, plan, s.id, StepFailed) <==> key in t.calls && t.calls[key].status == CallFailed)
            && (StatusIs(t, plan, s.id, StepSucceeded) ==> multiset(t.evidence)[RecordOf(plan, s)] == 1)
            && (!StatusIs(t, plan, s.id, StepPending) ==>
                  forall d :: d in s.dependsOn ==> StatusIs(t, plan, d, StepSucceeded))
  {
    Reachable(cfg, actions);
    hide Run, StateOk, BudgetOk, StageOk, HistoryOk, OpInv, PlansOk;
    RecordExists(Run(cfg, actions).db.tables, v, s);
  }

  /** Loading the progress of a scheduled execution never finds an uncertain step, and reserving always inserts. */
  lemma ResumeIsClean(cfg: Config, actions: seq<Action>)
    requires ValidLimits(cfg.limits)
    ensures var w := Run(cfg, actions);
            && (w.op.Progressing? ==> !Uncertain(w.db.tables, w.op.plan))
            && (w.op.Reserving? ==> ReserveStep(w.db, w.op.x.plan.version, w.op.step).Reserved?)
  {
    hide Run, Inv, Uncertain, ReserveStep;
    Reachable(cfg, actions);
    var w := Run(cfg, actions);
    if w.op.Progressing? { LoadsCleanly(cfg, w); }
    if w.op.Reserving? { ReserveIsNew(cfg, w); }
  }

  lemma LoadsCleanly(cfg: Config, w: World)
    requires Inv(cfg, w) && w.op.Progressing?
    ensures !Uncertain(w.db.tables, w.op.plan)
  {
    hide DbInv, HistoryOk, Clean, Uncertain, LoadProgress, ExecOk;
    LoadedExecOk(w.db.tables, w.op.iter, w.op.plan);
  }

  lemma {:induction false} EvidenceCount(evidence: seq<StepKey>, planId: nat, id: string)
    ensures multiset(EvidenceOf(evidence, planId))[id] == multiset(evidence)[StepKey(planId, id)]
  {
    if evidence != [] {
      var init, last := evidence[..|evidence| - 1], evidence[|evidence| - 1];
      EvidenceCount(init, planId, id);
      assert evidence == init + [last];
      assert last.planId == planId ==> StepKey(planId, last.stepId) == last;
    }
  }

  /** The verifier gets exactly one evidence item per executed step, and none for a skipped one. */
  lemma VerifierSeesEachStepOnce(cfg: Config, actions: seq<Action>, s: Step)
    requires ValidLimits(cfg.limits)
    requires Run(cfg, actions).op.Verifying? && s in Run(cfg, actions).op.x.plan.steps
    ensures var x := Run(cfg, actions).op.x;
            multiset(x.evidence)[s.id] == if s.id in x.completed || x.failed == Some(s.id) then 1 else 0
  {
    Reachable(cfg, actions);
    hide Run, HistoryOk, StateOk, BudgetOk, StageOk, TablesOk, ExecOk, OnLatest, Accepted;
    var w := Run(cfg, actions);
    var x, t := w.op.x, w.db.tables;
    LatestAccepted(cfg.limits, w.db, x.iter, x.plan);
    VerifiedStatus(t, x, s);
  }

  lemma VerifiedStatus(t: Tables, x: Exec, s: Step)
    requires TablesOk(t) && x.plan.version in t.plans && t.plans[x.plan.version] == x.plan
    requires ExecOk(t, x, None) && s in x.plan.steps
    ensures multiset(x.evidence)[s.id] == if s.id in x.completed || x.failed == Some(s.id) then 1 else 0
  {
    hide PlansOk;
    EvidenceCount(t.evidence, x.plan.planId, s.id);
    RecordExists(t, x.plan.version, s);
    hide RowsOk, UniqueIds;
    if s.id in x.completed {
      var r :| r in x.plan.steps && r.id == s.id && StatusIs(t, x.plan, r.id, StepSucceeded);
    } else if x.failed != Some(s.id) {
      assert s in x.remaining;
    }
  }

  /** While a handler runs, everything its step transitively depends on has succeeded, also after resumes. */
  lemma RunsAfterDependencies(cfg: Config, actions: seq<Action>, p: seq<string>)
    requires ValidLimits(cfg.limits) && Run(cfg, actions).op.Running?
    requires IsPath(GraphOf(Run(cfg, actions).op.x.plan.steps), p) && 2 <= |p| && p[0] == Run(cfg, actions).op.step.id
    ensures StatusIs(Run(cfg, actions).db.tables, Run(cfg, actions).op.x.plan, p[|p| - 1], StepSucceeded)
  {
    Reachable(cfg, actions);
    hide Run;
    var w := Run(cfg, actions);
    var x, s, t := w.op.x, w.op.step, w.db.tables;
    LatestAccepted(cfg.limits, w.db, x.iter, x.plan);
    assert StatusIs(t, x.plan, s.id, StepRunning) && s in x.plan.steps;
    hide OnLatest, HistoryOk, ExecOk, StateOk, BudgetOk, StageOk, PlansOk;
    SucceededClosed(t, x.plan);
    RecordExists(t, x.plan.version, s);
    GraphOfEdges(x.plan.steps, s);
    hide RowsOk, StepOk;
    var done := SucceededIds(t, x.plan);
    assert p[1] in GraphOf(x.plan.steps)[p[0]];
    DependencyKnown(t, x.plan, s, p[1]);
    StaysInside(GraphOf(x.plan.steps), done, p, 1, |p| - 1);
  }

  lemma DependencyKnown(t: Tables, plan: Plan, s: Step, d: string)
    requires Accepted(plan.steps) && s in plan.steps && d in s.dependsOn && StatusIs(t, plan, d, StepSucceeded)
    ensures d in SucceededIds(t, plan)
  {
    hide Acyclic;
    assert d in Ids(plan.steps);
    var r :| r in plan.steps && r.id == d;
  }

  lemma SucceededClosed(t: Tables, plan: Plan)
    requires RowsOk(t) && plan.version in t.plans && t.plans[plan.version] == plan && Accepted(plan.steps)
    ensures ClosedIn(GraphOf(plan.steps), SucceededIds(t, plan))
  {
    hide Acyclic;
    var g, done := GraphOf(plan.steps), SucceededIds(t, plan);
    GraphOfKeys(plan.steps);
    forall n | n in done ensures n in g && g[n] <= done {
      var r :| r in plan.steps && r.id == n && StatusIs(t, plan, r.id, StepSucceeded);
      GraphOfEdges(plan.steps, r);
      RecordExists(t, plan.version, r);
      forall d | d in r.dependsOn ensures d in done {
        hide Accepted;
        DependencyKnown(t, plan, r, d);
      }
    }
  }

  // ----- Recovery -----

  /**
   Recovery requests only transitions of the table, although POLICY_CHECK has no edge to
   NEEDS_REVIEW, and leaves a live task either scheduled or waiting for review.
   */
  lemma RecoveryIsLegal(cfg: Config, actions: seq<Action>)
    requires ValidLimits(cfg.limits)
    requires Run(cfg, actions).op.Idle? && !Terminal(Run(cfg, actions).db.row.state)
    ensures !CanMove(POLICY_CHECK, NEEDS_REVIEW)
    ensures Run(cfg, actions).db.row.state !in {PLANNING, POLICY_CHECK, WAITING_CONFIRMATION}
    ensures !RecoverTask(Run(cfg, actions).db).RecoveryError?
    ensures var w' := Run(cfg, actions + [Recover]);
            || w'.db.row.state == NEEDS_REVIEW
            || (w'.op == Head(0, None)
                && (w'.db.row.state == PENDING || (w'.db.row.state == EXECUTING && !HasUncertainCall(w'.db.tables))))
  {
    assert !CanMove(POLICY_CHECK, NEEDS_REVIEW);
    hide Inv, Run, Next, RecoverTask, HasUncertainCall;
    Reachable(cfg, actions);
    RunSnoc(cfg, actions, Recover);
    RecoveryOutcome(cfg, Run(cfg, actions));
  }

  lemma RunSnoc(cfg: Config, actions: seq<Action>, a: Action)
    ensures Run(cfg, actions + [a]) == Next(cfg, Run(cfg, actions), a)
  {
    hide Next;
    assert (actions + [a])[..|actions|] == actions;
  }

  lemma RecoveryOutcome(cfg: Config, w: World)
    requires Inv(cfg, w) && w.op.Idle? && !Terminal(w.db.row.state)
    ensures w.db.row.state !in {PLANNING, POLICY_CHECK, WAITING_CONFIRMATION} && !RecoverTask(w.db).RecoveryError?
    ensures var w' := Next(cfg, w, Recover);
            || w'.db.row.state == NEEDS_REVIEW
            || (w'.op == Head(0, None)
                && (w'.db.row.state == PENDING || (w'.db.row.state == EXECUTING && !HasUncertainCall(w'.db.tables))))
  {
    hide TablesOk, BudgetOk, HistoryOk, StageOk, OpInv, HasUncertainCall;
    RecoverKeeps(cfg.limits, w.db);
  }

  // ----- The event log -----

  /**
   The log is one path of the transition graph from PENDING to the current state, and counts the
   version, exactly in the runs in which no locking read returned a stale copy of a cancelled row.
   */
  lemma LogRefinesState(cfg: Config, actions: seq<Action>)
    requires ValidLimits(cfg.limits)
    ensures var db := Run(cfg, actions).db;
            NeverStale(cfg, actions) <==> db.row.version == 1 + |db.events| && Linked(db.events, db.row.state)
  {
    FaithfulIffNeverStale(cfg, actions);
    hide NeverStale, Run;
    LinkedHasEnded(Run(cfg, actions).db);
  }

  lemma LinkedHasEnded(db: Database)
    ensures Linked(db.events, db.row.state) ==> !Reopened(db.events)
  {
    if Linked(db.events, db.row.state) {
      forall i | 0 <= i < |db.events| ensures i < |db.events| - 1 ==> !Terminal(db.events[i].to) {
        TerminalIsLast(db.events, db.row.state, i);
      }
    }
  }

  /** No event follows one that ended the task, exactly in the runs without a stale lock. */
  lemma NothingAfterTheEnd(cfg: Config, actions: seq<Action>)
    requires ValidLimits(cfg.limits)
    ensures var events := Run(cfg, actions).db.events;
            NeverStale(cfg, actions) <==> forall i :: 0 <= i < |events| - 1 ==> !Terminal(events[i].to)
  {
    FaithfulIffNeverStale(cfg, actions);
    hide NeverStale, Run;
    LinkedHasEnded(Run(cfg, actions).db);
  }

  /** A finished task is finished: no action moves its row or extends its log. */
  lemma TerminalStep(cfg: Config, w: World, a: Action)
    requires Inv(cfg, w) && !StaleLock(cfg, w, a) && Terminal(w.db.row.state)
    ensures var db, db' := w.db, Next(cfg, w, a).db;
            db'.row.state == db.row.state && db'.row.version == db.row.version && db'.events == db.events
    ensures w.db.row.cancelRequested ==> Next(cfg, w, a).db.row.cancelRequested
  {
    hide Inv, Advance, Terminal, RecoverTask;
    if a.Go? {
      if MovesRow(w.op) { TerminalMove(cfg, w, a.input); } else { RowKept(cfg, w, a.input); }
    }
  }

  /** Every step that would move the row of an ended task is refused. */
  lemma TerminalMove(cfg: Config, w: World, input: Input)
    requires Inv(cfg, w) && !StaleLock(cfg, w, Go(input)) && Terminal(w.db.row.state) && MovesRow(w.op)
    ensures Advance(cfg, w, input).db == w.db
  {
    hide TablesOk, BudgetOk, StageOk, HistoryOk, ExecOk, OnLatest, Clean, LatestVersion, Fits, Exceeds, CanInsert;
    hide InsertPlan, WellFormed, AtScheduling, AtProgressing, AtReserving, AtRecording, AtFailRecording, AtHead;
  }

  lemma {:induction false} EndedUntilNow(cfg: Config, actions: seq<Action>, k: nat)
    requires ValidLimits(cfg.limits) && NeverStale(cfg, actions) && k <= |actions|
    requires Terminal(Run(cfg, actions[..k]).db.row.state)
    ensures Unmoved(Run(cfg, actions[..k]).db, Run(cfg, actions).db)
  {
    hide Inv, Next, NeverStale, StaleLock, Terminal;
    if k == |actions| {
      assert actions[..k] == actions;
    } else {
      var last := |actions| - 1;
      PrefixNeverStale(cfg, actions, last);
      assert actions[..last][..k] == actions[..k];
      EndedUntilNow(cfg, actions[..last], k);
      Reachable(cfg, actions[..last]);
      TerminalStep(cfg, Run(cfg, actions[..last]), actions[last]);
    }
  }

  lemma {:induction false} LogGrows(cfg: Config, actions: seq<Action>, k: nat)
    requires k <= |actions|
    ensures Run(cfg, actions[..k]).db.events <= Run(cfg, actions).db.events
  {
    if k == |actions| {
      assert actions[..k] == actions;
    } else {
      hide Next;
      var last := |actions| - 1;
      assert actions[..last][..k] == actions[..k];
      LogGrows(cfg, actions[..last], k);
      EventsGrow(cfg, Run(cfg, actions[..last]), actions[last]);
    }
  }

  /** Where a stale lock strikes, an ended and cancelled row is moved and logged anew. */
  lemma StaleLockAt(cfg: Config, actions: seq<Action>, k: nat)
    requires ValidLimits(cfg.limits) && k < |actions| && StaleLock(cfg, Run(cfg, actions[..k]), actions[k])
    ensures var db, db' := Run(cfg, actions[..k]).db, Run(cfg, actions[..k + 1]).db;
            && Terminal(db.row.state) && db.row.cancelRequested && !Terminal(db'.row.state) && db'.row.cancelRequested
            && |db.events| < |db'.events|
  {
    hide Inv, Next, Run, StaleLock;
    Reachable(cfg, actions[..k]);
    assert actions[..k + 1] == actions[..k] + [actions[k]];
    RunSnoc(cfg, actions[..k], actions[k]);
    StaleLockStep(cfg, Run(cfg, actions[..k]), actions[k]);
  }

  /** The row has kept its state and its log. */
  predicate Unmoved(db: Database, now: Database) {
    now.row.state == db.row.state && now.row.version == db.row.version && now.events == db.events
  }

  /** A task that has ended keeps its state and its log for good, exactly in the runs without a stale lock. */
  lemma TerminalForever(cfg: Config, actions: seq<Action>)
    requires ValidLimits(cfg.limits)
    ensures NeverStale(cfg, actions) <==>
              forall k :: 0 <= k <= |actions| && Terminal(Run(cfg, actions[..k]).db.row.state) ==>
                Unmoved(Run(cfg, actions[..k]).db, Run(cfg, actions).db)
  {
    hide Run, StaleLock, Terminal;
    if NeverStale(cfg, actions) {
      forall k | 0 <= k <= |actions| && Terminal(Run(cfg, actions[..k]).db.row.state)
        ensures Unmoved(Run(cfg, actions[..k]).db, Run(cfg, actions).db)
      {
        EndedUntilNow(cfg, actions, k);
      }
    } else {
      var k :| 0 <= k < |actions| && StaleLock(cfg, Run(cfg, actions[..k]), actions[k]);
      StaleLockAt(cfg, actions, k);
      LogGrows(cfg, actions, k + 1);
      assert !Unmoved(Run(cfg, actions[..k]).db, Run(cfg, actions).db);
    }
  }

  lemma PrefixNeverStale(cfg: Config, actions: seq<Action>, k: nat)
    requires NeverStale(cfg, actions) && k <= |actions|
    ensures NeverStale(cfg, actions[..k])
    ensures k < |actions| ==> !StaleLock(cfg, Run(cfg, actions[..k]), actions[k])
  {
    hide Run, StaleLock;
    assert forall i :: 0 <= i < k ==> actions[..k][..i] == actions[..i];
  }

  // ----- The budget -----

  /**
   The recorded tokens of all four kinds, or the recorded cost, are strictly above their limit in
   exactly the committed states that are BUDGET_EXCEEDED.
   */
  lemma BudgetIsExact(cfg: Config, actions: seq<Action>)
    requires ValidLimits(cfg.limits)
    ensures var db := Run(cfg, actions).db;
            db.row.state == BUDGET_EXCEEDED <==>
              || TokenSum(db.usage, InputTokens) + TokenSum(db.usage, CacheCreationTokens)
                   + TokenSum(db.usage, CacheReadTokens) + TokenSum(db.usage, OutputTokens) > cfg.limits.maxTokens
              || CostSum(db.usage) > cfg.limits.maxCost
  {
    hide Run, TokenSum, CostSum, TotalTokens, TotalCost, TablesOk, StateOk, StageOk, HistoryOk, OpInv;
    Reachable(cfg, actions);
    TotalsAreColumns(Run(cfg, actions).db.usage);
  }

  /** The partial sum that planning compares with the budget is the full recorded sum, column by column. */
  lemma PlanningSumIsFull(cfg: Config, actions: seq<Action>, usages: seq<Usage>)
    requires ValidLimits(cfg.limits) && Run(cfg, actions).op.Analyzing?
    requires Run(cfg, actions).db.row.state == ANALYZING
    ensures var recorded := Run(cfg, actions).db.usage + usages;
            && TotalTokens(usages) == TokenSum(recorded, InputTokens) + TokenSum(recorded, CacheCreationTokens)
                  + TokenSum(recorded, CacheReadTokens) + TokenSum(recorded, OutputTokens)
            && TotalCost(usages) == CostSum(recorded)
  {
    hide Run, Inv, TotalTokens, TotalCost, TokenSum, CostSum;
    Reachable(cfg, actions);
    NothingSpentYet(cfg, Run(cfg, actions));
    assert Run(cfg, actions).db.usage + usages == usages;
    TotalsAreColumns(usages);
  }

  lemma NothingSpentYet(cfg: Config, w: World)
    requires Inv(cfg, w) && w.db.row.state == ANALYZING
    ensures w.db.usage == []
  {
    hide TablesOk, BudgetOk, HistoryOk, OpInv;
  }

  // ----- Cancellation -----

  function ToReserve(op: Operation): nat {
    if op.Reserving? then 1 else 0
  }

  function ToInvoke(op: Operation): nat {
    if op.Reserving? || op.Invoking? then 1 else 0
  }

  /** After a cancellation no step spends more than the one reservation and invocation already decided. */
  lemma CancelledStep(cfg: Config, w: World, a: Action)
    requires Inv(cfg, w) && w.db.row.cancelRequested
    ensures var w' := Next(cfg, w, a);
            && w'.db.row.cancelRequested
            && |w'.db.tables.calls| + ToReserve(w'.op) <= |w.db.tables.calls| + ToReserve(w.op)
            && |w'.invoked| + ToInvoke(w'.op) <= |w.invoked| + ToInvoke(w.op)
  {
    hide Inv, Next, Terminal;
    if a.Go? && w.op.Reserving? {
      CancelledReserve(cfg, w, a.input);
    } else if a.Go? && (w.op.FailRecording? || w.op.Recording?) {
      CancelledRecord(cfg, w, a.input);
    } else {
      CancelledOther(cfg, w, a);
    }
  }

  lemma CancelledReserve(cfg: Config, w: World, input: Input)
    requires Inv(cfg, w) && w.op.Reserving?
    ensures var w' := Next(cfg, w, Go(input));
            && |w'.db.tables.calls| == |w.db.tables.calls| + 1 && w'.invoked == w.invoked && w'.op.Invoking?
            && w'.db.row == w.db.row
  {
    hide Inv, ReserveStep, Next, TablesOk;
    NextReserving(cfg, w, input);
    ReserveIsNew(cfg, w);
    NewCallKeys(w.db.tables, w.op.x.plan, w.op.step);
  }

  lemma NextReserving(cfg: Config, w: World, input: Input)
    requires w.op.Reserving?
    ensures Next(cfg, w, Go(input)) == AtReserving(w)
  {
    hide AtReserving;
  }

  lemma NewCallKeys(t: Tables, plan: Plan, s: Step)
    requires KeyOf(plan, s) !in t.calls
    ensures |ReserveCall(t, plan, s).calls| == |t.calls| + 1
  {
    assert ReserveCall(t, plan, s).calls.Keys == t.calls.Keys + {KeyOf(plan, s)};
  }

  lemma CancelledRecord(cfg: Config, w: World, input: Input)
    requires w.op.FailRecording? || w.op.Recording?
    ensures var w' := Next(cfg, w, Go(input));
            && |w'.db.tables.calls| == |w.db.tables.calls| && w'.invoked == w.invoked
            && !w'.op.Reserving? && !w'.op.Invoking? && w'.db.row == w.db.row
  {
    hide Absorb;
    assert Next(cfg, w, Go(input)).db.tables.calls.Keys == w.db.tables.calls.Keys;
  }

  /** Every other step writes no call row, and between two steps the flag is read. */
  lemma CancelledOther(cfg: Config, w: World, a: Action)
    requires w.db.row.cancelRequested
    requires !(a.Go? && (w.op.Reserving? || w.op.FailRecording? || w.op.Recording?))
    ensures var w' := Next(cfg, w, a);
            && w'.db.row.cancelRequested
            && w'.db.tables.calls == w.db.tables.calls && ToReserve(w'.op) <= ToReserve(w.op)
            && |w'.invoked| + ToInvoke(w'.op) <= |w.invoked| + ToInvoke(w.op)
  {
    hide LatestVersion, Accepted, Exceeds, CanInsert, Uncertain;
  }

  lemma {:induction false} CancelledRun(cfg: Config, actions: seq<Action>, k: nat)
    requires ValidLimits(cfg.limits) && k <= |actions|
    requires Run(cfg, actions[..k]).db.row.cancelRequested
    ensures var w, w' := Run(cfg, actions[..k]), Run(cfg, actions);
            && w'.db.row.cancelRequested
            && |w'.db.tables.calls| + ToReserve(w'.op) <= |w.db.tables.calls| + ToReserve(w.op)
            && |w'.invoked| + ToInvoke(w'.op) <= |w.invoked| + ToInvoke(w.op)
  {
    hide Inv, Next, Run, ToReserve, ToInvoke;
    if k == |actions| {
      assert actions[..k] == actions;
    } else {
      var last := |actions| - 1;
      var init := actions[..last];
      assert init[..k] == actions[..k] && init + [actions[last]] == actions;
      CancelledRun(cfg, init, k);
      Reachable(cfg, init);
      RunSnoc(cfg, init, actions[last]);
      CancelledStep(cfg, Run(cfg, init), actions[last]);
    }
  }

  /**
   Once a cancellation is committed, at most one more step is reserved and at most one more handler
   is invoked; none if no step was between its cancellation check and its handler.
   */
  lemma CancellationLatency(cfg: Config, actions: seq<Action>, k: nat)
    requires ValidLimits(cfg.limits) && k <= |actions|
    requires Run(cfg, actions[..k]).db.row.cancelRequested
    ensures var w, w' := Run(cfg, actions[..k]), Run(cfg, actions);
            && |w'.db.tables.calls| <= |w.db.tables.calls| + 1 && |w'.invoked| <= |w.invoked| + 1
            && (!w.op.Reserving? && !w.op.Invoking? ==>
                  |w'.db.tables.calls| <= |w.db.tables.calls| && |w'.invoked| <= |w.invoked|)
  {
    hide Run;
    CancelledRun(cfg, actions, k);
  }

  /**
   A row that carries the cancellation flag has ended and stays as it is, exactly in the runs without
   a stale lock.
   */
  lemma CancelledStays(cfg: Config, actions: seq<Action>)
    requires ValidLimits(cfg.limits)
    ensures NeverStale(cfg, actions) <==>
              forall k :: 0 <= k <= |actions| && Run(cfg, actions[..k]).db.row.cancelRequested ==>
                Terminal(Run(cfg, actions[..k]).db.row.state)
                    && Unmoved(Run(cfg, actions[..k]).db, Run(cfg, actions).db)
  {
    hide Run, StaleLock, Terminal, Unmoved;
    if NeverStale(cfg, actions) {
      forall k | 0 <= k <= |actions| && Run(cfg, actions[..k]).db.row.cancelRequested
        ensures Terminal(Run(cfg, actions[..k]).db.row.state)
                  && Unmoved(Run(cfg, actions[..k]).db, Run(cfg, actions).db)
      {
        PrefixNeverStale(cfg, actions, k);
        FaithfulIffNeverStale(cfg, actions[..k]);
        EndedUntilNow(cfg, actions, k);
      }
    } else {
      var k :| 0 <= k < |actions| && StaleLock(cfg, Run(cfg, actions[..k]), actions[k]);
      StaleLockAt(cfg, actions, k);
    }
  }

  /** The cancellation branch before planning never commits: the transition it asks for is always refused. */
  lemma EarlyCancelNeverCommits(cfg: Config, actions: seq<Action>, input: Input)
    requires ValidLimits(cfg.limits) && Run(cfg, actions).op.RunLock? && Run(cfg, actions).op.seen.cancelRequested
    ensures var w, w' := Run(cfg, actions), Run(cfg, actions + [Go(input)]);
            w'.db == w.db && w'.op.Finishing? && w'.op.cause in {Illegal, StaleVersion}
  {
    hide Run, TablesOk, BudgetOk, StageOk, HistoryOk, Exceeds;
    Reachable(cfg, actions);
    RunSnoc(cfg, actions, Go(input));
  }

  // ----- Internal errors and the loop bound -----

  /**
   The background operation never fails for an internal reason: not for a missing runnable step,
   not for uncertain or missing rows, not for lack of progress, and not for exceeding the bound of
   the state loop. What it does hit is external, or the effect of a cancellation.
   */
  lemma NoInternalError(cfg: Config, actions: seq<Action>)
    requires ValidLimits(cfg.limits) && Run(cfg, actions).op.Finishing?
    ensures var cause := Run(cfg, actions).op.cause;
            && cause !in {NoRunnableStep, UncertainSteps, UncertainCall, MissingRecord, LostCall, NoPlan, NoReport,
                  NoProgress, LoopBound}
            && (cause != External ==> Run(cfg, actions).db.row.cancelRequested)
  {
    hide DbInv, HistoryOk, Executes, OnLatest, Clean, ExecOk, Run, Fits;
    Reachable(cfg, actions);
    FinishingCause(cfg, Run(cfg, actions));
  }

  lemma FinishingCause(cfg: Config, w: World)
    requires Inv(cfg, w) && w.op.Finishing?
    ensures w.op.cause == External || (CancelCause(w.op.cause) && w.db.row.cancelRequested)
  {
    hide DbInv, HistoryOk, Executes, OnLatest, Clean, ExecOk, Fits, StepInFlight, LatestVersion, At;
  }

  /** The state loop never starts more than 3 + 2 * max_revisions iterations. */
  lemma LoopIsBounded(cfg: Config, actions: seq<Action>)
    requires ValidLimits(cfg.limits) && Run(cfg, actions).op.Head?
    ensures var w := Run(cfg, actions);
            && w.op.iter <= 3 + 2 * cfg.limits.maxRevisions
            && (w.db.row.state in {PENDING, EXECUTING, REPLANNING} ==> w.op.iter < 3 + 2 * cfg.limits.maxRevisions)
            && w.op.previous != Some(w.db.row.state)
  {
    hide Run, Inv;
    Reachable(cfg, actions);
    HeadBound(cfg, Run(cfg, actions));
  }

  lemma HeadBound(cfg: Config, w: World)
    requires Inv(cfg, w) && w.op.Head?
    ensures w.op.iter <= Bound(cfg.limits) && w.op.previous != Some(w.db.row.state)
    ensures LoopState(w.db.row.state) ==> w.op.iter < Bound(cfg.limits)
  {
    hide DbInv, HistoryOk, Clean, LatestVersion;
  }
}
