/**
 The transactions as the services carry them out: row update by row update inside an open session,
 committed or rolled back at the end. Each is proved to have exactly the effect of the function of
 the same name in Transactions.
 */
module TaskStore {
  import opened Contracts
  import opened TaskStates
  import opened Tables
  import opened WorkflowInvariant
  import T = Transactions

  /** An open session: the rows as this transaction sees them, with its uncommitted writes. */
  class Session {
    var row: T.Row
    var events: seq<Event>
    var tables: Tables
    var usage: seq<T.Usage>
    var reports: set<nat>

    constructor (db: T.Database)
      ensures View() == db
    {
      row, events, tables, usage, reports := db.row, db.events, db.tables, db.usage, db.reports;
    }

    function View(): T.Database
      reads this
    {
      T.Database(row, events, tables, usage, reports)
    }

    /** The repository's guarded transition: version check, table check, then row and event. */
    method Transition(target: TaskState, expectedVersion: nat) returns (raised: Option<T.Cause>)
      modifies this
      ensures raised == if old(row.version) != expectedVersion then Some(T.StaleVersion)
                        else if !CanMove(old(row.state), target) then Some(T.Illegal)
                        else None
      ensures View() == if raised.None? then T.Move(old(View()), target) else old(View())
    {
      if row.version != expectedVersion { return Some(T.StaleVersion); }
      var current := row.state;
      if !CanMove(current, target) { return Some(T.Illegal); }
      row := T.Row(target, row.version + 1, row.cancelRequested);
      events := events + [Event(current, target)];
      return None;
    }

    /** Adds the usage of every drained invocation and returns the sums of these invocations. */
    method RecordUsage(usages: seq<T.Usage>) returns (tokens: nat, cost: real)
      modifies this
      ensures View() == old(View()).(usage := old(usage) + usages)
      ensures tokens == T.TotalTokens(usages) && cost == T.TotalCost(usages)
      ensures tokens == T.TokenSum(usages, T.InputTokens) + T.TokenSum(usages, T.CacheCreationTokens)
                  + T.TokenSum(usages, T.CacheReadTokens) + T.TokenSum(usages, T.OutputTokens)
      ensures cost == T.CostSum(usages)
    {
      tokens, cost := 0, 0.0;
      for i := 0 to |usages|
        invariant View() == old(View()).(usage := old(usage) + usages[..i])
        invariant tokens == T.TotalTokens(usages[..i]) && cost == T.TotalCost(usages[..i])
      {
        assert usages[..i + 1][..i] == usages[..i];
        tokens := tokens + T.TokensOf(usages[i]);
        cost := cost + usages[i].cost;
        usage := usage + [usages[i]];
      }
      assert usages[..|usages|] == usages;
      T.TotalsAreColumns(usages);
    }

    /** The plan row and one pending record per step; a violated unique key raises. */
    method AddPlan(plan: Plan) returns (raised: Option<T.Cause>)
      modifies this
      ensures raised.None? <==> CanInsert(old(tables), plan)
      ensures raised.Some? ==> raised == Some(T.External)
      ensures raised.None? ==> View() == old(View()).(tables := InsertPlan(old(tables), plan))
    {
      if !CanInsert(tables, plan) { return Some(T.External); }
      hide PendingRecords, CanInsert;
      ghost var before := tables;
      tables := tables.(plans := tables.plans[plan.version := plan]);
      PendingNone(plan, before.steps);
      for i := 0 to |plan.steps|
        invariant row == old(row) && events == old(events) && usage == old(usage) && reports == old(reports)
        invariant tables.plans == before.plans[plan.version := plan]
        invariant tables.calls == before.calls && tables.evidence == before.evidence
        invariant tables.steps == before.steps + PendingRecords(plan.(steps := plan.steps[..i]))
      {
        PendingSnoc(plan, i, before.steps);
        tables := tables.(steps := tables.steps[RecordOf(plan, plan.steps[i]) := StepPending]);
      }
      assert plan.(steps := plan.steps[..|plan.steps|]) == plan;
      return None;
    }
  }

  lemma PendingNone(plan: Plan, m: map<StepKey, StepStatus>)
    ensures m + PendingRecords(plan.(steps := plan.steps[..0])) == m
  {
  }

  lemma PendingSnoc(plan: Plan, i: nat, m: map<StepKey, StepStatus>)
    requires i < |plan.steps|
    ensures m + PendingRecords(plan.(steps := plan.steps[..i + 1]))
         == (m + PendingRecords(plan.(steps := plan.steps[..i])))[RecordOf(plan, plan.steps[i]) := StepPending]
  {
    OneMorePending(plan, i);
    hide PendingRecords;
  }

  lemma OneMorePending(plan: Plan, i: nat)
    requires i < |plan.steps|
    ensures PendingRecords(plan.(steps := plan.steps[..i + 1]))
         == PendingRecords(plan.(steps := plan.steps[..i]))[RecordOf(plan, plan.steps[i]) := StepPending]
  {
    assert plan.steps[..i + 1] == plan.steps[..i] + [plan.steps[i]];
  }

  /** The committed database of one task. A method that raises leaves it as it was. */
  class Store {
    var committed: T.Database

    constructor ()
      ensures committed == T.NEW_TASK
    {
      committed := T.NEW_TASK;
    }

    /** The second transaction of a new task: usage, budget, plan rows and three transitions. */
    method StoreFirstPlan(limits: T.Limits, plan: Plan, usages: seq<T.Usage>, validated: bool)
        returns (raised: Option<T.Cause>)
      modifies this
      ensures match T.StoreFirstPlan(old(committed), limits, plan, usages, validated)
              case Commit(db) => raised.None? && committed == db
              case Rollback(cause) => raised == Some(cause) && committed == old(committed)
      ensures raised.None? ==>
                var state := committed.row.state;
                && committed.usage == old(committed.usage) + usages
                && (if T.OverBudget(limits, usages) then state == BUDGET_EXCEEDED
                    else state == EXECUTING && validated && CanInsert(old(committed.tables), plan))
                && committed.tables
                     == if state == EXECUTING then InsertPlan(old(committed.tables), plan) else old(committed.tables)
    {
      var session := new Session(committed);
      var tokens, cost := session.RecordUsage(usages);
      T.TotalsAreColumns(usages);
      if tokens > limits.maxTokens || cost > limits.maxCost {
        raised := session.Transition(BUDGET_EXCEEDED, session.row.version);
        if raised.None? { committed := session.View(); }
        return;
      }
      raised := session.Transition(PLANNING, session.row.version);
      if raised.Some? { return; }
      if !validated { return Some(T.External); }
      raised := session.AddPlan(plan);
      if raised.Some? { return; }
      raised := session.Transition(POLICY_CHECK, session.row.version);
      if raised.Some? { return; }
      raised := session.Transition(EXECUTING, session.row.version);
      if raised.Some? { return; }
      committed := session.View();
    }

    /** The second transaction of a revision. */
    method StoreReplan(limits: T.Limits, plan: Plan, usages: seq<T.Usage>) returns (raised: Option<T.Cause>)
      modifies this
      ensures match T.StoreReplan(old(committed), limits, plan, usages)
              case Commit(db) => raised.None? && committed == db
              case Rollback(cause) => raised == Some(cause) && committed == old(committed)
      ensures raised.None? ==>
                var state := committed.row.state;
                && committed.usage == old(committed.usage) + usages
                && (if T.OverBudget(limits, committed.usage) then state == BUDGET_EXCEEDED
                    else state == EXECUTING && CanInsert(old(committed.tables), plan))
                && committed.tables
                     == if state == EXECUTING then InsertPlan(old(committed.tables), plan) else old(committed.tables)
    {
      var session := new Session(committed);
      var _, _ := session.RecordUsage(usages);
      T.TotalsAreColumns(session.usage);
      if T.TotalTokens(session.usage) > limits.maxTokens || T.TotalCost(session.usage) > limits.maxCost {
        raised := session.Transition(BUDGET_EXCEEDED, session.row.version);
        if raised.None? { committed := session.View(); }
        return;
      }
      raised := session.AddPlan(plan);
      if raised.Some? { return; }
      raised := session.Transition(POLICY_CHECK, session.row.version);
      if raised.Some? { return; }
      raised := session.Transition(EXECUTING, session.row.version);
      if raised.Some? { return; }
      committed := session.View();
    }

    /** The verdict transaction: usage, report, and the target state they decide. */
    method StoreVerdict(limits: T.Limits, planId: nat, verdict: T.Verdict, replanAdvised: bool, usages: seq<T.Usage>)
      returns (raised: Option<T.Cause>)
      modifies this
      ensures match T.StoreVerdict(old(committed), limits, planId, verdict, replanAdvised, usages)
              case Commit(db) => raised.None? && committed == db
              case Rollback(cause) => raised == Some(cause) && committed == old(committed)
      ensures raised.None? ==>
                var state, over := committed.row.state, T.OverBudget(limits, committed.usage);
                && committed.usage == old(committed.usage) + usages
                && committed.reports == old(committed.reports) + {planId} && committed.tables == old(committed.tables)
                && (state == BUDGET_EXCEEDED <==> over)
                && (state == SUCCEEDED <==> !over && verdict.Passed?)
                && (state == REPLANNING <==> !over && verdict.Failed? && replanAdvised)
                && (state == FAILED <==> !over && verdict.Failed? && !replanAdvised)
                && (state == NEEDS_REVIEW <==> !over && verdict.NeedsReview?)
      ensures old(committed.row.state) == VERIFYING ==> raised.None?
    {
      var session := new Session(committed);
      var _, _ := session.RecordUsage(usages);
      T.TotalsAreColumns(session.usage);
      session.reports := session.reports + {planId};
      var target: TaskState;
      if T.TotalTokens(session.usage) > limits.maxTokens || T.TotalCost(session.usage) > limits.maxCost {
        target := BUDGET_EXCEEDED;
      } else if verdict == T.Failed && replanAdvised {
        target := REPLANNING;
      } else {
        target := if verdict == T.Passed then SUCCEEDED else if verdict == T.Failed then FAILED else NEEDS_REVIEW;
      }
      raised := session.Transition(target, session.row.version);
      if raised.None? { committed := session.View(); }
    }

    /** The user's cancellation: the flag always, the transition unless the task has ended. */
    method Cancel() returns (raised: Option<T.Cause>)
      modifies this
      ensures match T.CancelTask(old(committed))
              case Commit(db) => raised.None? && committed == db
              case Rollback(cause) => raised == Some(cause) && committed == old(committed)
      ensures raised.None? ==>
                && committed.row.cancelRequested
                && committed.row.state == if Terminal(old(committed.row.state)) then old(committed.row.state)
                                          else CANCELLED
    {
      var session := new Session(committed);
      session.row := session.row.(cancelRequested := true);
      raised := None;
      if session.row.state !in TERMINAL_STATES {
        raised := session.Transition(CANCELLED, session.row.version);
      }
      if raised.None? { committed := session.View(); }
    }

    /** The background operation records its own failure; nothing happens to an ended task. */
    method Finish(target: TaskState)
      modifies this
      ensures committed == T.FinishTask(old(committed), target)
      ensures committed.row.state == if CanMove(old(committed.row.state), target) then target
                                     else old(committed.row.state)
    {
      var session := new Session(committed);
      if session.row.state in TERMINAL_STATES { return; }
      var raised := session.Transition(target, session.row.version);
      if raised.Some? { return; }
      committed := session.View();
    }

    /** Reserve: look for an earlier call, then insert the started call and mark the step running. */
    method ReserveStep(version: nat, step: Step) returns (outcome: T.Reservation)
      modifies this
      ensures outcome == T.ReserveStep(old(committed), version, step)
      ensures committed == if outcome.Reserved? then outcome.db else old(committed)
      ensures var t, key := old(committed.tables), CallKey(version, step.id, step.tool, step.arguments);
              && (outcome.Reused? <==> key in t.calls && t.calls[key].status == CallSucceeded)
              && (outcome == T.Refused(T.UncertainCall) <==> key in t.calls && t.calls[key].status != CallSucceeded)
              && (outcome.Reserved? <==>
                    && key !in t.calls && version in t.plans
                    && StepKey(t.plans[version].planId, step.id) in t.steps)
              && (outcome.Reserved? ==>
                    var record := StepKey(t.plans[version].planId, step.id);
                    committed.tables == t.(calls := t.calls[key := CallRow(record, CallStarted)],
                                           steps := t.steps[record := StepRunning]))
    {
      var session := new Session(committed);
      var key := CallKey(version, step.id, step.tool, step.arguments);
      if key in session.tables.calls {
        if session.tables.calls[key].status == CallSucceeded { return T.Reused; }
        return T.Refused(T.UncertainCall);
      }
      if version !in session.tables.plans { return T.Refused(T.MissingRecord); }
      var record := StepKey(session.tables.plans[version].planId, step.id);
      if record !in session.tables.steps { return T.Refused(T.MissingRecord); }
      session.tables := session.tables.(calls := session.tables.calls[key := CallRow(record, CallStarted)]);
      session.tables := session.tables.(steps := session.tables.steps[record := StepRunning]);
      committed := session.View();
      return T.Reserved(committed);
    }

    /** A handler that raised: call and step become failed; a call that is gone changes nothing. */
    method RecordFailure(version: nat, step: Step)
      modifies this
      ensures committed == T.RecordFailure(old(committed), version, step)
      ensures var t, key := old(committed.tables), CallKey(version, step.id, step.tool, step.arguments);
              key in t.calls ==>
                && committed.tables.calls == t.calls[key := CallRow(t.calls[key].record, CallFailed)]
                && committed.tables.evidence == t.evidence
                && (t.calls[key].record in t.steps ==>
                      committed.tables.steps == t.steps[t.calls[key].record := StepFailed])
    {
      var session := new Session(committed);
      var key := CallKey(version, step.id, step.tool, step.arguments);
      if key !in session.tables.calls { return; }
      var call := session.tables.calls[key];
      session.tables := session.tables.(calls := session.tables.calls[key := call.(status := CallFailed)]);
      if call.record in session.tables.steps {
        session.tables := session.tables.(steps := session.tables.steps[call.record := StepFailed]);
      }
      committed := session.View();
    }

    /** Record: status and result of the call, status of the step, and the evidence row. */
    method RecordResult(version: nat, step: Step, checkFailed: bool) returns (raised: Option<T.Cause>)
      modifies this
      ensures match T.RecordResult(old(committed), version, step, checkFailed)
              case Commit(db) => raised.None? && committed == db
              case Rollback(cause) => raised == Some(cause) && committed == old(committed)
      ensures var t, key := old(committed.tables), CallKey(version, step.id, step.tool, step.arguments);
              && (raised.None? <==> key in t.calls)
              && (raised.None? ==>
                    var record := t.calls[key].record;
                    && committed.tables.calls
                         == t.calls[key := CallRow(record, if checkFailed then CallFailed else CallSucceeded)]
                    && committed.tables.evidence == t.evidence + [record]
                    && (record in t.steps ==>
                          committed.tables.steps
                            == t.steps[record := if checkFailed then StepFailed else StepSucceeded]))
    {
      var session := new Session(committed);
      var key := CallKey(version, step.id, step.tool, step.arguments);
      if key !in session.tables.calls { return Some(T.LostCall); }
      var call := session.tables.calls[key];
      call := call.(status := if checkFailed then CallFailed else CallSucceeded);
      session.tables := session.tables.(calls := session.tables.calls[key := call]);
      if call.record in session.tables.steps {
        var status := if checkFailed then StepFailed else StepSucceeded;
        session.tables := session.tables.(steps := session.tables.steps[call.record := status]);
      }
      session.tables := session.tables.(evidence := session.tables.evidence + [call.record]);
      committed := session.View();
      return None;
    }
  }

  /**
   The recovery pass over all tasks: live ones are scheduled or sent to review, one commit each.
   A refused transition would abort the pass where it stands.
   */
  method RecoverAll(tasks: array<T.Database>) returns (recovered: seq<nat>, raised: bool)
    modifies tasks
    ensures raised ==>
              exists i :: && 0 <= i < tasks.Length && !Terminal(old(tasks[i].row.state))
                          && T.RecoverTask(old(tasks[i])).RecoveryError?
    ensures !raised ==> forall i :: 0 <= i < tasks.Length ==> tasks[i] == Recovered(old(tasks[i]))
    ensures !raised ==> forall i :: i in recovered <==> 0 <= i < tasks.Length && IsScheduled(old(tasks[i]))
    ensures forall i, j :: 0 <= i < j < |recovered| ==> recovered[i] < recovered[j]
  {
    hide Recovered, IsScheduled, HasUncertainCall, T.RecoverTask;
    recovered, raised := [], false;
    for n := 0 to tasks.Length
      invariant forall i :: 0 <= i < n ==> tasks[i] == Recovered(old(tasks[i]))
      invariant forall i :: n <= i < tasks.Length ==> tasks[i] == old(tasks[i])
      invariant forall i :: i in recovered <==> 0 <= i < n && IsScheduled(old(tasks[i]))
      invariant forall i :: 0 <= i < |recovered| ==> recovered[i] < n
      invariant forall i, j :: 0 <= i < j < |recovered| ==> recovered[i] < recovered[j]
    {
      var task := tasks[n];
      RecoveryCases(task);
      if task.row.state in TERMINAL_STATES || task.row.state == NEEDS_REVIEW { continue; }
      var session := new Session(task);
      if task.row.state == WAITING_CONFIRMATION {
        var refused := session.Transition(EXECUTING, task.row.version);
        tasks[n] := session.View();
        recovered := recovered + [n];
        continue;
      }
      if task.row.state == PENDING || (task.row.state == EXECUTING && !HasUncertainCall(task.tables)) {
        recovered := recovered + [n];
        continue;
      }
      var refused := session.Transition(NEEDS_REVIEW, task.row.version);
      if refused.Some? {
        raised := true;
        return;
      }
      tasks[n] := session.View();
    }
  }

  /** What the pass does with a task, state by state. */
  lemma RecoveryCases(db: T.Database)
    ensures var state := db.row.state;
            && (Terminal(state) || state == NEEDS_REVIEW ==> Recovered(db) == db && !IsScheduled(db))
            && (state == WAITING_CONFIRMATION ==> Recovered(db) == T.Move(db, EXECUTING) && IsScheduled(db))
            && (state == PENDING || (state == EXECUTING && !HasUncertainCall(db.tables)) ==>
                  Recovered(db) == db && IsScheduled(db))
    ensures var state := db.row.state;
            !Terminal(state) && state !in {NEEDS_REVIEW, WAITING_CONFIRMATION, PENDING}
            && !(state == EXECUTING && !HasUncertainCall(db.tables)) ==>
              && !IsScheduled(db)
              && (CanMove(state, NEEDS_REVIEW) ==> Recovered(db) == T.Move(db, NEEDS_REVIEW))
              && (!CanMove(state, NEEDS_REVIEW) ==> T.RecoverTask(db).RecoveryError?)
  {
    hide HasUncertainCall;
  }

  /** The database of a task after the recovery pass. */
  function Recovered(db: T.Database): T.Database {
    if Terminal(db.row.state) then db
    else match T.RecoverTask(db)
      case Scheduled(d) => d
      case Reviewed(d) => d
      case _ => db
  }

  predicate IsScheduled(db: T.Database) {
    !Terminal(db.row.state) && T.RecoverTask(db).Scheduled?
  }

  /**
   A recovery pass over tasks in reachable states is never refused a transition: it ends with every
   task finished, in review, or scheduled in a state from which it can go on, and all rows in agreement.
   */
  lemma RecoveryPassSucceeds(limits: seq<T.Limits>, before: seq<T.Database>)
    requires |limits| == |before| && forall i :: 0 <= i < |before| ==> DbInv(limits[i], before[i])
    ensures forall i :: 0 <= i < |before| && !Terminal(before[i].row.state) ==> !T.RecoverTask(before[i]).RecoveryError?
    ensures forall i :: 0 <= i < |before| ==> DbInv(limits[i], Recovered(before[i]))
    ensures forall i :: 0 <= i < |before| ==>
              || Terminal(before[i].row.state) || Recovered(before[i]).row.state == NEEDS_REVIEW
              || (&& IsScheduled(before[i]) && Recovered(before[i]) == before[i]
                  && (before[i].row.state == PENDING || (before[i].row.state == EXECUTING && Clean(before[i].tables))))
  {
    forall i | 0 <= i < |before| && !Terminal(before[i].row.state)
      ensures !T.RecoverTask(before[i]).RecoveryError? && DbInv(limits[i], Recovered(before[i]))
      ensures Recovered(before[i]).row.state == NEEDS_REVIEW
           || (&& IsScheduled(before[i]) && Recovered(before[i]) == before[i]
               && (before[i].row.state == PENDING || (before[i].row.state == EXECUTING && Clean(before[i].tables))))
    {
      hide DbInv, Clean, T.RecoverTask;
      RecoverKeeps(limits[i], before[i]);
    }
    hide DbInv, Clean, T.RecoverTask;
  }
}
