/** The states of a task row and the transitions the repository allows between them. */
module TaskStates {

  datatype TaskState =
    | PENDING | ANALYZING | PLANNING | POLICY_CHECK | WAITING_CONFIRMATION | EXECUTING | VERIFYING
    | REPLANNING | NEEDS_REVIEW | SUCCEEDED | FAILED | CANCELLED | REJECTED | BUDGET_EXCEEDED

  const TERMINAL_STATES: set<TaskState> := {SUCCEEDED, FAILED, CANCELLED, REJECTED, BUDGET_EXCEEDED}

  predicate Terminal(s: TaskState) {
    s in TERMINAL_STATES
  }

  function Allowed(s: TaskState): set<TaskState> {
    match s
    case PENDING => {ANALYZING, CANCELLED, REJECTED, FAILED, BUDGET_EXCEEDED}
    case ANALYZING => {PLANNING, NEEDS_REVIEW, FAILED, CANCELLED, BUDGET_EXCEEDED}
    case PLANNING => {POLICY_CHECK, NEEDS_REVIEW, FAILED, CANCELLED, BUDGET_EXCEEDED}
    case POLICY_CHECK => {EXECUTING, REJECTED, FAILED, CANCELLED, BUDGET_EXCEEDED}
    case WAITING_CONFIRMATION => {EXECUTING, REJECTED, CANCELLED, BUDGET_EXCEEDED}
    case EXECUTING => {VERIFYING, NEEDS_REVIEW, FAILED, CANCELLED, BUDGET_EXCEEDED}
    case VERIFYING => {SUCCEEDED, REPLANNING, NEEDS_REVIEW, FAILED, CANCELLED, BUDGET_EXCEEDED}
    case REPLANNING => {POLICY_CHECK, NEEDS_REVIEW, FAILED, CANCELLED, BUDGET_EXCEEDED}
    case NEEDS_REVIEW => {ANALYZING, PLANNING, POLICY_CHECK, REJECTED, CANCELLED, FAILED}
    case _ => {}
  }

  /** What validate_transition accepts. */
  predicate CanMove(current: TaskState, target: TaskState) {
    !Terminal(current) && target in Allowed(current)
  }

  /** The same table from the other side: where a row can come from. Ended states allow nothing, also not to stay. */
  lemma ComesFrom(s: TaskState)
    ensures !CanMove(s, PENDING) && !CanMove(s, WAITING_CONFIRMATION) && !CanMove(s, s)
    ensures CanMove(s, ANALYZING) <==> s in {PENDING, NEEDS_REVIEW}
    ensures CanMove(s, PLANNING) <==> s in {ANALYZING, NEEDS_REVIEW}
    ensures CanMove(s, POLICY_CHECK) <==> s in {PLANNING, REPLANNING, NEEDS_REVIEW}
    ensures CanMove(s, EXECUTING) <==> s in {POLICY_CHECK, WAITING_CONFIRMATION}
    ensures CanMove(s, VERIFYING) <==> s == EXECUTING
    ensures CanMove(s, REPLANNING) <==> s == VERIFYING
    ensures CanMove(s, SUCCEEDED) <==> s == VERIFYING
    ensures CanMove(s, NEEDS_REVIEW) <==> s in {ANALYZING, PLANNING, EXECUTING, VERIFYING, REPLANNING}
    ensures CanMove(s, REJECTED) <==> s in {PENDING, POLICY_CHECK, WAITING_CONFIRMATION, NEEDS_REVIEW}
    ensures CanMove(s, CANCELLED) <==> s !in {SUCCEEDED, FAILED, CANCELLED, REJECTED, BUDGET_EXCEEDED}
    ensures CanMove(s, FAILED) <==> CanMove(s, CANCELLED) && s != WAITING_CONFIRMATION
    ensures CanMove(s, BUDGET_EXCEEDED) <==> CanMove(s, CANCELLED) && s != NEEDS_REVIEW
  {
  }

  datatype Event = Event(from: TaskState, to: TaskState)

  /** The events form one path of the transition graph from a new task to the given state. */
  ghost predicate Linked(events: seq<Event>, state: TaskState) {
    && (forall i :: 0 <= i < |events| ==> CanMove(events[i].from, events[i].to))
    && (forall i :: 0 <= i < |events| - 1 ==> events[i].to == events[i + 1].from)
    && (if events == [] then state == PENDING
        else events[0].from == PENDING && events[|events| - 1].to == state)
  }

  lemma LinkedSnoc(events: seq<Event>, state: TaskState, target: TaskState)
    requires Linked(events, state) && CanMove(state, target)
    ensures Linked(events + [Event(state, target)], target)
  {
  }

  /** Nothing follows a terminal state in a linked log. */
  lemma TerminalIsLast(events: seq<Event>, state: TaskState, i: nat)
    requires Linked(events, state) && i < |events|
    ensures i < |events| - 1 ==> !Terminal(events[i].to)
  {
    if i < |events| - 1 {
      assert CanMove(events[i + 1].from, events[i + 1].to);
    }
  }
}
