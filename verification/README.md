# Task engine: model and proofs

A Dafny model of the durable task engine of the backend: planning, scheduling, execution, recovery
and cancellation of a task, the streaming of chat replies, the conversation transcript and its
resumable stream, the agent loop, and the bounding of subagent output. `dafny verify dfyconfig.toml`
checks everything.

## What is modelled

**The workflow of one task** (`Workflow*.dfy`, `Transactions.dfy`, `Tables.dfy`, `TaskStates.dfy`).
A transition system. The durable part is the task row (state, version, cancellation flag), the event
log, plans, step records, tool calls, evidence, usage and verification reports. The volatile part is
the background operation: where it is and its locals. Every commit, every read, and the start and end
of a tool handler is one atomic step; an exception, a cancelled coroutine or a crash can happen
between any two of them and discards what was not committed. The user can cancel at any time, and
recovery runs after a restart. What the model answers, what handlers return and what the verifier
says are arbitrary inputs. `Workflow.Run` is the world after any sequence of actions, and the
theorems of `WorkflowTheorems.dfy` quantify over all of them.

The transactions are given twice: as functions from one committed database to the next
(`Transactions.dfy`), on which the run theorems rest, and as methods that update the rows of an open
session one by one and commit or roll back, as the services do (`TaskStore.dfy`). Each method is
proved to have exactly the effect of its function.

**What comes from outside** (`WorkflowOutcomes.dfy`). What every run makes of a handler's outcome, of
the planner's answer, of the verifier's verdict, of a failure and of a cancellation, row by row and
without naming the functions that compute it; and the other way round, where succeeded steps, stored
plans and succeeded tasks come from.

**A locking read that may be stale.** `OrchestratorService.run` reads the row without a lock and then
lets `transition` select it again for update in the same session. Whether that second read refreshes
the loaded object is the parameter `refresh` of the model. In the code it does not: the query
(`backend/app/repositories.py:36-44`) does not ask for populated objects to be overwritten, and the
sessions keep their objects (`backend/app/database.py:56-60`), so `refresh` is `false` and a
cancellation committed between the two reads is overwritten. The theorems hold for both settings;
those that such a stale lock breaks are equivalences that say so. Without one, and only without one,
the log describes the row (`LogRefinesState`), no event follows the one that ended the task
(`NothingAfterTheEnd`), an ended task keeps its row and its log (`TerminalForever`), and a row that
carries the cancellation flag has ended and stays so (`CancelledStays`). `StaleReadIff` and
`StaleWindow` exhibit the window. Even there no handler runs after the lost cancellation
(`CancellationLatency`).

**Several operations at once** (`WorkflowCrowd.dfy`). The workflow has one background operation per
task, because the coordinator refuses a second one. `AtMostOnceInACrowd` does without that: any number
of operations that take the same atomic steps on the same database, in any interleaving, run a handler
at most once between them, because of the unique key of the tool calls alone.

**Order** (`WorkflowOrder.dfy`). The order of the handlers read off the history of a run: in every run
it respects the dependencies, and since its last start an execution has followed the depth order of
what was left of its plan, the same order that `WaveScheduler.RunPlan` computes.

**Plans** (`PlanGraph.dfy`, `WaveScheduler.dfy`, `PlanFiles.dfy`). The depth-first validator as a
class with its two mutable sets, the ready-list scheduler as a method, and the file simulation of
`validate_plan`. What an execution runs, fresh or resumed, is the depth order of what was left of the
plan when it started (the steps not done, without the dependencies that are done), up to the failed
step if there is one. The simulation walks the plan in list order instead, so a read that passed it
can still meet a missing file, and a resume can break what a fresh execution would have got right:
`SimulationCanMiss` and `ResumeCanMiss` are accepted plans that fail. `ResumedFindsFileIff` gives the
exact condition for every execution: the creator is not deeper than the reader in what was left.

**Streaming replies** (`StreamDecoder.dfy`, `StreamPublisher.dfy`). The incremental decoder of a
half-received JSON string (section 7 of RFC 8259) and its throttled publisher. The decoder does not
join surrogate pair escapes; `RoundTripIff` states that this is the only way it can return something
else than the string that was written under the first occurrence of the key, whatever text, with or
without quotes, was received before. If an earlier turn has already written the key, the visible text
stays with that turn's value (`EarlierKeyWins`, `LaterReplyHidden`).

**Transcript and its stream** (`Transcript.dfy`, `TranscriptStream.dfy`, `TranscriptRestart.dfy`). The conversation store with
its cache, file and background flush, and the server-sent event stream with its resume rule
(section 9.2 of the WHATWG HTML standard) together with the browser's duplicate filter. A restart can
lose an unwritten tail and give its ids to other messages, which a client that is past them drops:
`TranscriptRestart.dfy` joins store and stream and shows that delivery stays exactly once if and only
if no restart cuts the transcript below the cursor of a client that has handled something.

**Agent loop and output bounds** (`AgentLoop.dfy`, `Truncation.dfy`). The message protocol of the
multi-turn loop with the OpenAI adapter, and the truncation of a subagent's output by lines and UTF-8
bytes (sections 3 and 4 of RFC 3629).

## Where the code and its descriptions differ

- `run` has a branch for a task that is flagged as cancelled before planning starts
  (`backend/app/orchestrator/service.py:48-57`). It can never commit: the flag and the CANCELLED state
  are committed together, so the transition it asks for is refused. The model has the branch
  (`EarlyCancelNeverCommits`).
- `_run` computes the loop bound as if every plan had the version after its predecessor, while the
  first plan's version comes from the model and may be any positive number. The bound still holds, and
  it is reached when the first version is 1.
- Flushing is not always durable: after a failed write it does nothing until some later append with a
  new source id registers a new flush task. `FlushIsDurable` gives the exact condition on the run.
- A run of the agent loop that stops between the calls of a turn and their results (no executor, tools
  interrupted, or the event of the turn's message raising) leaves a list that `continue_run` would send
  with unanswered calls; after every other stop the list is paired (`LoopKeepsProtocol`).

## Model

| member | source | states |
|---|---|---|
| PlanGraph.ValidateDag | backend/app/contracts/execution.py:26-50 | the validator accepts a plan if and only if ids are unique, dependencies exist and no dependency path returns to its start; otherwise it names the first failed check |
| PlanGraph.DagValidator.Visit | backend/app/contracts/execution.py:34-46 | a visit terminates; success means nothing reachable from what is visited lies on a cycle, failure exhibits a cycle |
| PlanGraph.FinishVisit | backend/app/contracts/execution.py:37-46 | marking a node visited once all its dependencies are keeps the visited set closed and free of cycles |
| PlanGraph.GraphOfSize | backend/app/contracts/execution.py:28-30 | the dictionary is as large as the step list exactly when no id repeats |
| PlanGraph.RankedIsAcyclic | backend/app/contracts/execution.py:37-49 | any numbering that puts dependencies first proves that the plan is accepted by the cycle check |
| WaveScheduler.AlwaysReady | backend/app/orchestrator/execution.py:67-70 | for an accepted plan and any completed set the scheduler finds a runnable step, so its error is unreachable |
| WaveScheduler.RunPlan | backend/app/orchestrator/execution.py:62-80 | every step runs after its dependencies; the order is a prefix of the depth order of what was left of the plan at the start, fresh or resumed, and all of it if no step fails |
| WaveScheduler.ReadyOfResidual | backend/app/orchestrator/execution.py:65-70 | the ready list of a resumed execution is, step for step, that of a fresh execution of what is left |
| WaveScheduler.ResidualAccepted | backend/app/contracts/execution.py:26-50 | what is left of an accepted plan is an accepted plan |
| WaveScheduler.AllWaves | backend/app/orchestrator/execution.py:67-80 | any first waves of an accepted plan go on to exactly all its depth classes |
| WaveScheduler.RunWave | backend/app/orchestrator/execution.py:71-80 | one ready list is run in order up to the first failure |
| WaveScheduler.NextWave | backend/app/orchestrator/execution.py:68 | once all chains of length k are done, the ready list is exactly the steps whose longest chain has length k + 1 |
| WaveScheduler.TransitivelyDone | backend/app/orchestrator/execution.py:67-80 | when a step runs, everything it transitively depends on has been completed |
| PlanFiles.ValidatePlan | backend/app/harness/validation.py:16-55 | no error if and only if task id, step budget, every policy check and the list-order file simulation hold; an error names the first check of the first step that fails, and the two file errors have a witness |
| PlanFiles.SingleCreator | backend/app/harness/validation.py:52-55 | in an accepted plan a path has at most one creator and was not there before |
| PlanFiles.CreateNeverMeetsFile | backend/app/harness/validation.py:52-55 | in any execution order, also after a resume, no create step meets an existing file |
| PlanFiles.CreatorIsEarlier | backend/app/harness/validation.py:49-51 | a used file is an initial one or created by an earlier step of the list |
| PlanFiles.DependentFindsFile | backend/app/orchestrator/execution.py:67-80 | a read or modify whose creator is a transitive dependency finds its file in every run |
| PlanFiles.RunsBefore | backend/app/orchestrator/execution.py:67-80 | of two steps, the later listed one starts after the other exactly when it is not in an earlier wave |
| PlanFiles.FindsFileIff | backend/app/harness/validation.py:44-55 | in the depth order of a plan, which a fresh execution follows, a read or modify that passed the simulation finds its file if and only if its creator's depth does not exceed its own |
| PlanFiles.ResidualFilesOk | backend/app/harness/validation.py:44-55 | what is left of a plan that passed the simulation passes it with the files that are there by then |
| PlanFiles.ResumedFindsFileIff | backend/app/orchestrator/execution.py:62-80 | in every execution, fresh, resumed or failed, a read or modify of a file not yet there finds it if and only if its creator is not deeper than it is in what was left of the plan |
| PlanFiles.FlatPlanFindsFiles | backend/app/harness/validation.py:44-55 | without dependencies a fresh execution follows list order and every step finds its file |
| PlanFiles.ResumedFlatPlan | backend/app/orchestrator/execution.py:62-80 | the same for a resumed or failed execution of a plan without dependencies |
| PlanFiles.SimulationCanMiss | backend/app/harness/validation.py:44-55 | an accepted plan whose read runs before the step that creates its file |
| PlanFiles.ResumeCanMiss | backend/app/orchestrator/recovery.py:41-44 | an accepted plan in which reader and creator have equal depth, so a fresh execution is fine, but after a resume the reader runs first |
| TaskStates.TerminalIsLast | backend/app/orchestrator/state_machine.py:118-120 | in a log linked by allowed transitions nothing follows a terminal state |
| Tables.ReserveKeeps | backend/app/orchestrator/execution.py:310-337 | committing the started call with the running step keeps all rows in agreement |
| Tables.FinishKeeps | backend/app/orchestrator/execution.py:394-443 | committing status, result and evidence together keeps all rows in agreement |
| Tables.FailKeeps | backend/app/orchestrator/execution.py:350-388 | committing a handler failure keeps all rows in agreement |
| Tables.InsertKeepsRows | backend/app/orchestrator/service.py:148-163 | a new plan with its pending records does not disturb the rows of older plans |
| Tables.NoUncertainCallIsClean | backend/app/orchestrator/recovery.py:59-70 | if no call of the task is started or failed, no step of the latest plan is running or failed |
| Transactions.TotalsAreColumns | backend/app/orchestrator/execution.py:176-197 | the running totals are the sums of the input, cache creation, cache read and output columns and of the cost column, so the budget test is the one on the columns |
| TaskStore.Session.Transition | backend/app/repositories.py:45-84 | version check, then table check, then row and event; a refusal changes nothing |
| TaskStore.Session.RecordUsage | backend/app/orchestrator/service.py:75-119 | the loop stores every usage record and returns the sum of the four token columns and the sum of the cost column |
| TaskStore.Session.AddPlan | backend/app/orchestrator/service.py:148-163 | plan row and one pending record per step, or an error if a unique key is taken |
| TaskStore.Store.StoreFirstPlan | backend/app/orchestrator/service.py:72-182 | the second transaction of a new task equals its function: over budget by the columns it commits BUDGET_EXCEEDED without a plan, otherwise the plan only if it was validated; an exception commits nothing |
| TaskStore.Store.StoreReplan | backend/app/orchestrator/service.py:251-356 | the second transaction of a revision equals its function, with the budget test on the columns of everything recorded |
| TaskStore.Store.StoreVerdict | backend/app/orchestrator/execution.py:125-224 | usage and report in one commit with the state: BUDGET_EXCEEDED if and only if a column sum is over its limit, otherwise SUCCEEDED for a pass, REPLANNING or FAILED for a failure with or without advice, NEEDS_REVIEW for an undecided verdict |
| TaskStore.Store.Cancel | backend/app/services/tasks.py:50-65 | the flag always, the CANCELLED state unless the task has ended |
| TaskStore.Store.Finish | backend/app/orchestrator/coordinator.py:920-967 | a failed operation moves a live task to its target if allowed and never touches an ended one |
| TaskStore.Store.ReserveStep | backend/app/orchestrator/execution.py:309-337 | a succeeded call is reused, another one refused, otherwise call and step are inserted in one commit |
| TaskStore.Store.RecordFailure | backend/app/orchestrator/execution.py:350-388 | call and step become failed, if the call is still there |
| TaskStore.Store.RecordResult | backend/app/orchestrator/execution.py:394-443 | call, step and evidence change in one commit, or nothing if the call is gone |
| TaskStore.RecoverAll | backend/app/orchestrator/recovery.py:19-57 | the pass schedules exactly the pending, legacy and cleanly executing tasks and moves the other live ones to NEEDS_REVIEW |
| TaskStore.RecoveryPassSucceeds | backend/app/orchestrator/recovery.py:19-57 | over tasks in reachable states the pass is never refused a transition, keeps all rows in agreement, and leaves every task finished, in review, or scheduled in a state it can go on from |
| WorkflowInvariant.MoveKeeps | backend/app/repositories.py:45-84 | a legal transition keeps the durable invariant |
| WorkflowInvariant.FirstPlanKeeps | backend/app/orchestrator/service.py:72-182 | storing the first plan commits EXECUTING with a clean latest plan or BUDGET_EXCEEDED, and fails only for an external reason or a cancellation |
| WorkflowInvariant.ReplanKeeps | backend/app/orchestrator/service.py:251-356 | storing a revision makes it the latest plan, or ends the task over budget |
| WorkflowInvariant.VerdictKeeps | backend/app/orchestrator/execution.py:125-224 | the verdict transaction ends in the state that budget, verdict and advice decide, and keeps the budget exact; it is refused only after a cancellation |
| WorkflowInvariant.StartReplanKeeps | backend/app/orchestrator/service.py:189-234 | a task in REPLANNING has a plan and a report, so a revision starts or the limit ends it |
| WorkflowInvariant.RecoverKeeps | backend/app/orchestrator/recovery.py:19-57 | recovery of a reachable live task schedules it or moves it to review, never an illegal transition |
| WorkflowSteps.ReserveIsNew | backend/app/orchestrator/execution.py:309-337 | in every reachable world a reservation takes the branch that inserts a new started call |
| WorkflowSteps.NextKeeps | backend/app/orchestrator/coordinator.py:854-903 | every action of the system keeps the invariant |
| WorkflowSteps.Reachable | backend/app/orchestrator/coordinator.py:854-903 | the invariant holds after every sequence of actions |
| WorkflowSteps.FaithfulIffNeverStale | backend/app/repositories.py:36-60 | without a stale lock the log describes the row and a cancelled row has ended; with one an event follows the one that ended the task |
| WorkflowSteps.StaleLockStep | backend/app/orchestrator/service.py:44-65 | a stale lock takes a row that had ended as cancelled back to ANALYZING |
| WorkflowTheorems.AtMostOnce | backend/app/orchestrator/execution.py:303-340 | in every run the handler of a step of a plan version is invoked at most once |
| WorkflowTheorems.CallsIdentified | backend/app/tools/executor.py:21-31 | plan version and step id determine the idempotency key within a task |
| WorkflowTheorems.ResumeAgreement | backend/app/orchestrator/execution.py:258-444 | in every committed state each step record matches its call, its evidence count and its dependencies |
| WorkflowTheorems.ResumeIsClean | backend/app/orchestrator/execution.py:258-337 | a scheduled execution never meets uncertain steps and never takes the reuse or refusal branch |
| WorkflowTheorems.VerifierSeesEachStepOnce | backend/app/orchestrator/execution.py:62-124 | the verifier gets exactly one evidence item per executed step and none for a skipped one, also after resumes |
| WorkflowTheorems.RunsAfterDependencies | backend/app/orchestrator/execution.py:65-80 | while a handler runs, all transitive dependencies of its step have succeeded in the database |
| WorkflowTheorems.RecoveryIsLegal | backend/app/orchestrator/recovery.py:19-57 | PLANNING and POLICY_CHECK are never committed, so recovery asks only for allowed transitions, and leaves a live task scheduled or in NEEDS_REVIEW |
| WorkflowTheorems.LogRefinesState | backend/app/repositories.py:45-84 | version is one more than the number of events and the events are one path to the current state, if and only if no locking read was stale |
| WorkflowTheorems.NothingAfterTheEnd | backend/app/orchestrator/state_machine.py:118-120 | no event follows one into a terminal state if and only if no locking read was stale |
| WorkflowTheorems.TerminalForever | backend/app/orchestrator/coordinator.py:928-954 | every task that has ended keeps its state, version and log for good if and only if no locking read was stale |
| WorkflowTheorems.BudgetIsExact | backend/app/orchestrator/execution.py:176-197 | the sums of the four token columns, or of the cost column, are strictly above their limit in exactly the committed states that are BUDGET_EXCEEDED |
| WorkflowTheorems.PlanningSumIsFull | backend/app/orchestrator/service.py:75-132 | the partial sums that planning compares with the budget are the column sums of everything recorded |
| WorkflowTheorems.CancelledStep | backend/app/orchestrator/execution.py:71-73 | one action after a cancellation spends at most the reservation and the invocation already decided |
| WorkflowTheorems.CancellationLatency | backend/app/orchestrator/execution.py:71-73 | after a committed cancellation at most one more step is reserved and one more handler invoked, and none unless a step was past its check |
| WorkflowTheorems.CancelledStays | backend/app/services/tasks.py:50-65 | every row with the cancellation flag has ended and stays as it is if and only if no locking read was stale |
| WorkflowTheorems.EarlyCancelNeverCommits | backend/app/orchestrator/service.py:48-57 | the cancellation branch before planning is always refused its transition and commits nothing |
| WorkflowTheorems.NoInternalError | backend/app/orchestrator/coordinator.py:871-874 | an operation never fails for an internal reason; without a cancellation only external failures end it |
| WorkflowTheorems.LoopIsBounded | backend/app/orchestrator/coordinator.py:854-874 | the state loop finishes at most 3 + 2R iterations for every R and every sequence of verdicts |
| WorkflowWitness.LoopBoundReached | backend/app/orchestrator/coordinator.py:854-874 | for every R some run finishes exactly 3 + 2R iterations |
| WorkflowWitness.StaleReadIff | backend/app/orchestrator/service.py:44-65 | a cancellation between the unlocked read and the lock is honoured if and only if the locking read refreshes the row |
| WorkflowWitness.StaleWindow | backend/app/orchestrator/service.py:44-65 | that window is reachable |
| WorkflowOutcomes.HandlerReturns | backend/app/orchestrator/execution.py:389-444 | from every moment at which a handler runs: after it returned, its step and its call are failed if its check failed and succeeded otherwise, one evidence record of this step was added and nothing else changed, and the execution goes on, or ends its ready list and names the failed step |
| WorkflowOutcomes.HandlerRaises | backend/app/orchestrator/execution.py:339-388 | a handler that raises leaves its step and call failed without evidence, and the task ends as FAILED, or as NEEDS_REVIEW after a workspace precondition |
| WorkflowOutcomes.OutcomesWereTold | backend/app/orchestrator/execution.py:339-444 | in every committed state a step is succeeded only if its handler returned without a failed check, and failed only if it returned with one or raised, while this very step of this very plan was run |
| WorkflowOutcomes.OperationFails | backend/app/orchestrator/coordinator.py:875-967 | any other failure takes a live task to FAILED, NEEDS_REVIEW or CANCELLED with one event and changes no other row; an ended task, and one that must not move to NEEDS_REVIEW, stays as it is |
| WorkflowOutcomes.CancelOutcome | backend/app/services/tasks.py:50-65 | in every run a cancellation sets the flag, moves a live task to CANCELLED with one event, and leaves everything else alone |
| WorkflowOutcomes.OperationLost | backend/app/orchestrator/coordinator.py:884-890 | a crash, or an interruption while a failure is being recorded, loses the operation and no row |
| WorkflowOutcomes.RecoverOutcome | backend/app/orchestrator/recovery.py:19-57 | in every run a restart schedules a task that was not started, or that executes without a started or failed call, leaves one in review, and sends every other live one to review |
| WorkflowOutcomes.LoadingOutcome | backend/app/orchestrator/execution.py:241-256 | in every run an execution loads the plan with the highest version, and only while the task is executing |
| WorkflowOutcomes.ProgressOutcome | backend/app/orchestrator/execution.py:258-295 | also with other operations at work, an execution does not start if a step is running or failed, and otherwise counts exactly the succeeded steps as completed |
| WorkflowOutcomes.ReservationOutcome | backend/app/orchestrator/execution.py:303-337 | also with other operations at work, a succeeded call is reused and its step counts as completed, a started or failed one ends the operation, and a new one is inserted with its running step |
| WorkflowOutcomes.FirstPlanOutcome | backend/app/orchestrator/service.py:72-182 | in every run the answer to planning is stored with pending steps as the only rows, or ends the task over budget, or, if refused by the contract model or the validation, is not stored at all |
| WorkflowOutcomes.ReplanStarts | backend/app/orchestrator/service.py:189-221 | a revision starts if and only if the latest version is at most the number of revisions allowed; otherwise the task is in NEEDS_REVIEW |
| WorkflowOutcomes.ReplanOutcome | backend/app/orchestrator/service.py:236-356 | in every run a revision that was validated is stored under the next version beside all older rows, or ends the task over budget by everything recorded, or, if its id is taken or it was refused, changes nothing |
| WorkflowOutcomes.StoredPlansWereValidated | backend/app/orchestrator/service.py:141-157 | every stored plan of every run is an answer of the planner that the contract model and the validation accepted |
| WorkflowOutcomes.VerdictOutcome | backend/app/orchestrator/execution.py:125-214 | in every run the verdict decides: BUDGET_EXCEEDED if and only if a column sum is over its limit, otherwise SUCCEEDED if and only if passed, REPLANNING if and only if failed with advice, FAILED if and only if failed without, NEEDS_REVIEW if and only if undecided |
| WorkflowOutcomes.SucceededWasPassed | backend/app/orchestrator/execution.py:191-206 | a task is SUCCEEDED only if at some moment of the run the verifier passed it within its budget |
| WorkflowCrowd.InvocationStep | backend/app/orchestrator/execution.py:309-340 | a handler is only invoked for a call that the same operation has inserted as new, whatever others have written |
| WorkflowCrowd.CrowdKeeps | backend/app/models.py:262-279 | with any number of operations, claimed calls have one owner each and invoked calls are there once |
| WorkflowCrowd.AtMostOnceInACrowd | backend/app/orchestrator/execution.py:303-340 | any number of concurrent operations of a task run the handler of a step of a plan version at most once between them |
| WorkflowOrder.InvocationsAreOrdered | backend/app/orchestrator/execution.py:65-80 | in every run the handlers of a plan are invoked in an order in which each step follows all its dependencies |
| WorkflowOrder.InvokedIsSucceeded | backend/app/orchestrator/execution.py:258-295 | when an execution loads its progress, exactly the invoked steps of its plan have succeeded |
| WorkflowOrder.RunsByDepthSince | backend/app/orchestrator/execution.py:62-80 | what an execution has run since its last start is a prefix of the depth order of what had been left of its plan, and all of it if no step failed |
| WorkflowOrder.UndisturbedRunsByDepth | backend/app/orchestrator/execution.py:62-80 | a plan version that was not resumed after its first handler runs its handlers in depth order, in plan order within a depth, up to the failed step if there is one |
| StreamDecoder.Find | backend/app/orchestrator/coordinator.py:83-91 | the first occurrence of a pattern from a position, or none |
| StreamDecoder.StreamingJsonText | backend/app/orchestrator/coordinator.py:80-127 | the loop returns the decoding of what was received so far |
| StreamDecoder.DecodeMonotone | backend/app/orchestrator/coordinator.py:92-127 | decoding a prefix of the input gives a prefix of the decoding |
| StreamDecoder.DecodeCases | backend/app/orchestrator/coordinator.py:105-127 | what is decoded anywhere, also in a cut or malformed string: where the text ends, and that an unknown escape stands for its character |
| StreamDecoder.VisibleMonotone | backend/app/orchestrator/coordinator.py:80-127 | the visible text of a prefix of the reply is a prefix of the visible text of the reply |
| StreamDecoder.DecodesUnits | backend/app/orchestrator/coordinator.py:80-127 | for every spelling that section 7 of RFC 8259 allows, every continuation and every earlier text in which the key does not begin, the decoder returns the code points that the standard gives to the value, surrogate pairs left apart |
| StreamDecoder.RoundTripIff | backend/app/orchestrator/coordinator.py:94-127 | it returns the string that was written, by the meanings of the standard, if and only if no surrogate pair escape was used |
| StreamDecoder.EveryStringComesBack | backend/app/orchestrator/coordinator.py:80-127 | every string without surrogates has such a spelling and comes back |
| StreamDecoder.ProseBeforeKey | backend/app/orchestrator/coordinator.py:82-85 | text received before, quotes included, leaves the key where it is if none of its quotes can begin the key |
| StreamDecoder.EarlierKeyWins | backend/app/orchestrator/coordinator.py:82-91 | once an earlier turn has written the key, the visible text stays with its value, so a later reply comes back only if it is the same text |
| StreamDecoder.LaterReplyHidden | backend/app/orchestrator/coordinator.py:82-91 | an earlier reply A hides a later reply B |
| StreamPublisher.ChatStreamPublisher.Handle | backend/app/orchestrator/coordinator.py:154-161 | a text delta is appended and offered for publication; other events change nothing |
| StreamPublisher.ChatStreamPublisher.Flush | backend/app/orchestrator/coordinator.py:163-184 | publishes new visible text unless throttled; if the store raises, only the number is used up |
| StreamPublisher.FlushKeepsChain | backend/app/orchestrator/coordinator.py:163-184 | a flush keeps the snapshots a strictly growing chain of prefixes, also if the store raises; a forced one that is stored publishes everything visible |
| StreamPublisher.ClockIsLastPublished | backend/app/orchestrator/coordinator.py:163-184 | the clock of the throttle is the time of the last call that added a snapshot, zero if none has |
| StreamPublisher.PublishesIff | backend/app/orchestrator/coordinator.py:154-184 | after any calls a delta adds a snapshot if and only if its visible text is new and not empty, 0.08 seconds have passed since the last one, and the store takes it; a forced flush does not look at the clock |
| StreamPublisher.SnapshotsGrow | backend/app/orchestrator/coordinator.py:154-184 | for every split into deltas, every clock and every store failure the snapshots are a strictly growing chain, numbered without gaps if the store never fails, and after a stored forced flush the last decodes everything received |
| Transcript.NextKeeps | backend/app/services/conversation.py:84-113 | no action loses a message of the file, and none but a crash loses one of the list |
| Transcript.TranscriptInvariant | backend/app/services/conversation.py:84-216 | over all interleavings ids increase, source ids are unique, and the file is a prefix of the list, behind it exactly while a flush task is registered: waiting, writing the whole list, or failed |
| Transcript.FlushIsDurable | backend/app/services/conversation.py:91-113 | after a flush the file equals the list if and only if no failed write is still unrevived by a restart or an append with a new source id |
| Transcript.FailedIffStranded | backend/app/services/conversation.py:102-113 | the registered task has failed exactly in the runs in which a write failed and nothing has revived the flushing since |
| Transcript.AppendOutcome | backend/app/services/conversation.py:190-216 | in every run an append of a new source id adds one message with the draft's fields and the id after the last one; a known source id changes nothing |
| Transcript.RestartOutcome | backend/app/services/conversation.py:84-113 | after a restart the list is the file: that of a running write if its rename had happened, otherwise the one before |
| Transcript.ListedRows | backend/app/services/conversation.py:115-129 | a listing takes, in order, messages above the cursor whose kind is not excluded, and misses one only behind a full page |
| Transcript.HighestId | backend/app/services/conversation.py:195-196 | the highest id of a list, zero for none |
| Transcript.FindBySource | backend/app/services/conversation.py:192-194 | an id with that source if and only if there is one |
| Transcript.JsonConversationStore.AppendMessage | backend/app/services/conversation.py:190-216 | appends once per source id with the next id, registers a flush, and returns the id of the stored message |
| Transcript.JsonConversationStore.ListMessages | backend/app/services/conversation.py:115-129 | the first rows above a cursor whose kind is not excluded |
| Transcript.JsonConversationStore.BeginFlush | backend/app/services/conversation.py:95-97 | the task takes the whole list as its snapshot |
| Transcript.JsonConversationStore.EndFlush | backend/app/services/conversation.py:97-100 | the file becomes the snapshot, and the task ends only if the list is still the snapshot |
| TranscriptStream.PollKeeps | backend/app/api/conversations.py:251-259 | a poll sends the next rows above the cursor and keeps the delivery invariant |
| TranscriptStream.PollSends | backend/app/api/conversations.py:251-259 | a poll sends the rows above the cursor in order, at most 500, and moves the cursor to the last of them |
| TranscriptStream.ReceiveKeeps | frontend/src/hooks/useConversationStream.ts:46-53 | the next received row is a duplicate, which is dropped, or the very next row the client misses |
| TranscriptStream.ExactlyOnce | backend/app/api/conversations.py:241-259 | whatever is appended, polled, lost and resent, the client has handled a prefix of the rows above its initial cursor, in order and without repeats |
| TranscriptStream.CaughtUp | backend/app/api/conversations.py:251-259 | a connection with nothing left to send and nothing on the way has delivered everything |
| TranscriptStream.ResumeTooHighIff | backend/app/api/conversations.py:241-245 | a header above the client's cursor skips a row exactly when the transcript has one in between |
| TranscriptRestart.CrashKeeps | backend/app/services/conversation.py:84-89 | cutting the list at or above the client's cursor changes nothing for the client |
| TranscriptRestart.ExactlyOnceIffNothingLost | backend/app/services/conversation.py:84-113 | over appends, flushes, write errors, restarts and deliveries, delivery is exactly once at every moment if and only if no restart cuts the transcript below the cursor of a client that has handled something |
| TranscriptRestart.ReissuedIsDropped | frontend/src/hooks/useConversationStream.ts:46-53 | after such a restart the next message gets an id the client is past, and is dropped unseen |
| AgentLoop.AgentLoop.InheritContext | backend/app/agent_loop/loop.py:131-151 | a child gets its parent's messages without tool results and without messages that carry calls, and the transcript without tool entries |
| AgentLoop.InheritedIsPaired | backend/app/agent_loop/loop.py:131-151 | forking from any point of the parent starts from a paired list |
| AgentLoop.InheritedKeeps | backend/app/agent_loop/loop.py:131-146 | a child keeps every message that is no tool result and carries no calls, in order |
| AgentLoop.InheritedEntriesKeep | backend/app/agent_loop/loop.py:147-151 | and every transcript entry that is no tool entry, in order |
| AgentLoop.AgentLoop.DrainSteering | backend/app/agent_loop/loop.py:172-175 | every queued steering text becomes a user message, oldest first |
| AgentLoop.AgentLoop.Run | backend/app/agent_loop/loop.py:160-237 | the loop computes exactly the fold of its rounds |
| AgentLoop.CallsAreAnswered | backend/app/agent_loop/loop.py:224-301 | in a round that goes on after tool calls the k-th message after the assistant message carries the k-th call's id and its error code, or tool_input_invalid, or the output of that very call; the transcript the same with name and error flag |
| AgentLoop.WordsAreAdded | backend/app/agent_loop/loop.py:205-219 | otherwise a round goes on with the oldest follow-up, or with a request to continue after a pause |
| AgentLoop.RoundStops | backend/app/agent_loop/loop.py:166-223 | which event ends a run in which way, and what a finished run reports |
| AgentLoop.RoundPairedIff | backend/app/agent_loop/loop.py:166-237 | one round keeps the list paired if and only if no paused turn carries tool calls |
| AgentLoop.MergedIsSum | backend/app/agent_loop/loop.py:304-318 | merging turn by turn gives the exact sum of every counter and the request id, model and stop reason of the last turn |
| AgentLoop.AdapterTurns | backend/app/harness/openai_gateway.py:115-142 | the adapter lists every call in order with its id and arguments under the tool's own name, flags unknown tools, and never pauses a turn |
| AgentLoop.LoopKeepsProtocol | backend/app/agent_loop/loop.py:160-237 | with the adapter every list sent is paired; a finished run reports exact counts and sums and an empty follow-up queue; a stopped run leaves a paired list exactly when it did not stop between calls and results |
| AgentLoop.RunKeepsProtocol | backend/app/agent_loop/loop.py:160-237 | the same for a run started from any paired list, with or without a new message |
| AgentLoop.SentIsPaired | backend/app/harness/openai_gateway.py:105-107 | the system message put in front keeps a request paired |
| Truncation.TruncateOutput | backend/app/tools/subagent.py:339-368 | unchanged if and only if both limits hold; otherwise the marker line with its counts, and as body the longest prefix within both limits; text that cannot be encoded is an error |
| Truncation.SizeIsNear | backend/app/tools/subagent.py:331-336 | a printed size is exact below 1024 bytes and otherwise within half a tenth of its unit, 1024 or 1048576 bytes |
| Truncation.MarkerTells | backend/app/tools/subagent.py:362-367 | the marker reads back as lines kept, lines there were, bytes kept and bytes there were, in this order, and the path of the full output |
| Truncation.EncodeIsUtf8 | backend/app/tools/subagent.py:347-358 | the encoding is that of section 4 of RFC 3629: one to four octets by the size of the code point, which they give back |
| Truncation.MarkerIsOneLine | backend/app/tools/subagent.py:362-368 | the marker adds exactly one line to the body if and only if the path of the full output has no line break |
| Truncation.JoinOfSplit | backend/app/tools/subagent.py:346-350 | joining the lines of a text gives the text back |
| Truncation.FirstLinesIsLongest | backend/app/tools/subagent.py:350-351 | a prefix has at most max lines if and only if it is a prefix of the first max lines joined |
| Truncation.CutIsLongest | backend/app/tools/subagent.py:352-361 | the point at which the binary search stops gives the longest prefix within both limits |
| Truncation.LongestIsUnique | backend/app/tools/subagent.py:339-368 | only one body qualifies, and it is the whole text exactly when the text fits |
| Truncation.WiderKeepsMore | backend/app/tools/subagent.py:236-240 | wider limits never keep less, and a shortened body passes the same limits unchanged |
| Truncation.NoCharacterIsSplit | backend/app/tools/subagent.py:352-361 | the body's bytes are the first bytes of the output and one more character breaks a limit |

## Left out

- PlanFiles.ResumedFindsFileIff: assumes canonical paths and that only the three workspace tools touch files; a check command that writes files is outside the simulation as well.
- WorkflowTheorems.AtMostOnce: is about invocations within one task; the idempotency key is taken as its payload, because hashing and JSON encoding are assumed injective.
- WorkflowTheorems.BudgetIsExact: costs are exact reals, so floating-point rounding of the cost sums is not covered.
- WorkflowCrowd.AtMostOnceInACrowd: the lookup of a call and its insertion are one step, which is what the unique key makes of them; the loser's integrity error is the refusal of its reservation.
- TaskStore.RecoverAll: a refused transition ends the pass with an error; RecoveryPassSucceeds shows that reachable tasks cause none.
- StreamDecoder.RoundTripIff: Python's reading of four characters as a base-16 integer is a parameter that is fixed only on four hexadecimal digits, so signs, underscores and other digits that Python accepts stay arbitrary.
- TranscriptStream.ExactlyOnce: covers one process lifetime; TranscriptRestart.ExactlyOnceIffNothingLost covers restarts. A header that names a row the client has not handled is treated by ResumeTooHighIff.
- Truncation.TruncateOutput: sizes are printed as for values below 2^53, where the division of the code is exact; the limits bound the body, not the marker line.
- AgentLoop.AgentLoop.Run: is given the rounds it plays. What a second caller of a running loop says arrives as a follow-up of a round; that it waits for the same result, the content of the events, and the check that no run is active when a context is inherited are not modelled.
- The state loop of `_run` is a part of the transition system, not a method, because a crash, a cancellation and a recovery can come between any two of its steps.
- SQL, sessions and migrations: rows are maps with atomic commits, row locks and unique keys. Keys are compared exactly, so a case-insensitive collation is outside the model.
- Evidence is read in insertion order, which is the order of its timestamps.
- WAITING_CONFIRMATION rows are legacy; recovery handles them in the model, but no run from a new task reaches them.
- Audit events, trace ids, final summaries and memory consolidation, which accompany transitions and decide nothing.
- Model providers, tool handlers, subprocesses, worktrees and file contents: their outcomes are arbitrary inputs.
- Building the relevant history of a conversation, agent routing, redaction, pricing and retry delays: filters and one-branch rules.
- Statuses of subagent runs, which stop and abort paths may overwrite, and the supervisor inbox.
- Hard and episodic memory, HTTP routes, settings and the React components beyond the cursor of the stream hook.
