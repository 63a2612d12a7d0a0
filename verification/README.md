# Cortexa verification models

Dafny models of the parts of the Cortexa backend and web client whose correctness spans
many steps, with machine-checked proofs. `dafny verify dfyconfig.toml` checks everything.

## What is modelled

**The multi-agent run engine** (`Signals`, `AgentStates`, `RunBudgets`, `Failures`,
`AgentContext`, `Plans`, `RunStore`, `RunInvariant`, `RunEnvironment`, `RunForecast`,
`Coordinator`, `Approvals`, `RunHistory`, `RunOutcomes`). A run is a row with tasks, approvals and a handoff
log. `Repository` holds the session's rows and the last committed ones; `CoordinatorEngine`
executes a run: plan, review, task loop, bounded retries, approval pause, resume, completion
or failure. Everything outside the engine is an arbitrary input collected in `Env`: the plan,
the review, the reply of a specialist to every attempt, delays, cancellations, and a crash at
any step. Exceptions are values of `Signal` that propagate with `:-`.

Two accounts of a run hold for every environment. `RunEnvironment.Caused` says what an
exception points to: the clock, the replies and budgets in the rows it left, bounded by the
waits of the call that raised it. `RunForecast.Foretell` computes from the plan, the replies
and the budgets alone what becomes of the tasks, the handoffs and the counters, and the engine
does exactly that whenever nobody cancels, nothing crashes and the deadline does not pass; the
lemmas about the forecast say which plans finish, with which budgets.

`RunInvariant.Inv` is what every committed state satisfies, and `RunInvariant.History` what a
sequence of commits does; `RunHistory.Live` proves both along every history of an execution
followed by any approvals, rejections, cancellations and recoveries, and the lemmas of
`RunHistory` and `RunOutcomes` read the promises to a user out of it: the second in terms of the
plan and the replies alone.

**Plan validation** (`DependencyGraph`, `PlanValidation`). The recursive cycle search on
arbitrary graphs, the longest-chain depth of the registry, the level-walk depth of the
coordinator, how the two relate, and an exact account of which plans are accepted.

**The document-lifecycle migration** (`DocumentLifecycle`). The data statements of revision
0016 over any legacy table: the recursive version tree, the backfill, the choice of active
versions, the flags and the lifecycle states.

**Bounded contexts** (`AgentContext`, `Citations`, `ChatContext`, `Chunking`, `Texts`). The
agent envelope, deduplication, selection and rendering of passages, the chat context, and the
overlapping chunker.

**Tools and streams** (`ToolLoop`, `SseStream`, `SafeMetadata`). The loop between model and
tools, the server's event encoding, the client's incremental parser and its reducer, and the
metadata sanitiser.

## Where the code differs from what one would expect

- The slice `[-n:]` does not cut to n = 0: with a limit of zero the history and the earlier
  results are cut by the character budget alone. `AgentContext.EnforcedItemLimits` says
  exactly when the two limits hold, `ZeroLimitsKeep` is a witness.
- Enforcing an envelope twice is enforcing once unless the summary was cut to nothing
  (`AgentContext.EnforcedIdempotent`). The schema demands 500 characters; it cannot happen
  from five on, and does with four (`TinyLimitLosesSummary`).
- An expired approval leaves the tasks behind the pause pending on a timed-out run
  (`RunHistory.TerminalRunTasks` says exactly when, `PendingBehindExpiry` runs into it). The
  engine itself sets no expiry when it creates an approval, so this needs a row whose
  `expires_at` was written otherwise.
- The fallback synthesis asks for task number 99, which the request schema refuses, so it
  always ends in the generic failure handler (`SynthesizeFallback`).
- The depth stored with a task counts levels of a walk that visits a number once, and can be
  smaller than its longest dependency chain, on accepted plans too
  (`DependencyGraph.TaskDepthCanFallShort`, `PlanValidation.AgentRegistry.ShortfallAccepted`);
  `DependencyGraph.DepthsAgree` says exactly when the two agree. It is never larger, so the
  depth limit still holds for it.
- When the model answers with blank text that is not empty after tools ran, that text stays in
  front of the streamed answer in the reported content although it was never shown; this is
  the only case in which content and shown text differ (`ToolLoop.Orchestrator.Stream`,
  `ToolLoop.BlankLead`).
- A passage that was dropped as a near duplicate still blocks later passages with its id
  (`Citations.Fresh`).
- A conversation summary is included only when the history limits, not the room left in the
  context, cut the history (`ChatContext.HistoryCut`).

## Model

| member | source | states |
|---|---|---|
| `RunHistory.Live` | backend/app/agents/coordinator.py:221-734 | over a whole run, every commit - checkpoints inside an execution included - satisfies the run invariant, and its rows are the tasks of the plan one for one, with their agents, dependencies and retries; no commit undoes what an earlier one recorded, a terminal one is final; the execution leaves what its outcome says, and exactly what is foretold of it when nothing disturbs it; each later command (approve, reject, cancel, recover) has its effect on the state and at the clock the one before it left, an approval with the answer its resume decides |
| `RunHistory.NothingUndone` | backend/app/agents/coordinator.py:524-528 | completed work is preserved: attempts, settled tasks, handoffs, resolved approvals and applied actions of a commit stand in every later commit |
| `RunHistory.Obey` | backend/app/agents/api.py:168-306 | each later command leaves a terminal run untouched and has exactly its effect on any other: an approval that can be resumed is answered as the resume ends, and every other one is rolled back, rejected or expired as its arguments say; cancelled; recovered |
| `RunHistory.ExecuteCalmly` | backend/app/agents/coordinator.py:221-686 | the rows of an execution are the tasks of the plan and follow the replies; when nobody cancels, nothing crashes and planning passes, it finishes with a conversation text, pauses, or fails because the time that passed is above the limit, because a budget is exhausted, or because every task is settled and none left a text; when it is on time too, it ends exactly as foretold |
| `RunHistory.CalmEnd` | backend/app/agents/coordinator.py:221-686 | a calm execution has one of these ends; when the time stays within the limit and steps and calls cover what the plan can demand with all its retries, only the silent run is left as a failure |
| `RunHistory.AnsweredOutcome` | backend/app/agents/coordinator.py:221-635 | when every specialist answers its first attempt with success, every dependency is a task of the plan, and steps and calls cover these attempts, an undisturbed run finishes exactly when some conversation answer holds a text, with every task succeeded on its first attempt |
| `RunHistory.AnswersFinish` | backend/app/agents/coordinator.py:406-600 | such a run is foretold to succeed in every task, and to leave a text exactly when some answer holds one |
| `RunHistory.AmpleReaches` | backend/app/agents/budgets.py:47-81 | with budgets above the worst case and no task that dies, a run is foretold to reach its end or the approval gate, and its end if no attempt can ask |
| `RunForecast.AmpleForetold` | backend/app/agents/coordinator.py:406-582 | from any task on, when steps and calls cover the demand of the remaining tasks and none of their attempts dies or raises a limit, the forecast comes to its end or to a task that asks |
| `RunForecast.AnswersForetold` | backend/app/agents/coordinator.py:406-527 | from any task on, tasks whose first attempt is answered with success all run, succeed and release those that depend on them |
| `RunForecast.TaskSuffices` | backend/app/agents/coordinator.py:888-1250 | the retries of one task stay within its steps and within the calls its replies report, and stop at the cap |
| `RunEnvironment.AmpleSuffices` | backend/app/agents/budgets.py:47-81 | budgets that cover one more attempt than the retries of every task, and all calls those attempts report, are never exhausted, whatever is retried |
| `RunEnvironment.DemandCovers` | backend/app/agents/coordinator.py:912-1250 | the starts and calls of the rows of a plan stay within the demand of the plan, with one start to spare for every row that may still be started |
| `RunEnvironment.FavourableCauses` | backend/app/agents/coordinator.py:637-686 | when nothing crashes or dies and time and budgets suffice, only a cancellation, a request for approval or a silent run is left to raise anything |
| `RunEnvironment.RowExhausts` | backend/app/agents/budgets.py:47-81 | a limit met by one row is a limit of the run: its reply raised one, the calls of all attempts so far are above a cap, or all steps are used while it may still be started |
| `RunEnvironment.ExhaustedCancel` | backend/app/agents/coordinator.py:688-734 | cancelling the open tasks hides no exhausted budget |
| `RunEnvironment.KeptBefore` | backend/app/agents/coordinator.py:524-528 | what holds of the calls charged for the rows of a session holds of the rows of its last checkpoint |
| `RunHistory.TerminalRunTasks` | backend/app/agents/repository.py:533-589 | a terminal run has only terminal tasks, except exactly after an expired approval with tasks behind the pause; those are pending and were never started |
| `RunHistory.PendingBehindExpiry` | backend/app/agents/api.py:199-218 | an execution and an approval that comes too late lead there: the run has timed out and the task behind the pause is still pending |
| `RunHistory.ApprovalGate` | backend/app/agents/api.py:168-306 | nothing passes the gate unseen: a task whose last attempt asked for approval succeeded only if its approval was granted, was skipped only if it was rejected, and timed out only if it expired; in a completed run one of the first two happened |
| `RunHistory.StartedAfterDependencies` | backend/app/agents/coordinator.py:406-459 | every dependency of a task that was ever started is an earlier task that succeeded |
| `RunOutcomes.PlannedOrder` | backend/app/agents/coordinator.py:406-459 | a planned task starts only after every task it depends on in the plan has succeeded |
| `RunHistory.AttemptsBounded` | backend/app/agents/coordinator.py:912-1250 | each task is attempted at most 1 + min(its retries, global retries) times, its retry count stays within that minimum, all attempts together stay within the maximum steps, and the persisted step, model and tool counters within their caps |
| `RunHistory.ActionAtMostOnce` | backend/app/agents/api.py:186-306 | a run has at most one approval and at most one applied action; the action stands exactly when the approval was granted, on a completed run whose paused task succeeded |
| `RunHistory.HandoffChain` | backend/app/agents/coordinator.py:472-494 | the handoff log is one chain that starts at the coordinator, without self-handoffs, and every started task belonged to the agent that some handoff of the log gave the baton to |
| `RunHistory.OneStamp` | backend/app/agents/repository.py:199-239 | exactly one of the three end stamps is set on a terminal run and none before, and which of them |
| `RunHistory.SkippedIffDependencyFailed` | backend/app/agents/coordinator.py:406-459 | in a completed, unrejected run a task is skipped exactly when some dependency did not succeed; all others succeeded, failed or timed out |
| `RunOutcomes.PlannedSkip` | backend/app/agents/coordinator.py:409-459 | in a completed run without a rejection a planned task is skipped exactly when some task it depends on in the plan did not succeed |
| `RunHistory.SkippedNeverAsked` | backend/app/agents/api.py:242-253 | without a rejection no task that was ever started is skipped |
| `RunHistory.SkippedExactlyDescendants` | backend/app/agents/coordinator.py:406-459 | a task is skipped if and only if a chain of dependencies leads from it to a broken task or out of the plan |
| `RunHistory.SkippedHasBreak` | backend/app/agents/coordinator.py:409-434 | from a skipped task some chain of dependencies leads to a broken task |
| `RunHistory.BreakSkips` | backend/app/agents/coordinator.py:409-434 | every task with a chain of dependencies to a broken task is skipped |
| `RunOutcomes.SettledByReply` | backend/app/agents/coordinator.py:941-1250 | the last reply decides how a task ends: success without an error code succeeds, an exception fails, silence and a TimeoutError time out, and a conversation task falls back to success instead; a limit fails the task, a deadline error counts as an exception |
| `RunOutcomes.TextFrom` | backend/app/agents/coordinator.py:584-600 | a final text comes from a result of the conversation agent with content, or from the fallback of a conversation task, and from nothing else |
| `RunOutcomes.RepeatedByReply` | backend/app/agents/failures.py:122-163 | an attempt is repeated only after a reply the policy allows it for, written out over profile, agent, exception and code, and such a reply is final only when all retries are used |
| `RunOutcomes.CancelledTasks` | backend/app/agents/repository.py:533-549 | cancelling a queue changes the status of the tasks that had not ended and nothing else |
| `RunOutcomes.DeadlineOfExecution` | backend/app/agents/coordinator.py:162-170 | an execution is late past the configured limit, 90, 150 or 240 seconds as its profile says, and timeouts are repeated in all but the fast profile |
| `RunOutcomes.DeadlineOfResume` | backend/app/agents/coordinator.py:756-764 | a resume is late past the configured limit, or past 90 seconds in fast mode |
| `Coordinator.CoordinatorEngine.Execute` | backend/app/agents/coordinator.py:221-686 | an execution ends committed and invariant, with the tasks of the plan one for one, in accord with the replies, and the counters between the calls of the attempts that returned a result and those of all attempts: completed with a text and without an approval, awaiting approval, timed out, cancelled or failed as the fault says; every fault is accounted for by planning, a cancellation or crash at one of its waits, a clock above the limit, an exhausted budget or a silent run; undisturbed it ends exactly as foretold |
| `RunEnvironment.RowsCarryPlan` | backend/app/agents/coordinator.py:364-406 | the stored rows are the planned tasks, one for one and in the order of their sequences, each with the agent, the dependencies and the retries of its own task |
| `RunStore.Repository.CreateTasks` | backend/app/agents/repository.py:247-278 | a pending row with its columns for every planned task, and nothing else changes |
| `Coordinator.CoordinatorEngine.ExecuteBody` | backend/app/agents/coordinator.py:285-635 | the try block commits only invariant states that extend each other; whatever it raises is accounted for and leaves a session that can be failed; undisturbed it ends as foretold, with the tasks, handoffs and counters of the forecast |
| `Coordinator.CoordinatorEngine.RunAndConclude` | backend/app/agents/coordinator.py:402-635 | after the plan checkpoint the rows stay those of the plan in session and database, an exception shows its cause in them, and an undisturbed run completes, pauses or raises as foretold |
| `Coordinator.CoordinatorEngine.HandleFailure` | backend/app/agents/coordinator.py:637-686 | each exception handler ends the run in its own terminal state, with the cause still visible in its rows and the calls of its attempts still counted, or leaves the last checkpoint |
| `Coordinator.CoordinatorEngine.FailRun` | backend/app/agents/coordinator.py:688-734 | failing a run cancels exactly the open tasks, saves the counters and reaches the target state, keeping the invariant |
| `Coordinator.CoordinatorEngine.CancelFirst` | backend/app/agents/coordinator.py:641-653 | cancelling the queue before failing keeps the run failable and undoes nothing |
| `Coordinator.CoordinatorEngine.AskForPlan` | backend/app/agents/coordinator.py:286-333 | the planning phase moves the run to planning, hands over once, and any failure leaves a run without tasks |
| `Coordinator.CoordinatorEngine.ReviewPlan` | backend/app/agents/coordinator.py:314-362 | the review hands the baton to safety on a running run without tasks, and only a failed or blocking review or a jolt raises |
| `Coordinator.CoordinatorEngine.PlanAndReview` | backend/app/agents/coordinator.py:285-401 | after plan and review the rows of the plan stand in sequence order, committed, with an untouched budget; any failure leaves no task |
| `Coordinator.CoordinatorEngine.PersistPlan` | backend/app/agents/coordinator.py:364-399 | the task graph is committed as a state from which the main loop can start |
| `Coordinator.CoordinatorEngine.ObserveEnvelope` | backend/app/agents/coordinator.py:1359-1378 | an enforced envelope never exceeds the context budget, so charging it cannot raise |
| `Coordinator.CoordinatorEngine.RunTasks` | backend/app/agents/coordinator.py:406-582 | the main loop visits every row of the plan, commits between tasks, and ends with all tasks settled or with a durable pause; an exception shows its cause; undisturbed it refines the forecast |
| `Coordinator.CoordinatorEngine.AllSettled` | backend/app/agents/coordinator.py:406-582 | at the end of the loop every task has come to an end or has a dependency that did not succeed |
| `Coordinator.CoordinatorEngine.VisitTask` | backend/app/agents/coordinator.py:406-582 | one turn of the loop changes no other task and settles, skips or pauses its own; undisturbed the forecast from the next task on is the forecast from this one |
| `Coordinator.CoordinatorEngine.VisitReady` | backend/app/agents/coordinator.py:461-582 | a task whose dependencies succeeded is run, its end committed, and a request for approval becomes a pause, as foretold when nothing disturbs it |
| `Coordinator.CoordinatorEngine.PauseRun` | backend/app/agents/coordinator.py:529-582 | the approval a task asked for pauses the run, keeping what its rows record and count, at the gate that was foretold |
| `Coordinator.CoordinatorEngine.ReadyFuture` | backend/app/agents/coordinator.py:461-582 | the forecast from a task that may run, seen from before and from after it |
| `Coordinator.CoordinatorEngine.BlockedFuture` | backend/app/agents/coordinator.py:409-459 | skipping a blocked task leaves the forecast of the others as it was |
| `Coordinator.CoordinatorEngine.RunAndCommit` | backend/app/agents/coordinator.py:461-528 | the task runs and its end is committed behind everything committed before |
| `Coordinator.CoordinatorEngine.VisitBlocked` | backend/app/agents/coordinator.py:409-459 | a task with a dependency that did not succeed is skipped and remembered as not successful, and the forecast goes on behind it |
| `Coordinator.CoordinatorEngine.DependencyFailed` | backend/app/agents/coordinator.py:409-434 | the check over the remembered results fails exactly when some dependency did not succeed |
| `Coordinator.CoordinatorEngine.SkipTask` | backend/app/agents/coordinator.py:435-459 | only the skipped row changes, and the loop state moves on |
| `Coordinator.CoordinatorEngine.RunTask` | backend/app/agents/coordinator.py:461-527 | ready, handover and retries change only this task and the handoff log, which grows, keep the row invariants, and end as foretold when nothing disturbs them |
| `Coordinator.CoordinatorEngine.RunAttempts` | backend/app/agents/coordinator.py:888-1250 | the attempts of a ready task: a limit they raise shows in the rows, and the calls of the attempts that returned a result are counted |
| `Coordinator.CoordinatorEngine.HandOver` | backend/app/agents/coordinator.py:471-494 | the baton goes to the task agent unless it holds it, and the chain stays connected |
| `Coordinator.CoordinatorEngine.Prepare` | backend/app/agents/coordinator.py:461-513 | the task becomes ready, held by its agent, with nothing attempted yet |
| `Coordinator.CoordinatorEngine.RetryLoop` | backend/app/agents/coordinator.py:888-1250 | the retry loop charges one step for each attempt, at least the calls of the attempts that returned a result and at most those of all, never exceeds the retry cap, and leaves a settled row or a request for approval; an exception shows its cause; undisturbed its attempts and counters are those foretold |
| `Coordinator.CoordinatorEngine.OneAttempt` | backend/app/agents/coordinator.py:914-1250 | one attempt appends at most one entry to the attempt log, which follows the reply of the specialist; a deadline error only after the deadline |
| `Coordinator.CoordinatorEngine.AttemptOnce` | backend/app/agents/coordinator.py:914-1250 | start, try and end of one attempt: undisturbed the reply and the counters decide its entry in the log, its charges, what is raised and whether another follows |
| `Coordinator.CoordinatorEngine.StepTaken` | backend/app/agents/coordinator.py:914-1250 | such an attempt, with the step charged for it, is one step of the forecast |
| `Coordinator.CoordinatorEngine.StartAndTry` | backend/app/agents/coordinator.py:914-1250 | a started attempt is closed as its reply says unless the call is broken off; a limit it hits is raised by the reply or met by the calls counted with it; while the deadline has not passed entry and counters are exact |
| `Coordinator.CoordinatorEngine.TakeStep` | backend/app/agents/budgets.py:47-57 | a step is charged exactly when the deadline has not passed at this look at the clock and steps are left |
| `Coordinator.CoordinatorEngine.CheckTime` | backend/app/agents/budgets.py:43-45 | the check fails exactly when the clock of this wait is past the limit |
| `Coordinator.CoordinatorEngine.HandleEnd` | backend/app/agents/coordinator.py:941-1250 | after an attempt the row is retried, settled or left awaiting as the retry rules say |
| `Coordinator.CoordinatorEngine.TryAttempt` | backend/app/agents/coordinator.py:914-962 | while the deadline has not passed, the reply and the counters decide exactly how the attempt ends and what it charges; an attempt that ends with a result has all its reported calls counted; a deadline error stands only after the deadline; a TimeoutError the specialist raises counts as a task timeout |
| `Coordinator.CoordinatorEngine.Charge` | backend/app/agents/coordinator.py:1303-1307 | a charge fails exactly when a counter would exceed its cap, or the deadline has passed; otherwise the counters hold exactly the calls reported |
| `Coordinator.CoordinatorEngine.PauseForApproval` | backend/app/agents/coordinator.py:529-579 | the pause creates the one approval, stops on the front task and keeps every other row |
| `Coordinator.CoordinatorEngine.FinalContent` | backend/app/agents/coordinator.py:584-600 | a final text is found exactly when some task left one |
| `Coordinator.CoordinatorEngine.SynthesizeFallback` | backend/app/agents/coordinator.py:1311-1357 | the fallback synthesis can only end in an error: too late, out of steps, or unexpected |
| `Coordinator.CoordinatorEngine.Conclude` | backend/app/agents/coordinator.py:584-635 | the run completes with saved counters, a text and unchanged tasks, or raises without touching them; an unexpected error or a used-up budget here means that every task is settled and silent |
| `Coordinator.CoordinatorEngine.LastCompletedAgent` | backend/app/agents/coordinator.py:782-791 | the resumed chain starts from the agent of the last succeeded task |
| `Coordinator.CoordinatorEngine.DependencyMissing` | backend/app/agents/coordinator.py:793-798 | on resume a dependency is missing exactly when it did not succeed |
| `Coordinator.CoordinatorEngine.ResumeTask` | backend/app/agents/coordinator.py:793-875 | one resumed task is skipped or run, with the budget and the chain continued from before the pause, and nothing recorded is undone; undisturbed it is one step of the forecast |
| `Coordinator.CoordinatorEngine.ResumeAfterApproval` | backend/app/agents/coordinator.py:736-886 | a resumed run completes with all recorded work kept and the calls of its attempts counted, or raises an exception whose cause shows in the rows it reached, which follow their replies; a smooth resume ends exactly as foretold |
| `Approvals.ResolveApproval` | backend/app/agents/api.py:168-306 | resolution is atomic and its answer exact: unknown, terminal, overdue, action failed, nobody to resume; a granted approval ends in a completed run whose tasks behind the pause follow their replies, or is rolled back with an exception whose cause shows in the rows the resume reached; when nothing crashes and the deadline does not pass, which of the two, and the rows, handoffs and counters it leaves, are those foretold; a rejected one skips every unstarted task |
| `Approvals.Grant` | backend/app/agents/api.py:222-288 | the action is applied once and the paused task succeeds, and the grant answers as its resume ends, or it names what stopped it |
| `Approvals.ResumeGranted` | backend/app/agents/api.py:255-288 | the resume of a granted run: completed with all recorded work kept, or the exception with its cause, and as foretold when it is smooth |
| `Approvals.GrantGoesThrough` | backend/app/agents/coordinator.py:736-886 | a grant is foretold to go through when time and the budget left suffice for the tasks behind the pause and none of their attempts dies, raises a limit or asks again |
| `Approvals.Refuse` | backend/app/agents/api.py:270-306 | a rejection skips all unstarted tasks and completes the run without the action |
| `Approvals.Expire` | backend/app/agents/api.py:199-218 | an expired approval times out the task and the run and leaves the tasks behind it pending |
| `Approvals.ExpiredInv` | backend/app/agents/api.py:199-218 | the state after an expiry satisfies the invariant |
| `Approvals.GrantResumable` | backend/app/agents/api.py:222-275 | a granted approval leaves a run that can be resumed |
| `Approvals.SkipUnstarted` | backend/app/agents/api.py:289-298 | only pending tasks are skipped, and no attempt count changes |
| `Approvals.CancelRun` | backend/app/api/routes/agents.py:143-184 | a cancelled run has its open tasks and its pending approval cancelled; only a terminal run refuses, unchanged |
| `Approvals.RecoverStaleRun` | backend/app/agents/repository.py:551-589 | when recovery is enabled it fails exactly the runs not updated since the cutoff that are pending, planning or running, and cancels their open tasks |
| `AgentStates.RunTerminalAbsorbs` | backend/app/agents/state_machine.py:8-46 | along any walk the run table allows, a terminal status never changes |
| `AgentStates.TaskTerminalAbsorbs` | backend/app/agents/state_machine.py:48-93 | along any walk the task table allows, a terminal status never changes |
| `AgentStates.CompletedOnlyAfterRunning` | backend/app/agents/state_machine.py:8-46 | a run that reaches completed was running before |
| `AgentStates.RunReachedFrom` | backend/app/agents/state_machine.py:8-46 | the run table read from its targets: from which statuses each one is reached |
| `AgentStates.TaskReachedFrom` | backend/app/agents/state_machine.py:48-93 | the task table read from its targets |
| `AgentStates.ApprovalReachedFrom` | backend/app/agents/state_machine.py:95-117 | a pending approval may be resolved any way, a resolved one only the same way again |
| `AgentStates.TaskStatusSplit` | backend/app/agents/state_machine.py:119-136 | a task is terminal exactly when it is none of the four open states |
| `RunStore.Repository.TransitionRun` | backend/app/agents/repository.py:199-239 | a run transition is refused exactly when the table forbids it, changes nothing then, and otherwise sets the status and the end stamp it calls for |
| `RunStore.Repository.TransitionTask` | backend/app/agents/repository.py:280-320 | the same for a task, with the retry counter |
| `RunStore.Repository.AddHandoff` | backend/app/agents/repository.py:344-366 | a handoff is appended |
| `RunStore.Repository.CreateApproval` | backend/app/agents/repository.py:368-391 | a pending approval is appended |
| `RunStore.Repository.ResolveApproval` | backend/app/agents/repository.py:483-511 | an approval is resolved at most once; an overdue one becomes expired and the call is refused |
| `RunStore.Repository.CancelQueuedTasks` | backend/app/agents/repository.py:533-549 | every open task is cancelled and every terminal one kept |
| `RunStore.BaseUpdate` | backend/app/agents/repository.py:280-320 | changing the front row to a sound row keeps the row invariants |
| `RunStore.BaseCancel` | backend/app/agents/repository.py:533-549 | cancelling open rows keeps the row invariants and makes every row terminal |
| `RunStore.BaseHandoff` | backend/app/agents/repository.py:344-366 | a handoff away from the holder keeps the chain |
| `Plans.SortedIncreasing` | backend/app/agents/coordinator.py:406-406 | sorting a plan by sequence keeps exactly its tasks, in strictly increasing order |
| `RunBudgets.RunBudget.BoundedTimeout` | backend/app/agents/budgets.py:38-45 | a bounded timeout lies between the floor and the request and never reaches past the deadline |
| `RunBudgets.RunBudget.CheckRunTimeout` | backend/app/agents/budgets.py:43-45 | the check fails exactly when the clock has moved past the limit since the start |
| `RunBudgets.RunBudget.ConsumeStep` | backend/app/agents/budgets.py:47-57 | a step is consumed exactly when the deadline and the cap allow it; a refusal consumes nothing |
| `RunBudgets.RunBudget.ConsumeLlm` | backend/app/agents/budgets.py:59-69 | the same for model calls |
| `RunBudgets.RunBudget.ConsumeTools` | backend/app/agents/budgets.py:71-81 | the same for tool calls |
| `RunBudgets.RunBudget.ObserveContext` | backend/app/agents/budgets.py:83-89 | the largest context is remembered and one over the cap is refused |
| `Failures.CodeTablesDisjoint` | backend/app/agents/failures.py:55-120 | no code both stops and allows a retry |
| `Failures.RetryCodes` | backend/app/agents/failures.py:55-120 | the codes that allow a retry, one by one |
| `Failures.StopCodes` | backend/app/agents/failures.py:55-120 | every other named code forbids it, but for the class names |
| `Failures.ResultRetryable` | backend/app/agents/failures.py:122-150 | a result is retried exactly when its code is a timeout or transient, or the specialist asked and no table forbids it |
| `Failures.ExceptionRetryable` | backend/app/agents/failures.py:122-163 | an exception is retried exactly for timeout classes and retryable codes that no rule stops |
| `Failures.ClassNamesRetry` | backend/app/agents/failures.py:122-163 | an exception without a code is judged by its class name: category and retry of the four class names, no retry for any other |
| `Failures.UnknownCode` | backend/app/agents/failures.py:122-150 | a code no table knows is transient, permanent or internal as the specialist says, and retried only when it asks |
| `Failures.CodeChosen` | backend/app/agents/failures.py:122-150 | a code the caller gives comes before the code of the exception, and that before its class name; an empty code counts as none |
| `Failures.TimeoutsRetryable` | backend/app/agents/coordinator.py:941-1010 | every TimeoutError caught around an attempt, and a deadline error of the budget, qualify for a retry |
| `Failures.RetryFollowsCategory` | backend/app/agents/failures.py:122-150 | the decision and its category agree |
| `AgentContext.EnforceBudgets` | backend/app/agents/context.py:56-110 | the loops compute the specification of the enforced envelope, and the result is this, text by text: request, summary, newest messages, first memories and documents, newest results, each cut to its own limit and to what the texts before it left |
| `AgentContext.EnforcedHonours` | backend/app/agents/context.py:56-110 | the specification says the same: which items stay, every text whole or a beginning with three dots of exactly the length that is left, roles and all other values untouched |
| `AgentContext.CutItemsKept` | backend/app/agents/context.py:73-87 | each text of an item, in its order, has 2000 characters or what the texts before it left |
| `AgentContext.CutHistoryKept` | backend/app/agents/context.py:89-95 | each message keeps its role and has 1500 characters or what the messages before it left |
| `AgentContext.FittingItemsStay` | backend/app/agents/context.py:73-87 | short texts that fit together are not cut, and what is left out has no text |
| `AgentContext.FittingHistoryStays` | backend/app/agents/context.py:89-95 | the same for the history |
| `AgentContext.FittingEnvelopeStays` | backend/app/agents/context.py:56-110 | an envelope within all its limits is returned as it is, but for an empty summary |
| `AgentContext.TrimItems` | backend/app/agents/context.py:73-87 | the item loop pays for every budgeted text in order |
| `AgentContext.TrimHistory` | backend/app/agents/context.py:89-95 | the history loop pays for every message in order |
| `AgentContext.CharacterCount` | backend/app/agents/context.py:112-123 | the count is the sum over all counted texts |
| `AgentContext.EnforcedFits` | backend/app/agents/context.py:56-123 | after enforcement the character count is at most max_characters |
| `AgentContext.EnforcedIdempotent` | backend/app/agents/context.py:56-110 | enforcing twice is enforcing once exactly when the summary was not cut to nothing, which cannot happen from five characters on |
| `AgentContext.TinyLimitLosesSummary` | backend/app/agents/context.py:56-72 | with four characters in all a second pass drops the summary |
| `AgentContext.EnforcedItemLimits` | backend/app/agents/context.py:56-110 | memory and documents keep their limits; history and earlier results keep theirs exactly when the limit is at least one, there is nothing to keep, or no character is left for it |
| `AgentContext.ZeroLimitsKeep` | backend/app/agents/context.py:59-66 | with limits of zero the code keeps a message and an earlier result |
| `AgentContext.CutItemsPaid` | backend/app/agents/context.py:73-87 | whatever is kept of the items was paid for, and trimming again changes nothing |
| `AgentContext.CutHistoryPaid` | backend/app/agents/context.py:89-95 | the same for the history |
| `AgentContext.CutItemsKeepsOrder` | backend/app/agents/context.py:73-87 | what survives is a prefix in order with every other field untouched |
| `DependencyGraph.CycleSearch.Dfs` | backend/app/agents/registry.py:284-297 | the recursive search ends on every graph; a reported cycle exists, and otherwise the node is finished with the visiting set restored |
| `DependencyGraph.RejectCycles` | backend/app/agents/registry.py:279-299 | on any graph, dangling nodes included, a cycle is reported if and only if there is one |
| `DependencyGraph.FinishedAcyclic` | backend/app/agents/registry.py:279-299 | a graph whose nodes were all finished has no cycle |
| `DependencyGraph.EarlierAcyclic` | backend/app/agents/registry.py:254-264 | dependencies on smaller numbers cannot form a cycle |
| `DependencyGraph.OneMore` | backend/app/agents/registry.py:188-190 | one more than the deepest dependency is the longest chain |
| `DependencyGraph.LongestUnique` | backend/app/agents/registry.py:180-198 | the longest chain has one length |
| `DependencyGraph.TaskDepth` | backend/app/agents/coordinator.py:1381-1397 | the level walk ends on every input, cyclic ones included, and counts its levels |
| `DependencyGraph.LevelsAreChains` | backend/app/agents/coordinator.py:1381-1397 | every level counted is reached by a chain of that length |
| `DependencyGraph.TaskDepthIsChain` | backend/app/agents/coordinator.py:1381-1397 | the persisted depth is the length of some dependency chain |
| `DependencyGraph.TaskDepthAtMostLongest` | backend/app/agents/coordinator.py:1381-1397 | the persisted depth never exceeds the longest chain |
| `DependencyGraph.TaskDepthIs` | backend/app/agents/coordinator.py:1381-1397 | on any graph the stored depth is the number of levels, a task being met first at its shortest distance |
| `DependencyGraph.DepthsAgree` | backend/app/agents/coordinator.py:1381-1397 | the stored depth is the longest chain if and only if some longest chain reaches its last but one task without a detour, by no longer a way than any other |
| `DependencyGraph.TaskDepthCanFallShort` | backend/app/agents/coordinator.py:1381-1397 | on 4 -> 2, 3; 3 -> 2; 2 -> 1 the stored depth is two and the longest chain three |
| `PlanValidation.AgentRegistry.ShortfallAccepted` | backend/app/agents/registry.py:155-229 | every registry with an available agent accepts that plan |
| `PlanValidation.AgentRegistry.Register` | backend/app/agents/registry.py:32-40 | an agent is registered exactly when its key is well formed and new |
| `PlanValidation.AgentKeys` | backend/app/agents/registry.py:18-38 | a key is a letter and 1 to 62 letters, digits or underscores, and a line feed may follow |
| `PlanValidation.AgentRegistry.EffectiveTools` | backend/app/agents/registry.py:90-95 | an agent may use every tool of its class but those an override leaves out, and no other |
| `PlanValidation.AgentRegistry.EffectivelyEnabled` | backend/app/agents/registry.py:72-76 | an override that says so switches an agent on or off, and otherwise its class does |
| `PlanValidation.AgentRegistry.SetEnabled` | backend/app/agents/registry.py:116-133 | required agents cannot be switched off; a switch decides availability and changes no tool set and no other agent |
| `PlanValidation.AgentRegistry.ValidateTask` | backend/app/agents/registry.py:231-277 | a task passes exactly when it meets all per-task rules, and each complaint is true of it |
| `PlanValidation.DepthOf` | backend/app/agents/registry.py:188-191 | the depth of a task is the length of its longest dependency chain |
| `PlanValidation.AgentRegistry.ValidateTasks` | backend/app/agents/registry.py:180-198 | the loop passes exactly when every task passes and no chain is longer than max_depth; the recorded depths are longest chains |
| `PlanValidation.AgentRegistry.ValidatePlan` | backend/app/agents/registry.py:155-229 | a plan is accepted exactly when it is executable, written out over agents, overrides, tasks and limits; every complaint is true, and after the per-task checks the cycle search never complains |
| `PlanValidation.AgentRegistry.AcceptableIsExecutable` | backend/app/agents/registry.py:140-270 | the account of the checks and the one over the fields agree: chains of tasks are the walks of the graph, and each tool is judged by class, override and caller |
| `PlanValidation.AgentRegistry.ToolsWithoutOverride` | backend/app/agents/registry.py:89-95 | where no agent of the plan has an override of its tools, the tools of its class and those the caller enabled alone decide |
| `PlanValidation.AgentRegistry.AcceptedAcyclic` | backend/app/agents/registry.py:254-299 | tasks that pass the per-task rules form no cycle |
| `PlanValidation.AgentRegistry.AcceptedPlan` | backend/app/agents/registry.py:155-229 | an accepted plan is sequenced, its tools lie inside the class allow-lists, and every persisted depth is within max_depth |
| `PlanValidation.ToolCountSorted` | backend/app/agents/registry.py:184-204 | sorting does not change the number of tools counted |
| `DocumentLifecycle.VersionTree` | backend/alembic/versions/0016_doc_lifecycle.py:50-66 | the recursive query ends on every table, pointer cycles included, lists no document twice, and lists exactly the documents that reach a root |
| `DocumentLifecycle.Join` | backend/alembic/versions/0016_doc_lifecycle.py:57-59 | one round of the recursive term lists each child of the work table once |
| `DocumentLifecycle.UnionAll` | backend/alembic/versions/0016_doc_lifecycle.py:52-60 | two rounds never list the same document |
| `DocumentLifecycle.RootUnique` | backend/alembic/versions/0016_doc_lifecycle.py:52-60 | a document reaches one root, over one number of pointers |
| `DocumentLifecycle.RootlessIffLoops` | backend/alembic/versions/0016_doc_lifecycle.py:50-77 | where every pointer resolves, a document reaches no root exactly when its pointers run into a cycle |
| `DocumentLifecycle.Latest` | backend/alembic/versions/0016_doc_lifecycle.py:87-94 | for each knowledge document a newest ready, unarchived version is picked, or none exactly when there is none, by version number and then by creation time |
| `DocumentLifecycle.Migration.AttachTrees` | backend/alembic/versions/0016_doc_lifecycle.py:42-66 | every document that reaches a root gets it as its knowledge document; nothing else changes |
| `DocumentLifecycle.Migration.Backfill` | backend/alembic/versions/0016_doc_lifecycle.py:67-77 | exactly the remaining documents found their own knowledge document |
| `DocumentLifecycle.Migration.AssignOwners` | backend/alembic/versions/0016_doc_lifecycle.py:42-77 | every document has its owner, and the knowledge documents are exactly the owners |
| `DocumentLifecycle.Migration.ChooseActive` | backend/alembic/versions/0016_doc_lifecycle.py:87-100 | the active version is a newest candidate or stays null |
| `DocumentLifecycle.Migration.SetFlags` | backend/alembic/versions/0016_doc_lifecycle.py:112-120 | the flag marks exactly the active versions |
| `DocumentLifecycle.Migration.SetStates` | backend/alembic/versions/0016_doc_lifecycle.py:121-132 | each state says what is true of its document |
| `DocumentLifecycle.Migration.Upgrade` | backend/alembic/versions/0016_doc_lifecycle.py:18-132 | from any table, all data steps together reach a migrated state |
| `DocumentLifecycle.TreesShareKnowledge` | backend/alembic/versions/0016_doc_lifecycle.py:50-77 | a version shares the existing knowledge document of the version it supersedes; a document without a root stands alone |
| `DocumentLifecycle.ChainsShareKnowledge` | backend/alembic/versions/0016_doc_lifecycle.py:36-77 | whoever follows the pointers to a document that supersedes nothing finds the knowledge document there; a document whose pointers lead nowhere stands alone |
| `DocumentLifecycle.OneActiveVersion` | backend/alembic/versions/0016_doc_lifecycle.py:87-132 | state active holds exactly for the active version, at most once for each knowledge document, and is missing only where nothing is ready and unarchived |
| `DocumentLifecycle.ActiveIsNewest` | backend/alembic/versions/0016_doc_lifecycle.py:87-118 | beside every ready, unarchived document stands an active version with the greatest version number and, among equal ones, the latest time of creation, after which the knowledge document is named |
| `DocumentLifecycle.SupersededByNewer` | backend/alembic/versions/0016_doc_lifecycle.py:121-132 | a superseded document has another, active version of its knowledge document that is at least as new |
| `Citations.NearDuplicateSymmetric` | backend/app/conversations/citations.py:76-86 | near duplication is symmetric |
| `Citations.NearDuplicateReflexive` | backend/app/conversations/citations.py:76-86 | a text is a near duplicate of itself exactly when it has a term |
| `Citations.NearDuplicateIs` | backend/app/conversations/citations.py:76-87 | near duplicates share at least 0.88 of the terms of the shorter text |
| `Citations.TermsAre` | backend/app/conversations/citations.py:72-73 | the terms of a text are its maximal runs of letters and digits, in order and in small letters |
| `Citations.Dedupe` | backend/app/conversations/citations.py:89-107 | the loop keeps exactly the fresh passages |
| `Citations.DedupedClean` | backend/app/conversations/citations.py:89-107 | no two kept passages share an id or are near duplicates, and all were given |
| `Citations.DedupeIdempotent` | backend/app/conversations/citations.py:89-107 | deduplicating twice changes nothing, and a list stays as it is exactly when it has nothing to drop |
| `Citations.DedupeFilters` | backend/app/conversations/citations.py:89-107 | deduplication is an order-preserving filter that drops a passage only for an earlier one |
| `Citations.SelectContextChunks` | backend/app/conversations/citations.py:110-129 | a passage with text is selected exactly when the rendering with it still fits |
| `Citations.FittingFits` | backend/app/conversations/citations.py:110-129 | the rendering of a selection stays within the limit |
| `Citations.LeftOutOnlyForRoom` | backend/app/conversations/citations.py:110-129 | what was chosen stays chosen, and a passage with text is left out exactly when it would have broken the limit at its turn |
| `Citations.BuildRagContext` | backend/app/conversations/context.py:185-204 | the text is the rendering of the passages that fit, plus one cut passage when at least 40 characters are left |
| `Citations.RagBounded` | backend/app/conversations/context.py:185-204 | the text never exceeds the limit, is a beginning of the full rendering, and is the full rendering exactly when that fits |
| `Citations.RagShows` | backend/app/conversations/context.py:185-205 | passages are shown whole as long as they fit, and the next one is cut at the limit unless fewer than 40 characters are left for it |
| `Citations.RenderHolds` | backend/app/conversations/context.py:188-204 | the rendering holds the block of every passage whole, under its own number |
| `Citations.RenderIs` | backend/app/conversations/context.py:187-199 | every passage is its number in brackets, a line feed and its stripped content, and empty lines join them |
| `Citations.DigitsAre` | backend/app/conversations/context.py:187-199 | numbers are written in decimal digits without a leading zero |
| `Citations.SelectionRendersWhole` | backend/app/conversations/context.py:185-204 | at the same limit the selected passages are all rendered whole |
| `ChatContext.SelectHistory` | backend/app/conversations/context.py:89-102 | the newest messages are taken until a history limit stops the walk, and trimmed says whether any is missing |
| `ChatContext.PackHistory` | backend/app/conversations/context.py:132-144 | the newest of them are packed until the room is used up |
| `ChatContext.CharsAre` | backend/app/conversations/context.py:89-158 | the characters of a history are those of its contents, joined |
| `ChatContext.StopsTogether` | backend/app/conversations/context.py:89-144 | both walks together keep a contiguous newest part that stops only at a limit |
| `ChatContext.CountFits` | backend/app/conversations/context.py:115-144 | the counted characters fit the context exactly when question and memory alone do |
| `ChatContext.Reserve` | backend/app/conversations/context.py:115-130 | the summary stays exactly when everything fits, and is given up before the passages, which are cut to what question and memory leave less 32 characters; the room is negative exactly when question and memory alone are too long |
| `ChatContext.ReserveRoom` | backend/app/conversations/context.py:115-130 | the steps of the source compute this |
| `ChatContext.CutWhenShort` | backend/app/conversations/context.py:89-104 | the summary is considered exactly when the history limits leave a message out |
| `ChatContext.Build` | backend/app/conversations/context.py:61-183 | the built context is the announced summary, a contiguous newest part of the eligible messages, and the question behind the passages, is marked trimmed exactly when a message is missing, and fits exactly when question and memory fit |
| `ChatContext.EligibleAre` | backend/app/conversations/context.py:76-83 | the eligible messages are the active, complete, not blank ones of user and assistant, in their order |
| `ChatContext.ReplayedAre` | backend/app/conversations/context.py:160-167 | every message is replayed in its place with its own role and content |
| `Chunking.SplitOversized` | backend/app/documents/chunking.py:146-160 | the window loop ends and yields the stripped windows in order |
| `Chunking.WindowsCover` | backend/app/documents/chunking.py:146-160 | every character that is not blank lies in some piece, at its own place |
| `Chunking.WindowsBounded` | backend/app/documents/chunking.py:146-160 | every piece is tidy and at most chunk_size long |
| `Chunking.WindowsAre` | backend/app/documents/chunking.py:146-160 | the windows start every chunk_size - overlap characters, up to the first that reaches the end |
| `Chunking.GroupParagraphs` | backend/app/documents/chunking.py:44-66 | the buffer loop yields the pieces of the greedy grouping |
| `Chunking.GroupsGreedy` | backend/app/documents/chunking.py:44-66 | grouping loses and reorders nothing, every group of several paragraphs fits, and no group could take the next paragraph |
| `Chunking.ParagraphsAre` | backend/app/documents/chunking.py:118-144 | everything with text enters, once and in order: the segments if any holds text, else the numbered parts between empty lines |
| `Chunking.ListParagraphs` | backend/app/documents/chunking.py:118-144 | the loops over segments and parts compute this |
| `Chunking.ParagraphsEnter` | backend/app/documents/chunking.py:44-66 | every paragraph reaches the raw pieces, whole inside one of them or window by window |
| `Chunking.ApplyOverlap` | backend/app/documents/chunking.py:68-81 | the overlap loop computes its specification |
| `Chunking.OverlapKeeps` | backend/app/documents/chunking.py:68-81 | every raw piece of minimum length survives, in order, whole at the end of its own chunk, within the bounds, joined to the end of the chunk before it |
| `Chunking.OverlapCarried` | backend/app/documents/chunking.py:68-81 | a chunk begins with the last overlap characters of the chunk before it, unless that exceeds chunk size and overlap together, which no piece below the chunk size does |
| `Chunking.NothingUsable` | backend/app/documents/chunking.py:83-84 | no chunk results exactly when every raw piece is too short by itself |
| `Chunking.Find` | backend/app/documents/chunking.py:94-94 | the first occurrence at or after the cursor |
| `Chunking.Number` | backend/app/documents/chunking.py:91-116 | chunks are numbered consecutively and placed at the first occurrence of their beginning |
| `Chunking.OffsetsIncrease` | backend/app/documents/chunking.py:91-116 | start offsets strictly increase |
| `Chunking.ChunkDocument` | backend/app/documents/chunking.py:28-116 | the three errors occur exactly when they should, and a success is sound |
| `Chunking.SoundChunks` | backend/app/documents/chunking.py:28-116 | each chunk is within the bounds, has its index and matching offsets, and ends with its own raw piece |
| `Texts.StripBlank` | backend/app/agents/registry.py:249-250 | a string strips to nothing exactly when it is blank |
| `Texts.SpacesAre` | backend/app/agents/registry.py:249-250 | the blanks of str.isspace, one by one |
| `Texts.StripEndsWith` | backend/app/documents/chunking.py:72-77 | stripping in front of a tidy text keeps that text whole at the end |
| `Texts.BlocksContinue` | frontend/services/conversations.ts:231-235 | splitting at empty lines can be continued as text arrives |
| `Texts.BlocksRejoin` | backend/app/documents/chunking.py:142-142 | joining the parts again gives the text back |
| `Texts.BlocksAreWhole` | backend/app/documents/chunking.py:142-142 | no part holds an empty line, and the earliest one is taken |
| `ToolLoop.ProgressiveChunks` | backend/app/agents/orchestrator.py:44-61 | the pieces are not empty, at most max_chunk long, cut at the last space within reach or at the limit when there is none, and give the text back |
| `ToolLoop.SelectNames` | backend/app/agents/tool_selection.py:203-217 | exactly the known and registered candidates are selected, each once |
| `ToolLoop.Orchestrator.Screen` | backend/app/agents/orchestrator.py:366-394 | unauthorised calls are refused at once and the others kept in order |
| `ToolLoop.Orchestrator.AnswerCalls` | backend/app/agents/orchestrator.py:439-560 | authorised calls are answered one by one until the turn is cancelled or a tool breaks |
| `ToolLoop.Orchestrator.RunCalls` | backend/app/agents/orchestrator.py:424-560 | the assistant message is followed by its answers; an interrupted round is a prefix of the full one |
| `ToolLoop.Orchestrator.PlainAnswer` | backend/app/agents/orchestrator.py:401-422 | a plain reply is shown in full, or held back exactly when it is blank after tools ran |
| `ToolLoop.Orchestrator.StreamAnswer` | backend/app/agents/orchestrator.py:175-217 | streamed pieces are shown and added to the content in order, with a cancellation check before every event of the provider |
| `ToolLoop.Orchestrator.Stream` | backend/app/agents/orchestrator.py:304-640 | a turn asks the model at most max_iterations times, streams at most once, executes none but selected, known and available tools, runs exactly those that were asked for, records the whole transcript, ends in exactly one way - a broken turn reports agent_failed and then the error - and in a calm environment with an answer; content and shown text differ if and only if the last reply was blank but not empty after tools ran |
| `ToolLoop.BlankLead` | backend/app/agents/orchestrator.py:401-422 | a turn in which they differ |
| `ToolLoop.EveryCallAnswered` | backend/app/agents/orchestrator.py:424-560 | in a transcript every authorised call is answered exactly once, in order, right after the message that asked |
| `ToolLoop.EveryAnswerAsked` | backend/app/agents/orchestrator.py:366-560 | every answer that is not a refusal belongs to an assistant message before it |
| `ToolLoop.UnauthorisedRefused` | backend/app/agents/orchestrator.py:366-394 | a tool that is not selected or not known is asked for by no assistant message and answered by refusals only, and every such call gets one; no other call is refused |
| `ToolLoop.CallsKept` | backend/app/agents/orchestrator.py:366-394 | the calls of selected, known tools are kept, each once and in order |
| `ToolLoop.CallsRefused` | backend/app/agents/orchestrator.py:366-394 | each of the others gets one refusal, in order |
| `ToolLoop.RoundTells` | backend/app/agents/orchestrator.py:424-560 | an answer tells the outcome of its own call: unavailable, or the success of that execution |
| `ToolLoop.ExecutedAre` | backend/app/agents/orchestrator.py:439-560 | the tools that run are those of the kept calls that are registered, in order |
| `ToolLoop.StreamTextIs` | backend/app/agents/orchestrator.py:175-217 | the streamed text is that of the text items, joined in order |
| `ToolLoop.TextOfIs` | backend/app/agents/orchestrator.py:401-422 | the shown text is that of the delta events, joined in order |
| `SseStream.Parser.ParseBlock` | frontend/services/conversations.ts:237-257 | a block yields its event or nothing |
| `SseStream.DataIs` | frontend/services/conversations.ts:238-247 | the data of a block are the rests of all its data lines, joined |
| `SseStream.NameIs` | frontend/services/conversations.ts:238-247 | its name is the trimmed rest of its last event line, and there is none without such a line |
| `SseStream.LinesAre` | frontend/services/conversations.ts:238-238 | splitting at line feeds yields lines without one, and joining gives the block back |
| `SseStream.JsTrimIs` | frontend/services/conversations.ts:244-244 | trimming takes the blanks off both ends and nothing else |
| `SseStream.JsSpacesAre` | frontend/services/conversations.ts:244-244 | the blanks of String.prototype.trim, one by one |
| `SseStream.Parser.Feed` | frontend/services/conversations.ts:229-258 | one read yields the events of the blocks it completes and keeps the rest |
| `SseStream.ParseStream` | frontend/services/conversations.ts:215-262 | for every way of cutting the text into reads the events are those of the whole text |
| `SseStream.ParsedGrows` | frontend/services/conversations.ts:215-262 | more text only adds events |
| `SseStream.RoundTrip` | backend/app/llm/schemas.py:226-230 | the client reads back exactly the events the server encoded |
| `SseStream.TraceOnce` | frontend/lib/useStream.ts:89-180 | for any events in any order the reported callbacks hold at most one terminal one, that of the first terminal event, and exactly the text of the deltas |
| `SseStream.ErrorMessage` | frontend/lib/useStream.ts:48-61 | the reported message is that of the error object, else that of the record, unless blank, else a stock phrase |
| `SseStream.StreamRun.Handle` | frontend/lib/useStream.ts:89-180 | an event is reported as its kind and the verdict so far say; only a throwing callback other than the citation one, or a delta without data, raises |
| `SseStream.StreamRun.Recover` | frontend/lib/useStream.ts:184-198 | an exception is reported exactly when the turn is undecided and not aborted, so it never adds a second terminal callback |
| `SseStream.StreamRun.Run` | frontend/lib/useStream.ts:73-205 | for any events, exceptions and aborts: the report is that of the events looked at plus at most one error callback, with one terminal callback at most and all their delta text |
| `SseStream.Watch` | frontend/lib/useStream.ts:73-205 | from the encoded events to the screen: however the text is cut, all delta text is shown and the first verdict reported once |
| `SafeMetadata.SafeBounded` | backend/app/agents/api.py:62-80 | whatever goes in, only bounded values with public keys and at most four container levels come out |
| `SafeMetadata.SafeIdempotent` | backend/app/agents/api.py:62-80 | sanitising twice changes nothing, and leaves alone exactly what is already safe |
| `SafeMetadata.SafeKeeps` | backend/app/agents/api.py:70-79 | within the limits every list item and every public entry survives, itself sanitised |
| `SafeMetadata.SafeIs` | backend/app/agents/api.py:62-80 | what comes out, level by level: null below the fourth, the first 500 characters of a text, 200 of another object, the first 32 items, and of the first 64 entries those with a public key, each with the last value written under it |

## Left out

- Rows and sessions: tasks are kept in the order of their sequence numbers, and time stamps as
  set or not set. `attempts` and `handoffMark` are trace fields of the model. The event log,
  result texts, telemetry and citations of a run are not modelled.
- RunStore.Repository.TransitionRun: the start stamp, the duration and the error code and
  message columns are left out.
- RunStore.Repository.TransitionTask: the time stamps, duration, result and error columns are
  left out.
- RunStore.Repository.AddHandoff: reason, task and context summary are left out.
- RunStore.Repository.CreateApproval: action type, summary, owner and expiry are left out;
  whether an approval is overdue is an input where it is resolved.
- Approvals.RecoverStaleRun: works on one run; that it was last updated before the cutoff is an
  input.
- Time: the clock of a run is the sum of arbitrary delays, one for every wait of the engine, and
  the budget reads it where the source does; seconds are whole numbers. Whether an approval is
  overdue is an input. No real-time bound is claimed.
- Concurrency: one session works on a run at a time; cancellation routes and recovery act
  between engine calls. A cancelled event loop or a dying process is the fault `Killed`, which
  no handler sees and which leaves the last checkpoint.
- Specialists, planner, classifier, safety review: their results are arbitrary inputs; their
  call counts are not negative. The conversation agent never asks for approval.
- Regular-expression heuristics: tool selection, complexity classification and
  `normalize_grounded_answer` are not part of this model.
- Citations.NearDuplicate: lower-cases ASCII letters only; the quotient is compared with 22/25
  exactly, where the code rounds it to a double.
- Texts.Strip: white space is Python's `str.isspace` on single characters; text is a sequence
  of Unicode scalar values, and lengths count them.
- SseStream.ParseStream: works on decoded text; byte decoding, network reads and the abort
  check between two reads are left out, an abort being a shorter list of reads.
- SseStream.StreamRun: the hook's state is that of one run; a second run that replaces it, and
  its writes to the shared state, are not modelled.
- SseStream.RoundTrip: that `json.dumps` writes one line which `JSON.parse` reads back is an
  assumption of its `requires`.
- ToolLoop.Orchestrator.Stream: token usage, provider names, logging and the contents of tool
  results are left out; tool availability does not change within a turn.
- PlanValidation.AgentRegistry: agents are records with the fields the checks read; listing,
  views, `unregister` and timeouts would add only easy members.
- DocumentLifecycle.Migration.Upgrade: table and index creation, constraints, the migration's
  own event rows and the downgrade are left out; ties between equally new versions are broken
  arbitrarily, as `DISTINCT ON` may.
- Chunking.ChunkDocument: metadata is page, section and paragraph; the identifiers copied into
  every chunk are left out.
- SafeMetadata.Safe: numbers are opaque, and objects of other types are given by their text.
- Chat service, routes, admin pages, analytics, settings, models, evaluation and user
  interface are not part of this model.
