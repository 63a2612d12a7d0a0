/** What a run records, told by the plan and the replies: the tasks of the plan and their
    dependencies, why an attempt was repeated, how a task ended, and where the final text
    came from. */
module RunOutcomes {
  import opened Signals
  import opened AgentStates
  import opened RunStore
  import opened RunInvariant
  import opened RunEnvironment
  import RunHistory
  import Failures
  import Plans

  // --- The tasks of the plan --------------------------------------------------------------

  /** The row of a planned task. */
  lemma RowOfTask(rows: seq<TaskRow>, plan: seq<Plans.PlanTask>, t: Plans.PlanTask, i: nat)
    requires CarriesPlan(rows, plan) && t in plan && i < |rows| && rows[i].sequence == t.sequence
    ensures rows[i].agent == t.agent && rows[i].dependencies == t.dependencies
    ensures rows[i].maximumRetries == t.maximumRetries
  {
    hide StandsFor;
    var j :| 0 <= j < |rows| && StandsFor(rows[j], t);
    StandsAt(rows[j], t);
    assert !(i < j) && !(j < i);
  }

  lemma StandsAt(row: TaskRow, t: Plans.PlanTask)
    requires StandsFor(row, t)
    ensures row.sequence == t.sequence && row.agent == t.agent && row.dependencies == t.dependencies
    ensures row.maximumRetries == t.maximumRetries
  {
  }

  /** A planned task starts only after the tasks it depends on have succeeded. */
  lemma PlannedOrder(db: Db, st: Settings, plan: seq<Plans.PlanTask>, t: Plans.PlanTask, i: nat, d: int)
    requires Inv(db, st) && CarriesPlan(db.tasks, plan) && t in plan && d in t.dependencies
    requires i < |db.tasks| && db.tasks[i].sequence == t.sequence && db.tasks[i].attempts != []
    ensures exists j :: 0 <= j < i && db.tasks[j].sequence == d && db.tasks[j].status == TaskStatus.Succeeded
  {
    hide Inv, CarriesPlan;
    RowOfTask(db.tasks, plan, t, i);
    RunHistory.StartedAfterDependencies(db, st, i, d);
  }

  /** In a completed run without a rejection a planned task is skipped exactly when some task
      it depends on did not succeed. */
  lemma PlannedSkip(db: Db, st: Settings, plan: seq<Plans.PlanTask>, t: Plans.PlanTask, i: nat)
    requires Inv(db, st) && CarriesPlan(db.tasks, plan) && t in plan
    requires db.run.status == RunStatus.Completed
    requires forall a :: a in db.approvals ==> a.status != ApprovalStatus.Rejected
    requires i < |db.tasks| && db.tasks[i].sequence == t.sequence
    ensures db.tasks[i].status == TaskStatus.Skipped <==>
              exists d :: d in t.dependencies &&
                forall j :: 0 <= j < |db.tasks| && db.tasks[j].sequence == d ==>
                  db.tasks[j].status != TaskStatus.Succeeded
  {
    hide Inv, CarriesPlan;
    RowOfTask(db.tasks, plan, t, i);
    RunHistory.SkippedIffDependencyFailed(db, st, i);
  }

  // --- Why a task ended as it did ---------------------------------------------------------

  /** The row has ended by itself, without an approval. */
  predicate EndedAlone(t: TaskRow) {
    && t.status in {TaskStatus.Succeeded, TaskStatus.Failed, TaskStatus.TimedOut}
    && t.attempts != [] && t.attempts[|t.attempts| - 1] != AskedApproval
  }

  /** The last reply decides: a result counts as a success when it says so and names no error,
      an exception fails the task, silence times it out, and the conversation agent falls back
      to a text of its own instead. Two ends do not follow the reply: the deadline error of a
      late run, and a limit. */
  lemma SettledByReply(t: TaskRow, env: Env, retryTimeouts: bool, globalRetries: nat)
    requires RowOk(t, globalRetries) && LogFollows(t, env, retryTimeouts) && EndedAlone(t)
    ensures var fallback, last: nat := t.agent == "conversation", |t.attempts| - 1;
            match t.attempts[last]
            case Errored(_, true) => t.status == if fallback then TaskStatus.Succeeded else TaskStatus.Failed
            case LimitHit => t.status == TaskStatus.Failed
            case _ =>
              match env.dispatch(t.sequence, last)
              case NoReply => t.status == if fallback then TaskStatus.Succeeded else TaskStatus.TimedOut
              case Throws(e) =>
                t.status == if fallback then TaskStatus.Succeeded
                            else if e.kind == Failures.BuiltinTimeoutError then TaskStatus.TimedOut
                            else TaskStatus.Failed
              case Returns(r) =>
                && !r.requiresApproval
                && t.status == if r.success && Unspoiled(r) then TaskStatus.Succeeded else TaskStatus.Failed
              case Dies => false
  {
    hide Failures.Classify, Retryable, RetryCap;
  }

  /** No error code, or an empty one. */
  predicate Unspoiled(r: Result) {
    r.errorCode == None || r.errorCode == Some(Failures.OtherCode(""))
  }

  /** Where a conversation text comes from: from a result of the conversation agent with
      content, or from the fallback of a conversation task that got none. */
  lemma TextFrom(t: TaskRow, env: Env, retryTimeouts: bool, globalRetries: nat)
    requires RowOk(t, globalRetries) && LogFollows(t, env, retryTimeouts) && EndedAlone(t)
    ensures var last: nat := |t.attempts| - 1;
            Spoke(t) <==>
              match t.attempts[last]
              case Errored(_, true) => t.agent == "conversation"
              case LimitHit => false
              case _ =>
                match env.dispatch(t.sequence, last)
                case Returns(r) => r.agentName == "conversation" && r.hasContent
                case _ => t.agent == "conversation"
  {
    hide Failures.Classify, Retryable, RetryCap;
  }

  /** The policy allows another attempt after this reply. Timeouts are repeated where the
      profile allows it, other exceptions when their class or code does, and results without
      success when their code does, or when they ask for it and no code forbids it. */
  predicate WorthRepeating(reply: Reply, agent: string, retryTimeouts: bool) {
    match reply
    case NoReply => retryTimeouts && agent != "conversation"
    case Throws(e) =>
      && agent != "conversation" && e.kind != Failures.LimitExceededError
      && (if e.kind == Failures.BuiltinTimeoutError then retryTimeouts
          else Failures.Classify(Some(e), None, None).retryable)
    case Returns(r) =>
      && !r.requiresApproval && !(r.success && Unspoiled(r))
      && var c := Failures.Alias(if Unspoiled(r) then Failures.OtherCode("task_failed") else r.errorCode.value);
         || c in Failures.TIMEOUT_CODES || c in Failures.TRANSIENT_CODES
         || (r.retryable && c !in Failures.STOP_CODES)
    case Dies => false
  }

  /** Attempts are repeated for no other reason than such a reply or a deadline error, and such
      a reply is final only when all retries are used. */
  lemma RepeatedByReply(t: TaskRow, env: Env, retryTimeouts: bool, globalRetries: nat, k: nat)
    requires RowOk(t, globalRetries) && LogFollows(t, env, retryTimeouts) && k < |t.attempts|
    requires !t.attempts[k].LimitHit? && !(t.attempts[k].Errored? && t.attempts[k].late)
    ensures k < |t.attempts| - 1 ==> WorthRepeating(env.dispatch(t.sequence, k), t.agent, retryTimeouts)
    ensures EndedAlone(t) && WorthRepeating(env.dispatch(t.sequence, k), t.agent, retryTimeouts) ==>
              k < |t.attempts| - 1 || |t.attempts| == 1 + Min(t.maximumRetries, globalRetries)
  {
    hide Failures.Classify, Failures.TIMEOUT_CODES, Failures.TRANSIENT_CODES, Failures.STOP_CODES;
    var reply := env.dispatch(t.sequence, k);
    if reply.Returns? {
      Failures.ResultRetryable(ResultCode(reply.result), reply.result.retryable);
    }
  }

  /** Cancelling a queue touches the tasks that had not ended, and of these the status alone. */
  lemma CancelledTasks(before: seq<TaskRow>, after: seq<TaskRow>, j: nat)
    requires CancelledRows(before, after) && j < |before|
    ensures |after| == |before| && SamePlan(before[j], after[j]) && after[j].attempts == before[j].attempts
    ensures before[j].status in {TaskStatus.Pending, TaskStatus.Ready, TaskStatus.Running, TaskStatus.AwaitingApproval}
            ==> after[j].status == TaskStatus.Cancelled
    ensures before[j].status !in {TaskStatus.Pending, TaskStatus.Ready, TaskStatus.Running, TaskStatus.AwaitingApproval}
            ==> after[j] == before[j]
  {
    hide TerminalTask;
    TaskStatusSplit(before[j].status);
    assert after[j] == CancelledRow(before[j]);
  }

  // --- Time ---------------------------------------------------------------------------------

  /** An execution is late when more time has passed than the settings and the profile allow;
      timeouts are repeated in every profile but the fast one. */
  lemma DeadlineOfExecution(env: Env, st: Settings, profile: Profile, start: nat, at: nat)
    ensures Overdue(env, ExecutionMeter(st, env, start, profile), at) <==>
              || Clock(env, at) > Clock(env, start) + st.runTimeout
              || (profile == Fast && Clock(env, at) > Clock(env, start) + 90000)
              || (profile == Balanced && Clock(env, at) > Clock(env, start) + 150000)
              || (profile == Deep && Clock(env, at) > Clock(env, start) + 240000)
    ensures ProfileLimits(profile).3 <==> profile != Fast
  {
  }

  lemma DeadlineOfResume(env: Env, st: Settings, db: Db, start: nat, p: nat, at: nat)
    ensures Overdue(env, ResumeMeter(st, db, start, p), at) <==>
              || Clock(env, at) > Clock(env, start) + st.runTimeout
              || (st.interactiveFastMode && Clock(env, at) > Clock(env, start) + 90000)
  {
  }
}
