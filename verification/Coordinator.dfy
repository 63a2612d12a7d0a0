/** The multi-agent run engine: backend/app/agents/coordinator.py. Everything outside the
    engine - specialists, clock, cancellation, event callbacks - is an `Env`, and every
    statement holds for all of them. */
module Coordinator {
  import opened Signals
  import opened AgentStates
  import opened RunStore
  import opened RunInvariant
  import opened RunEnvironment
  import opened RunForecast
  import RunBudgets
  import Failures
  import AgentContext
  import Plans

  /** The part of a task's result dictionary the engine uses later. */
  datatype TaskResult = TaskResult(success: bool, requiresApproval: bool, speaks: bool)

  const MAX_REQUEST_SEQUENCE := 64
  const FALLBACK_SEQUENCE := 99

  const SKIPPED_RESULT := TaskResult(false, false, false)

  function IndexOf(tasks: seq<TaskRow>, sequence: int): (r: Option<nat>)
    ensures r.Some? ==> r.value < |tasks| && tasks[r.value].sequence == sequence
    ensures r.None? ==> forall j :: 0 <= j < |tasks| ==> tasks[j].sequence != sequence
  {
    if tasks == [] then None
    else if Last(tasks).sequence == sequence then Some(|tasks| - 1)
    else IndexOf(tasks[..|tasks| - 1], sequence)
  }

  lemma SucceededAt(tasks: seq<TaskRow>, j: nat)
    requires Ordered(tasks) && j < |tasks|
    ensures SucceededSeq(tasks, tasks[j].sequence) <==> tasks[j].status == TaskStatus.Succeeded
  {
  }

  lemma NotSucceeded(tasks: seq<TaskRow>, sequence: int)
    requires forall j :: 0 <= j < |tasks| ==> tasks[j].sequence != sequence
    ensures !SucceededSeq(tasks, sequence)
  {
  }

  /** What is charged to a budget. */
  ghost function Used(b: RunBudgets.RunBudget): Calls
    reads b`llmCallsUsed, b`toolCallsUsed
  {
    Calls(b.llmCallsUsed, b.toolCallsUsed)
  }

  ghost function TallyOf(b: RunBudgets.RunBudget): Tally
    reads b`stepsUsed, b`llmCallsUsed, b`toolCallsUsed
  {
    Tally(b.stepsUsed, Used(b))
  }

  /** How a call to the engine ended for its caller. */
  datatype Outcome = Finished | WaitingForApproval | Failure(fault: Fault) | Interrupted

  /** The terminal status each exception handler picks. */
  function HandlerTarget(fault: Fault): RunStatus {
    match fault
    case RunTimeout => RunStatus.TimedOut
    case Cancelled => RunStatus.Cancelled
    case _ => RunStatus.Failed
  }

  /** The exception raised at the wait `at` is accounted for, given the rows of the run: before
      the plan is stored by planning, review or a jolt; after that the rows are those of the
      plan, and they or the environment show the cause. */
  ghost predicate Accounted(fault: Fault, env: Env, m: Meter, at: nat, rows: seq<TaskRow>, st: Settings) {
    || (rows == [] && (PlanCaused(fault, env) || Jolted(fault, env, at)))
    || (rows != [] && SameRows(rows, m.planned) && Caused(fault, env, m, at, rows, st, true))
  }

  /** The process died, or a callback failed while a failure was being handled. */
  ghost predicate BrokenOff(env: Env, m: Meter, at: nat) {
    || Jolted(Killed, env, at) || Jolted(Unexpected, env, at)
    || PlanCaused(Killed, env) || SomeMayDie(env, m)
  }

  /** The run an execution with this outcome leaves; `end` is the engine's last wait in it. An
      interrupted one leaves the last checkpoint, whose counters are not saved yet. */
  ghost predicate LeftBy(outcome: Outcome, env: Env, profile: Profile, m: Meter, end: nat, db: Db, st: Settings) {
    && (db.tasks == [] || SameRows(db.tasks, m.planned))
    && Logged(db.tasks, env, profile) && LateRows(env, m, db.tasks, end)
    && (outcome.Interrupted?
        || Kept(env, profile, m, end, db.tasks, Calls(db.run.llmCallsUsed, db.run.toolCallsUsed)))
    && (match outcome
        case Finished =>
          db.run.status == RunStatus.Completed && db.approvals == [] && SomeoneSpoke(db.tasks)
        case WaitingForApproval => db.run.status == RunStatus.AwaitingApproval
        case Failure(fault) =>
          && (fault == RunTimeout ==> db.run.status == RunStatus.TimedOut)
          && (fault == Fault.Cancelled ==> db.run.status == RunStatus.Cancelled)
          && (fault !in {RunTimeout, Fault.Cancelled} ==> db.run.status == RunStatus.Failed)
          && fault !in {BadTransition, NestedApproval, Killed}
          && exists at :: m.start < at <= end && Accounted(fault, env, m, at, db.tasks, st)
        case Interrupted =>
          && db.run.status in {RunStatus.Pending, RunStatus.Running}
          && exists at :: m.start < at <= end && BrokenOff(env, m, at))
  }

  /** What a resume keeps of a granted run: the row invariants, all work recorded so far, the
      run and its approval, and rows behind the pause that follow their replies. */
  ghost predicate ResumeKept(env: Env, m: Meter, at: nat, start: Db, db: Db, globalRetries: nat) {
    && Base(db, globalRetries) && Extends(start, db) && |db.tasks| == |start.tasks|
    && db.approvals == start.approvals && db.actions == start.actions
    && (forall j :: m.from <= j < |db.tasks| ==> LogFollows(db.tasks[j], env, ProfileLimits(Fast).3))
    && LateRows(env, m, db.tasks, at)
  }

  /** The exception that broke a resume off at the wait `at`, when the run stood like this. */
  ghost predicate ResumeBroke(fault: Fault, env: Env, m: Meter, at: nat, start: Db, db: Db, st: Settings) {
    && fault in {RunTimeout, LimitExceeded, NestedApproval, Unexpected, Killed}
    && ResumeKept(env, m, at, start, db, st.maxRetries)
    && Caused(fault, env, m, at, db.tasks, st, false)
  }

  /** How a resume ends that was foretold to stop like this. */
  function ResumeEnd(stop: Stop): Signal {
    match stop
    case Done => Fine
    case Asks => Raised(NestedApproval)
    case Limit => Raised(LimitExceeded)
    case Dead => Raised(Killed)
  }

  /** Planning and review pass, and up to the wait `end` nobody cancels, nothing crashes and
      the deadline does not pass. */
  ghost predicate Undisturbed(env: Env, m: Meter, end: nat) {
    && env.plan.Planned? && env.review.Passed?
    && (forall k :: m.start < k <= end ==> !env.cancelled(k)) && Smoothly(env, m, end)
  }

  /** The run stands at the gate of the task that asked. */
  ghost predicate AtGate(run: Run, db: Db) {
    exists p: nat ::
      && p < |run.tasks| && run.tasks[p].status == TaskStatus.Running
      && db.approvals == [Approval(p, ApprovalStatus.Pending)]
      && db.tasks == run.tasks[p := run.tasks[p].(status := TaskStatus.AwaitingApproval)]
  }

  /** The outcome and the run that were foretold. */
  ghost predicate Foretold(outcome: Outcome, env: Env, st: Settings, profile: Profile, db: Db) {
    var run := Foretell(env, st, profile);
    match run.stop
    case Done =>
      if SomeoneSpoke(run.tasks) then
        outcome == Finished && db.tasks == run.tasks && db.handoffs == run.handoffs && Counted(db.run, run.tally)
      else outcome == Failure(if run.tally.steps == st.maxSteps then LimitExceeded else Unexpected)
    case Asks =>
      outcome == WaitingForApproval && AtGate(run, db) && db.handoffs == run.handoffs && Counted(db.run, run.tally)
    case Limit =>
      && outcome == Failure(LimitExceeded) && CancelledRows(run.tasks, db.tasks)
      && db.handoffs == run.handoffs && Counted(db.run, run.tally)
    case Dead => outcome == Interrupted
  }

  class CoordinatorEngine {
    const settings: Settings
    const repo: Repository
    var waits: nat  // how often the engine has waited for the outside world

    constructor (settings: Settings, repo: Repository)
      ensures this.settings == settings && this.repo == repo && waits == 0
    {
      this.settings, this.repo, waits := settings, repo, 0;
    }

    /** The caps and the deadline of the budget are those of this call. */
    ghost predicate Capped(b: RunBudgets.RunBudget, env: Env, m: Meter) {
      && b.maximumSteps == settings.maxSteps && b.runTimeout == m.limit && b.started == Clock(env, m.start)
      && b.maxLlmCalls == settings.maxLlmCalls && b.maxToolCalls == settings.maxToolCalls
      && b.maxContextCharacters == settings.contextMaxCharacters
    }

    /** A wait, and what the clock shows after it. */
    method Look(env: Env) returns (now: nat)
      modifies this`waits
      ensures waits == old(waits) + 1 && now == Clock(env, waits)
    {
      waits := waits + 1;
      return Clock(env, waits);
    }

    /** budget.check_run_timeout(). */
    method CheckTime(env: Env, b: RunBudgets.RunBudget, ghost m: Meter) returns (s: Signal)
      requires Capped(b, env, m)
      modifies this`waits
      ensures waits == old(waits) + 1
      ensures s == if Overdue(env, m, waits) then Raised(RunTimeout) else Fine
    {
      var now := Look(env);
      s := b.CheckRunTimeout(now);
    }

    /** budget.consume_step(): refused exactly when the deadline has passed or all steps are
        used. */
    method TakeStep(env: Env, b: RunBudgets.RunBudget, ghost m: Meter) returns (s: Signal)
      requires Capped(b, env, m) && b.WithinCaps()
      modifies this`waits, b`stepsUsed
      ensures b.WithinCaps() && waits == old(waits) + 1
      ensures s == if Overdue(env, m, waits) then Raised(RunTimeout)
                   else if old(b.stepsUsed) == settings.maxSteps then Raised(LimitExceeded) else Fine
      ensures b.stepsUsed == old(b.stepsUsed) + if s.Fine? then 1 else 0
    {
      var now := Look(env);
      s := b.ConsumeStep(now);
    }

    /** _add_event: the callback may crash or the process may die in it. */
    method AddEvent(env: Env) returns (s: Signal)
      modifies this`waits
      ensures waits == old(waits) + 1
      ensures s == match env.trouble(waits)
                   case Smooth => Fine
                   case Crash => Raised(Unexpected)
                   case Kill => Raised(Killed)
      ensures s.Raised? ==> s.fault in {Unexpected, Killed} && Jolted(s.fault, env, waits)
    {
      waits := waits + 1;
      match env.trouble(waits)
      case Smooth => return Fine;
      case Crash => return Raised(Unexpected);
      case Kill => return Raised(Killed);
    }

    method RaiseIfCancelled(env: Env) returns (s: Signal)
      modifies this`waits
      ensures waits == old(waits) + 1
      ensures s == if env.cancelled(waits) then Raised(Fault.Cancelled) else Fine
      ensures s.Raised? ==> Jolted(s.fault, env, waits)
    {
      waits := waits + 1;
      if env.cancelled(waits) {
        return Raised(Fault.Cancelled);
      }
      return Fine;
    }

    /** Build an envelope from whatever material there is and charge it to the budget: an
        enforced envelope never exceeds the context budget, so this cannot raise. */
    method ObserveEnvelope(env: Env, b: RunBudgets.RunBudget)
      requires b.maxContextCharacters == settings.contextMaxCharacters
      modifies this`waits, b`contextCharacters
      ensures waits == old(waits) + 1
      ensures b.contextCharacters <= Max(old(b.contextCharacters), settings.contextMaxCharacters)
    {
      hide AgentContext.Honours, AgentContext.Enforced, AgentContext.Count;
      waits := waits + 1;
      var material := env.material(waits);
      var e := material.(limits := material.limits.(maxCharacters := settings.contextMaxCharacters));
      var envelope := AgentContext.EnforceBudgets(e);
      var n := AgentContext.CharacterCount(envelope);
      AgentContext.EnforcedFits(e);
      var s := b.ObserveContext(n);
      assert s.Fine?;
    }

    /** The budget charges after a specialist returned: refused exactly when a counter would
        pass its cap or the deadline has passed. */
    method Charge(r: Result, env: Env, b: RunBudgets.RunBudget, ghost m: Meter) returns (charged: Signal)
      requires b.WithinCaps() && Capped(b, env, m)
      modifies this`waits, b`llmCallsUsed, b`toolCallsUsed
      ensures b.WithinCaps() && old(waits) <= waits
      ensures charged.Raised? ==> charged.fault in {LimitExceeded, RunTimeout}
      ensures charged == Raised(RunTimeout) ==> Overdue(env, m, waits)
      ensures charged.Fine? ==>
                && b.llmCallsUsed == old(b.llmCallsUsed) + r.llmCalls
                && b.toolCallsUsed == old(b.toolCallsUsed) + r.toolCalls
      ensures !Overdue(env, m, waits) ==>
                (charged.Raised? <==>
                   || (r.llmCalls > 0 && old(b.llmCallsUsed) + r.llmCalls > settings.maxLlmCalls)
                   || (r.toolCalls > 0 && old(b.toolCallsUsed) + r.toolCalls > settings.maxToolCalls))
      ensures var reply := Returns(r);
              var counted := old(Used(b)).Plus(CallsOf(reply));
              && old(Used(b)).Within(Used(b)) && Used(b).Within(counted)
              && (charged.Fine? ==> Used(b) == counted)
              && (charged == Raised(LimitExceeded) ==> Overspends(reply, counted, CallCap(settings)))
              && (!Overdue(env, m, waits) ==>
                    && (charged.Raised? <==> Overspends(reply, counted, CallCap(settings)))
                    && Used(b) == CallsAfter(reply, old(Used(b)), CallCap(settings)))
    {
      ghost var start := waits;
      if r.llmCalls > 0 {
        var now := Look(env);
        SmoothBefore(env, m, start + 1, start + 2);
        :- b.ConsumeLlm(r.llmCalls, now);
      }
      if r.toolCalls > 0 {
        var now := Look(env);
        :- b.ConsumeTools(r.toolCalls, now);
      }
      return Fine;
    }

    /** The try block of one attempt: bounded timeout, dispatch, and the budget charges of
        _dispatch_task. Unless the run is late, the reply and the counters alone decide how it
        ends. */
    method TryAttempt(i: nat, attempt: nat, env: Env, b: RunBudgets.RunBudget, profile: Profile, ghost m: Meter)
      returns (s: Signal, end: Attempt)
      requires i < |repo.db.tasks| && b.WithinCaps() && Capped(b, env, m)
      modifies this`waits, b`llmCallsUsed, b`toolCallsUsed
      ensures b.WithinCaps() && old(waits) < waits
      ensures s.Raised? ==> s.fault == Killed
      ensures var reply := env.dispatch(repo.db.tasks[i].sequence, attempt);
              var retryTimeouts := ProfileLimits(profile).3;
              var counted := old(Used(b)).Plus(CallsOf(reply));
              && old(Used(b)).Within(Used(b)) && Used(b).Within(counted)
              && (s.Raised? ==> reply.Dies?)
              && (s.Fine? ==> !end.Open? && Follows(reply, retryTimeouts, end))
              && (s.Fine? && Counts(end) ==> Used(b) == counted)
              && (s.Fine? && end == LATE ==> Overdue(env, m, waits))
              && (s.Fine? && end == LimitHit ==> Overspends(reply, counted, CallCap(settings)))
              && (!Overdue(env, m, waits) ==>
                    && Used(b) == CallsAfter(reply, old(Used(b)), CallCap(settings))
                    && if reply.Dies? then s == Raised(Killed)
                       else s.Fine? && end == AttemptEnd(reply, retryTimeouts, old(Used(b)), CallCap(settings)))
    {
      hide Failures.Classify;
      end := LATE;
      var t := repo.db.tasks[i];
      var (_, specialistLimit, synthesisLimit, retryTimeouts) := ProfileLimits(profile);
      var requested := if t.agent == CONVERSATION then Min(settings.synthesisTimeout, synthesisLimit)
                       else Min(settings.taskTimeout, specialistLimit);
      var now := Look(env);
      ghost var looked := waits;
      var late, timeout := b.BoundedTimeout(requested, now);
      if late.Raised? {
        return Fine, Overrun();
      }
      var reply := env.dispatch(t.sequence, attempt);
      match reply {
        case Dies => return Raised(Killed), end;
        case NoReply =>
          Failures.TimeoutsRetryable(Failures.TASK_TIMEOUT);
          var decision := Failures.Classify(Some(Failures.TASK_TIMEOUT), Some(Failures.AgentTaskTimedOut), None);
          return Fine, TimeLimit(decision.retryable && retryTimeouts);
        case Throws(e) =>
          if e.kind.BuiltinTimeoutError? {
            Failures.TimeoutsRetryable(e);
            var decision := Failures.Classify(Some(e), Some(Failures.AgentTaskTimedOut), None);
            return Fine, TimeLimit(decision.retryable && retryTimeouts);
          }
          return Fine, ErrorEnd(e, retryTimeouts);
        case Returns(r) =>
          var charged := Charge(r, env, b, m);
          SmoothBefore(env, m, looked, waits);
          if charged.Raised? {
            return Fine, if charged.fault == LimitExceeded then LimitHit else Overrun();
          }
          return Fine, ResultEnd(r);
      }
    }

    /** The handler of the budget's own deadline error: it is always worth a retry. */
    function Overrun(): (end: Attempt)
      ensures end == LATE
    {
      Failures.TimeoutsRetryable(Failures.TASK_TIMEOUT);
      Errored(Failures.Classify(Some(Failures.DEADLINE), None, None).retryable, true)
    }

    /** A transition that the tables must allow, followed by its event. */
    method MoveTask(i: nat, target: TaskStatus, retry: bool, env: Env) returns (s: Signal)
      requires i < |repo.db.tasks| && target in TaskTargets(repo.db.tasks[i].status)
      modifies this`waits, repo`db
      ensures repo.db == WithRow(old(repo.db), i, MovedTask(old(repo.db.tasks[i]), target, retry))
      ensures waits == old(waits) + 1
      ensures s.Raised? ==> s.fault in {Unexpected, Killed} && Jolted(s.fault, env, waits)
    {
      var moved := repo.TransitionTask(i, target, retry);
      assert moved.Fine?;
      s := AddEvent(env);
    }

    /** The row while the retry loop runs on it: `attempt` starts, all of them retried. */
    predicate InRetry(t: TaskRow, was: TaskRow, attempt: nat, env: Env, profile: Profile) {
      && SamePlan(t, was) && t.handoffMark == was.handoffMark
      && t.status == TaskStatus.Ready && t.retryCount == attempt == |t.attempts|
      && attempt <= RetryCap(was, settings.maxRetries)
      && (forall k :: 0 <= k < attempt ==> Retryable(t.agent, t.attempts[k]))
      && LogFollows(t, env, ProfileLimits(profile).3)
    }

    /** The row once an attempt was started: it can be in any state the attempt can leave. */
    predicate Attempted(t: TaskRow, was: TaskRow, env: Env, profile: Profile) {
      && SamePlan(t, was) && t.handoffMark == was.handoffMark
      && t.status !in {TaskStatus.Pending, TaskStatus.Skipped, TaskStatus.Cancelled}
      && RowOk(t, settings.maxRetries) && (Asked(t) ==> t.status == TaskStatus.Running)
      && LogFollows(t, env, ProfileLimits(profile).3)
      && t == RanRow(was, t.attempts, was.handoffMark, settings.maxRetries)
    }

    /** The row when the loop is left normally. */
    predicate RetryDone(t: TaskRow, out: TaskResult) {
      && t.attempts != []
      && out.speaks == Speaks(t.agent, Last(t.attempts))
      && (if out.requiresApproval then
            t.status == TaskStatus.Running && Last(t.attempts).AskedApproval?
          else
            && !Last(t.attempts).AskedApproval?
            && t.status in {TaskStatus.Succeeded, TaskStatus.Failed, TaskStatus.TimedOut}
            && (out.success <==> t.status == TaskStatus.Succeeded))
    }

    /** A running row whose attempt has just ended. */
    predicate Ended(t: TaskRow, was: TaskRow, end: Attempt, attempt: nat, env: Env, profile: Profile) {
      && SamePlan(t, was) && t.handoffMark == was.handoffMark
      && t.status == TaskStatus.Running && t.retryCount == attempt && |t.attempts| == attempt + 1
      && attempt <= RetryCap(was, settings.maxRetries) && Last(t.attempts) == end
      && (forall k :: 0 <= k < attempt ==> Retryable(t.agent, t.attempts[k]))
      && LogFollows(t, env, ProfileLimits(profile).3)
    }

    lemma RetriedRow(t: TaskRow, was: TaskRow, end: Attempt, attempt: nat, env: Env, profile: Profile)
      requires Ended(t, was, end, attempt, env, profile)
      requires Retryable(t.agent, end) && attempt < RetryCap(was, settings.maxRetries)
      ensures InRetry(MovedTask(t, TaskStatus.Ready, true), was, attempt + 1, env, profile)
      ensures Attempted(MovedTask(t, TaskStatus.Ready, true), was, env, profile)
    {
    }

    lemma SettledRow(t: TaskRow, was: TaskRow, end: Attempt, attempt: nat, env: Env, profile: Profile)
      requires Ended(t, was, end, attempt, env, profile) && !end.Open? && !end.AskedApproval?
      requires Retryable(t.agent, end) ==> attempt == RetryCap(was, settings.maxRetries)
      ensures var done := MovedTask(t, Settled(t.agent, end), false);
              && Attempted(done, was, env, profile)
              && RetryDone(done, TaskResult(done.status == TaskStatus.Succeeded, false, Speaks(t.agent, end)))
    {
    }

    /** What the loop does with an attempt that ended: finish the task, or go round again. */
    method HandleEnd(i: nat, end: Attempt, attempt: nat, env: Env, profile: Profile, ghost was: TaskRow)
      returns (s: Signal, again: bool, out: TaskResult)
      requires i < |repo.db.tasks| && !end.Open?
      requires Ended(repo.db.tasks[i], was, end, attempt, env, profile)
      modifies this`waits, repo`db
      ensures OnlyRow(old(repo.db), repo.db, i)
      ensures repo.db.tasks[i].attempts == old(repo.db.tasks[i]).attempts
      ensures Attempted(repo.db.tasks[i], was, env, profile)
      ensures old(waits) <= waits
      ensures s == Raised(LimitExceeded) <==> end == LimitHit
      ensures s.Raised? && s.fault != LimitExceeded ==>
                s.fault in {Unexpected, Killed} && Jolted(s.fault, env, waits) && old(waits) < waits
      ensures s.Fine? ==> (again <==> Retryable(was.agent, end) && attempt < RetryCap(was, settings.maxRetries))
      ensures s.Fine? && again ==> InRetry(repo.db.tasks[i], was, attempt + 1, env, profile)
      ensures s.Fine? && !again ==> RetryDone(repo.db.tasks[i], out)
      ensures s.Fine? && !again ==> (out.requiresApproval <==> end == AskedApproval)
    {
      again, out := false, SKIPPED_RESULT;
      var agent := repo.db.tasks[i].agent;
      var maxRetries := Min(repo.db.tasks[i].maximumRetries, settings.maxRetries);
      ghost var t := repo.db.tasks[i];
      if Retryable(agent, end) && attempt < maxRetries {
        RetriedRow(t, was, end, attempt, env, profile);
      } else if !end.AskedApproval? {
        SettledRow(t, was, end, attempt, env, profile);
      }
      match end {
        case TimeLimit(retry) =>
          if agent == CONVERSATION {
            :- MoveTask(i, TaskStatus.Succeeded, false, env);
            return Fine, false, TaskResult(true, false, true);
          }
          if retry && attempt < maxRetries {
            :- MoveTask(i, TaskStatus.Ready, true, env);
            return Fine, true, out;
          }
          :- MoveTask(i, TaskStatus.TimedOut, false, env);
          return Fine, false, TaskResult(false, false, false);
        case LimitHit =>
          var moved := repo.TransitionTask(i, TaskStatus.Failed, false);
          assert moved.Fine?;
          return Raised(LimitExceeded), false, out;
        case Errored(retry, _) =>
          if agent == CONVERSATION {
            :- MoveTask(i, TaskStatus.Succeeded, false, env);
            return Fine, false, TaskResult(true, false, true);
          }
          if retry && attempt < maxRetries {
            :- MoveTask(i, TaskStatus.Ready, true, env);
            return Fine, true, out;
          }
          :- MoveTask(i, TaskStatus.Failed, false, env);
          return Fine, false, TaskResult(false, false, false);
        case Answered(speaks) =>
          :- MoveTask(i, TaskStatus.Succeeded, false, env);
          return Fine, false, TaskResult(true, false, speaks);
        case AskedApproval =>
          :- AddEvent(env);
          return Fine, false, TaskResult(true, true, false);
        case Refused(retry, speaks) =>
          if retry && attempt < maxRetries {
            :- MoveTask(i, TaskStatus.Ready, true, env);
            return Fine, true, out;
          }
          :- MoveTask(i, TaskStatus.Failed, false, env);
          return Fine, false, TaskResult(false, false, speaks);
      }
    }

    function Closed(t: TaskRow, end: Attempt): TaskRow
      requires t.attempts != []
    {
      t.(attempts := t.attempts[|t.attempts| - 1 := end])
    }

    lemma StartedRow(t: TaskRow, was: TaskRow, attempt: nat, env: Env, profile: Profile)
      requires InRetry(t, was, attempt, env, profile)
      ensures t.sequence == was.sequence && |t.attempts| == attempt
      ensures var started := MovedTask(t, TaskStatus.Running, false);
              && Attempted(t, was, env, profile)
              && Attempted(started, was, env, profile)
              && (forall end: Attempt ::
                    !end.Open? && Follows(env.dispatch(t.sequence, attempt), ProfileLimits(profile).3, end) ==>
                    Ended(Closed(started, end), was, end, attempt, env, profile))
    {
    }

    /** What was charged since `base` lies between the calls of the attempts that ended with a
        result and those of all attempts. */
    ghost predicate RowMetered(b: RunBudgets.RunBudget, env: Env, t: TaskRow, base: Calls)
      reads b`llmCallsUsed, b`toolCallsUsed
    {
      RowSpan(env, t).Charged(base, Used(b))
    }

    /** What ends the loop of a row by an exception. */
    ghost predicate RowCaused(fault: Fault, env: Env, m: Meter, at: nat, t: TaskRow, base: Calls, steps: nat) {
      || Jolted(fault, env, at)
      || (match fault
          case RunTimeout => Overdue(env, m, at)
          case LimitExceeded => RowExhausted(env, t, base, steps, settings)
          case Killed => Died(env, t)
          case _ => false)
    }

    /** One more attempt of the row, and what it charged. */
    lemma MeteredMore(b: RunBudgets.RunBudget, env: Env, t: TaskRow, more: TaskRow, base: Calls, used: Calls,
                      a: Attempt)
      requires more.sequence == t.sequence && more.attempts == t.attempts + [a]
      requires RowSpan(env, t).Charged(base, used)
      requires var counted := used.Plus(CallsOf(env.dispatch(t.sequence, |t.attempts|)));
               used.Within(Used(b)) && Used(b).Within(counted) && (Counts(a) ==> Used(b) == counted)
      ensures RowMetered(b, env, more, base)
    {
      AttemptsSpanMore(env, t.sequence, t.attempts, a);
    }

    lemma HitHere(env: Env, t: TaskRow, more: TaskRow, base: Calls, used: Calls)
      requires more.sequence == t.sequence && more.attempts == t.attempts + [LimitHit]
      requires RowSpan(env, t).Charged(base, used)
      requires var reply := env.dispatch(t.sequence, |t.attempts|);
               Overspends(reply, used.Plus(CallsOf(reply)), CallCap(settings))
      ensures Hit(env, more, base.Plus(RowSpan(env, more).most), CallCap(settings))
    {
      AttemptsSpanMore(env, t.sequence, t.attempts, LimitHit);
    }

    /** Start the task and try it once: the row ends with this attempt, closed unless the call
        was broken off. */
    method StartAndTry(i: nat, attempt: nat, env: Env, b: RunBudgets.RunBudget, profile: Profile,
                       ghost was: TaskRow, ghost base: Calls, ghost m: Meter)
      returns (s: Signal, end: Attempt)
      requires i < |repo.db.tasks| && b.WithinCaps() && Capped(b, env, m)
      requires InRetry(repo.db.tasks[i], was, attempt, env, profile)
      requires RowMetered(b, env, repo.db.tasks[i], base) && LateRow(env, m, repo.db.tasks[i], waits)
      modifies this`waits, repo`db, b`llmCallsUsed, b`toolCallsUsed
      ensures OnlyRow(old(repo.db), repo.db, i) && b.WithinCaps() && old(waits) < waits
      ensures |repo.db.tasks[i].attempts| == attempt + 1 && LateRow(env, m, repo.db.tasks[i], waits)
      ensures RowMetered(b, env, repo.db.tasks[i], base)
      ensures s.Raised? ==> s.fault in {Unexpected, Killed} && Attempted(repo.db.tasks[i], was, env, profile)
      ensures s.Raised? ==> Jolted(s.fault, env, waits) || (s.fault == Killed && Died(env, repo.db.tasks[i]))
      ensures s.Fine? ==> !end.Open? && Ended(repo.db.tasks[i], was, end, attempt, env, profile)
      ensures s.Fine? && end == LimitHit ==>
                Hit(env, repo.db.tasks[i], base.Plus(RowSpan(env, repo.db.tasks[i]).most), CallCap(settings))
      ensures Smoothly(env, m, waits) && m.start <= old(waits) ==>
                var reply := env.dispatch(was.sequence, attempt);
                && Used(b) == CallsAfter(reply, old(Used(b)), CallCap(settings))
                && repo.db.tasks[i].attempts == old(repo.db.tasks[i].attempts) + [if s.Raised? then Open else end]
                && if reply.Dies? then s == Raised(Killed)
                   else s.Fine? && end == AttemptEnd(reply, ProfileLimits(profile).3, old(Used(b)), CallCap(settings))
    {
      hide RowOk, AttemptsSpan, Overspends, Hit, AttemptEnd, CallsAfter, Overdue, Follows, Attempted, Ended, Jolted;
      end := LATE;
      ghost var row, used, start := repo.db.tasks[i], Used(b), waits;
      StartedRow(row, was, attempt, env, profile);
      s := MoveTask(i, TaskStatus.Running, false, env);
      MeteredMore(b, env, row, repo.db.tasks[i], base, used, Open);
      SmoothBefore(env, m, start, waits);
      if s.Raised? {
        return;
      }
      ghost var started, moved := repo.db.tasks[i], waits;
      s, end := TryAttempt(i, attempt, env, b, profile, m);
      SmoothBefore(env, m, moved, waits);
      if s.Raised? {
        MeteredMore(b, env, row, started, base, used, Open);
        return;
      }
      repo.CloseAttempt(i, end);
      assert repo.db.tasks[i] == Closed(started, end) && repo.db.tasks[i].attempts == row.attempts + [end];
      MeteredMore(b, env, row, repo.db.tasks[i], base, used, end);
      if end == LimitHit {
        HitHere(env, row, repo.db.tasks[i], base, used);
      }
    }

    /** The loop of a row went on or stopped as foretold. */
    predicate StopShows(stop: Stop, s: Signal, asks: bool) {
      match stop
      case Done => s.Fine? && !asks
      case Asks => s.Fine? && asks
      case Limit => s == Raised(LimitExceeded)
      case Dead => s == Raised(Killed)
    }

    /** An attempt without a disturbance: the reply and the counters decide how it ends and
        whether another one follows. */
    ghost predicate AttemptShows(env: Env, t: TaskRow, retryTimeouts: bool, k: nat, used: Calls, after: Calls,
                                 s: Signal, end: Attempt, again: bool, asks: bool) {
      var reply := env.dispatch(t.sequence, k);
      && after == CallsAfter(reply, used, CallCap(settings))
      && if reply.Dies? then s == Raised(Killed)
         else
           && end == AttemptEnd(reply, retryTimeouts, used, CallCap(settings))
           && (if end == LimitHit then s == Raised(LimitExceeded) else s.Fine?)
           && (s.Fine? ==> (again <==> Retryable(t.agent, end) && k < RetryCap(t, settings.maxRetries)))
           && (s.Fine? && !again ==> (asks <==> end == AskedApproval))
    }

    /** Start the task, try it once, and handle how the attempt ended. */
    method AttemptOnce(i: nat, attempt: nat, env: Env, b: RunBudgets.RunBudget, profile: Profile,
                       ghost was: TaskRow, ghost base: Calls, ghost m: Meter)
      returns (s: Signal, again: bool, out: TaskResult, ghost end: Attempt)
      requires i < |repo.db.tasks| && b.WithinCaps() && Capped(b, env, m) && m.start <= waits
      requires InRetry(repo.db.tasks[i], was, attempt, env, profile)
      requires RowMetered(b, env, repo.db.tasks[i], base) && LateRow(env, m, repo.db.tasks[i], waits)
      modifies this`waits, repo`db, b`llmCallsUsed, b`toolCallsUsed
      ensures OnlyRow(old(repo.db), repo.db, i) && b.WithinCaps() && old(waits) < waits
      ensures Attempted(repo.db.tasks[i], was, env, profile) && |repo.db.tasks[i].attempts| == attempt + 1
      ensures RowMetered(b, env, repo.db.tasks[i], base) && LateRow(env, m, repo.db.tasks[i], waits)
      ensures s.Raised? ==> s.fault in {LimitExceeded, Unexpected, Killed}
      ensures s.Raised? ==> RowCaused(s.fault, env, m, waits, repo.db.tasks[i], base, b.stepsUsed)
      ensures s.Fine? && again ==> InRetry(repo.db.tasks[i], was, attempt + 1, env, profile)
      ensures s.Fine? && !again ==> RetryDone(repo.db.tasks[i], out)
      ensures Smoothly(env, m, waits) ==>
                && repo.db.tasks[i].attempts
                   == old(repo.db.tasks[i].attempts) + [if s == Raised(Killed) then Open else end]
                && AttemptShows(env, was, ProfileLimits(profile).3, attempt, old(Used(b)), Used(b), s, end, again,
                                out.requiresApproval)
    {
      hide RowOk, RanRow, AttemptsSpan, LogFollows, Hit, AttemptEnd, Overdue, CallsAfter, Retryable, RetryDone;
      again, out := false, SKIPPED_RESULT;
      var ended;
      s, ended := StartAndTry(i, attempt, env, b, profile, was, base, m);
      end := ended;
      if s.Raised? {
        return;
      }
      ghost var row, tried := repo.db.tasks[i], waits;
      s, again, out := HandleEnd(i, ended, attempt, env, profile, was);
      SmoothBefore(env, m, tried, waits);
      if end == LimitHit {
        SameHit(env, row, repo.db.tasks[i], base.Plus(RowSpan(env, row).most), CallCap(settings));
      }
    }

    /** One round of the loop: charge a step, then the attempt. */
    method OneAttempt(i: nat, attempt: nat, env: Env, b: RunBudgets.RunBudget, profile: Profile,
                      ghost was: TaskRow, ghost base: Calls, ghost m: Meter)
      returns (s: Signal, again: bool, out: TaskResult)
      requires i < |repo.db.tasks| && b.WithinCaps() && Capped(b, env, m) && m.start <= waits
      requires InRetry(repo.db.tasks[i], was, attempt, env, profile)
      requires RowMetered(b, env, repo.db.tasks[i], base) && LateRow(env, m, repo.db.tasks[i], waits)
      modifies this`waits, repo`db, b`stepsUsed, b`llmCallsUsed, b`toolCallsUsed
      ensures OnlyRow(old(repo.db), repo.db, i)
      ensures Attempted(repo.db.tasks[i], was, env, profile)
      ensures b.WithinCaps() && old(waits) < waits
      ensures RowMetered(b, env, repo.db.tasks[i], base) && LateRow(env, m, repo.db.tasks[i], waits)
      ensures b.stepsUsed == old(b.stepsUsed) + |repo.db.tasks[i].attempts| - attempt
      ensures s.Raised? ==> s.fault in {RunTimeout, LimitExceeded, Unexpected, Killed}
      ensures s.Raised? ==> RowCaused(s.fault, env, m, waits, repo.db.tasks[i], base, b.stepsUsed)
      ensures s.Fine? && again ==>
                InRetry(repo.db.tasks[i], was, attempt + 1, env, profile) && b.stepsUsed == old(b.stepsUsed) + 1
      ensures s.Fine? && !again ==> RetryDone(repo.db.tasks[i], out)
      ensures Smoothly(env, m, waits) ==>
                var step := ForetellStep(env, was, ProfileLimits(profile).3, settings, attempt, old(TallyOf(b)));
                && repo.db.tasks[i].attempts == old(repo.db.tasks[i].attempts) + step.ends
                && TallyOf(b) == step.tally && (step.again <==> s.Fine? && again)
                && (!step.again ==> StopShows(step.stop, s, out.requiresApproval))
    {
      hide RowOk, RanRow, RowMetered, LogFollows, Hit, Overdue, ForetellStep, StopShows, RetryDone, AttemptShows;
      again, out := false, SKIPPED_RESULT;
      ghost var start, before, retryTimeouts := waits, TallyOf(b), ProfileLimits(profile).3;
      StartedRow(repo.db.tasks[i], was, attempt, env, profile);
      s := TakeStep(env, b, m);
      SmoothBefore(env, m, start, waits);
      if s.Raised? {
        NoStepLeft(env, was, retryTimeouts, attempt, before, s);
        return;
      }
      ghost var end;
      s, again, out, end := AttemptOnce(i, attempt, env, b, profile, was, base, m);
      if Smoothly(env, m, waits) {
        StepTaken(env, was, retryTimeouts, attempt, before, TallyOf(b), s, end, again, out.requiresApproval);
      }
    }

    lemma NoStepLeft(env: Env, t: TaskRow, retryTimeouts: bool, k: nat, tally: Tally, s: Signal)
      requires s == Raised(LimitExceeded) ==> tally.steps == settings.maxSteps
      ensures s == Raised(LimitExceeded) ==>
                var step := ForetellStep(env, t, retryTimeouts, settings, k, tally);
                step == Step([], tally, false, Limit) && StopShows(Limit, s, false)
    {
    }

    /** One round without a disturbance is the foretold step. */
    lemma StepTaken(env: Env, t: TaskRow, retryTimeouts: bool, k: nat, before: Tally, after: Tally, s: Signal,
                    end: Attempt, again: bool, asks: bool)
      requires before.steps < settings.maxSteps && after.steps == before.steps + 1
      requires AttemptShows(env, t, retryTimeouts, k, before.calls, after.calls, s, end, again, asks)
      ensures var step := ForetellStep(env, t, retryTimeouts, settings, k, before);
              && step.ends == [if s == Raised(Killed) then Open else end] && step.tally == after
              && (step.again <==> s.Fine? && again) && (!step.again ==> StopShows(step.stop, s, asks))
    {
      hide AttemptEnd, Retryable;
    }

    /** The bounded retry loop of _run_task_with_retries, seen from the row it works on. */
    method RetryLoop(i: nat, env: Env, b: RunBudgets.RunBudget, profile: Profile, ghost m: Meter)
      returns (s: Signal, out: TaskResult)
      requires i < |repo.db.tasks| && b.WithinCaps() && Capped(b, env, m) && m.start <= waits
      requires repo.db.tasks[i].status == TaskStatus.Ready && repo.db.tasks[i].attempts == []
      requires repo.db.tasks[i].retryCount == 0
      modifies this`waits, repo`db, b`stepsUsed, b`llmCallsUsed, b`toolCallsUsed
      ensures OnlyRow(old(repo.db), repo.db, i)
      ensures Attempted(repo.db.tasks[i], old(repo.db.tasks[i]), env, profile)
      ensures b.WithinCaps() && old(waits) <= waits
      ensures RowMetered(b, env, repo.db.tasks[i], old(Used(b))) && LateRow(env, m, repo.db.tasks[i], waits)
      ensures b.stepsUsed == old(b.stepsUsed) + |repo.db.tasks[i].attempts|
      ensures s.Raised? ==> s.fault in {RunTimeout, LimitExceeded, Unexpected, Killed}
      ensures s.Raised? ==> RowCaused(s.fault, env, m, waits, repo.db.tasks[i], old(Used(b)), b.stepsUsed)
      ensures s.Fine? ==> RetryDone(repo.db.tasks[i], out)
      ensures Smoothly(env, m, waits) ==>
                var run := ForetellTask(env, old(repo.db.tasks[i]), ProfileLimits(profile).3, settings, 0,
                                        old(TallyOf(b)));
                && repo.db.tasks[i].attempts == run.attempts && TallyOf(b) == run.tally
                && StopShows(run.stop, s, out.requiresApproval)
    {
      hide RowCaused, ForetellStep, RetryDone, Attempted, AttemptsSpan, Overdue, StopShows;
      ghost var was, base, tally := repo.db.tasks[i], Used(b), TallyOf(b);
      ghost var retryTimeouts := ProfileLimits(profile).3;
      var attempt: nat, again := 0, true;
      s, out := Fine, SKIPPED_RESULT;
      Untouched(env, was);
      FreshRow(was, env, profile);
      while s.Fine? && again
        invariant OnlyRow(old(repo.db), repo.db, i)
        invariant s.Fine? && again ==>
                    InRetry(repo.db.tasks[i], was, attempt, env, profile) && b.stepsUsed == old(b.stepsUsed) + attempt
        invariant Attempted(repo.db.tasks[i], was, env, profile)
        invariant b.WithinCaps() && old(waits) <= waits
        invariant RowMetered(b, env, repo.db.tasks[i], base) && LateRow(env, m, repo.db.tasks[i], waits)
        invariant b.stepsUsed == old(b.stepsUsed) + |repo.db.tasks[i].attempts|
        invariant s.Raised? ==> s.fault in {RunTimeout, LimitExceeded, Unexpected, Killed}
        invariant s.Raised? ==> RowCaused(s.fault, env, m, waits, repo.db.tasks[i], base, b.stepsUsed)
        invariant s.Fine? && !again ==> RetryDone(repo.db.tasks[i], out)
        invariant Smoothly(env, m, waits) && s.Fine? && again ==>
                    ForetellTask(env, was, retryTimeouts, settings, 0, tally)
                    == Prefixed(repo.db.tasks[i].attempts,
                                ForetellTask(env, was, retryTimeouts, settings, attempt, TallyOf(b)))
        invariant Smoothly(env, m, waits) && !(s.Fine? && again) ==>
                    var run := ForetellTask(env, was, retryTimeouts, settings, 0, tally);
                    && repo.db.tasks[i].attempts == run.attempts && TallyOf(b) == run.tally
                    && StopShows(run.stop, s, out.requiresApproval)
        decreases RetryCap(was, settings.maxRetries) + 1 - attempt, again
      {
        ghost var logged, before, at := repo.db.tasks[i].attempts, TallyOf(b), waits;
        s, again, out := OneAttempt(i, attempt, env, b, profile, was, base, m);
        SmoothBefore(env, m, at, waits);
        StepPrefixed(logged, env, was, retryTimeouts, attempt, before);
        attempt := attempt + 1;
      }
    }

    function Prefixed(attempts: seq<Attempt>, run: TaskRun): TaskRun {
      run.(attempts := attempts + run.attempts)
    }

    lemma StepPrefixed(attempts: seq<Attempt>, env: Env, t: TaskRow, retryTimeouts: bool, k: nat, tally: Tally)
      requires k <= RetryCap(t, settings.maxRetries)
      ensures var step := ForetellStep(env, t, retryTimeouts, settings, k, tally);
              && (step.again ==> k < RetryCap(t, settings.maxRetries))
              && Prefixed(attempts, ForetellTask(env, t, retryTimeouts, settings, k, tally))
                 == if step.again
                    then Prefixed(attempts + step.ends,
                                  ForetellTask(env, t, retryTimeouts, settings, k + 1, step.tally))
                    else TaskRun(attempts + step.ends, step.tally, step.stop)
    {
      hide ForetellStep;
      SameStep(env, t, t, retryTimeouts, k, tally);
      var step := ForetellStep(env, t, retryTimeouts, settings, k, tally);
      if step.again {
        var rest := ForetellTask(env, t, retryTimeouts, settings, k + 1, step.tally);
        assert attempts + (step.ends + rest.attempts) == (attempts + step.ends) + rest.attempts;
      }
    }

    lemma FreshRow(t: TaskRow, env: Env, profile: Profile)
      requires t.status == TaskStatus.Ready && t.attempts == [] && t.retryCount == 0
      ensures Attempted(t, t, env, profile) && InRetry(t, t, 0, env, profile)
    {
    }

    /** The budget carries this run's caps and counts its starts. */
    ghost predicate Charged(b: RunBudgets.RunBudget, env: Env, m: Meter)
      reads repo`db, b
    {
      && Capped(b, env, m) && repo.db.run.maximumSteps == settings.maxSteps
      && b.WithinCaps() && b.stepsUsed == Starts(repo.db.tasks)
    }

    /** The rows are those of the plan, the calls charged are those of their attempts, and a
        deadline error stands in them only if the run is late. */
    ghost predicate Tracked(b: RunBudgets.RunBudget, env: Env, m: Meter)
      reads this`waits, repo`db, b`llmCallsUsed, b`toolCallsUsed
    {
      && m.start <= waits && SameRows(repo.db.tasks, m.planned)
      && RowsSpan(env, repo.db.tasks, m.from).Charged(m.calls, Used(b))
      && LateRows(env, m, repo.db.tasks, waits)
    }

    /** Between two tasks of a running run: everything before `i` is settled, everything
        from `i` on untouched. */
    ghost predicate AtTask(db: Db, i: nat) {
      && Base(db, settings.maxRetries) && StampsOk(db.run) && NoneCancelled(db.tasks)
      && db.run.status == RunStatus.Running
      && i <= |db.tasks|
      && (forall j :: 0 <= j < i ==> TerminalTask(db.tasks[j].status))
      && (forall j :: i <= j < |db.tasks| ==> db.tasks[j].status == TaskStatus.Pending)
      && db.handoffs != []
    }

    /** Tasks other than i, the run row and the approvals are as they were. */
    predicate OnlyTask(before: Db, after: Db, i: nat) {
      && i < |before.tasks| == |after.tasks|
      && after == before.(tasks := before.tasks[i := after.tasks[i]], handoffs := after.handoffs)
    }

    lemma MarkedRow(t: TaskRow, marked: TaskRow)
      requires RowOk(t, settings.maxRetries) && marked == t.(handoffMark := marked.handoffMark)
      ensures RowOk(marked, settings.maxRetries)
    {
    }

    /** The baton goes to the task's agent unless it already holds it. */
    method HandOver(i: nat, lastAgent: string, env: Env) returns (s: Signal, holder: string)
      requires i < |repo.db.tasks| && Base(repo.db, settings.maxRetries) && Shape(repo.db.tasks, i)
      requires repo.db.tasks[i].status == TaskStatus.Ready && repo.db.tasks[i].attempts == []
      requires lastAgent == Holder(repo.db.handoffs) && repo.db.handoffs != []
      modifies this`waits, repo`db
      ensures OnlyTask(old(repo.db), repo.db, i)
      ensures Base(repo.db, settings.maxRetries) && Shape(repo.db.tasks, i)
      ensures repo.db.tasks[i] == old(repo.db.tasks[i]).(handoffMark := repo.db.tasks[i].handoffMark)
      ensures repo.db.handoffs == Held(old(repo.db).handoffs, repo.db.tasks[i].agent)
      ensures old(repo.db).handoffs <= repo.db.handoffs && repo.db.handoffs != [] && old(waits) <= waits
      ensures s.Raised? ==> s.fault in {Unexpected, Killed} && Jolted(s.fault, env, waits) && old(waits) < waits
      ensures s.Fine? ==>
                && holder == Holder(repo.db.handoffs) == repo.db.tasks[i].agent
                && repo.db.tasks[i].handoffMark == |repo.db.handoffs|
    {
      hide Base, RowOk, Shape, ChainOk;
      holder := lastAgent;
      var agent := repo.db.tasks[i].agent;
      RowFacts(repo.db, i, settings.maxRetries);
      if agent != lastAgent {
        BaseHandoff(repo.db, agent, settings.maxRetries);
        repo.AddHandoff(lastAgent, agent);
        :- AddEvent(env);
        holder := agent;
      }
      ghost var before := repo.db;
      repo.MarkTask(i);
      MarkedRow(before.tasks[i], repo.db.tasks[i]);
      BaseUpdate(before, i, repo.db.tasks[i], settings.maxRetries);
      return Fine, holder;
    }

    lemma ReadyBase(db: Db, i: nat)
      requires i < |db.tasks| && AtTask(db, i) && DepsSucceeded(db.tasks, i)
      ensures db.tasks[i].status == TaskStatus.Pending && db.tasks[i].attempts == [] && db.tasks[i].retryCount == 0
      ensures var t := MovedTask(db.tasks[i], TaskStatus.Ready, false);
              && Base(WithRow(db, i, t), settings.maxRetries) && Shape(db.tasks[i := t], i)
              && Starts(db.tasks[i := t]) == Starts(db.tasks) && DepsSucceeded(db.tasks[i := t], i)
    {
      var t := MovedTask(db.tasks[i], TaskStatus.Ready, false);
      assert RowOk(db.tasks[i], settings.maxRetries);
      BaseUpdate(db, i, t, settings.maxRetries);
      StartsUpdate(db.tasks, i, t);
      DepsUpdate(db.tasks, i, t, i);
    }

    /** Make the front task ready, hand over, and charge its envelope. */
    method Prepare(i: nat, lastAgent: string, env: Env, b: RunBudgets.RunBudget, ghost m: Meter)
      returns (s: Signal, holder: string)
      requires i < |repo.db.tasks| && AtTask(repo.db, i) && Charged(b, env, m)
      requires DepsSucceeded(repo.db.tasks, i)
      requires lastAgent == Holder(repo.db.handoffs)
      modifies this`waits, repo`db, b`contextCharacters
      ensures OnlyTask(old(repo.db), repo.db, i)
      ensures var t := repo.db.tasks[i];
              t == old(repo.db.tasks[i]).(status := TaskStatus.Ready, handoffMark := t.handoffMark)
      ensures repo.db.tasks[i].attempts == [] && repo.db.tasks[i].retryCount == 0
      ensures Base(repo.db, settings.maxRetries) && Shape(repo.db.tasks, i)
      ensures DepsSucceeded(repo.db.tasks, i)
      ensures Starts(repo.db.tasks) == old(Starts(repo.db.tasks))
      ensures old(repo.db).handoffs <= repo.db.handoffs && repo.db.handoffs != [] && old(waits) <= waits
      ensures s.Raised? ==> s.fault in {Unexpected, Killed} && Jolted(s.fault, env, waits) && old(waits) < waits
      ensures s.Fine? ==>
                && repo.db.handoffs == Held(old(repo.db).handoffs, repo.db.tasks[i].agent)
                && holder == Holder(repo.db.handoffs) == repo.db.tasks[i].agent
                && repo.db.tasks[i].handoffMark == |repo.db.handoffs|
    {
      hide Base, RowOk, Shape, DepsSucceeded, Starts, Jolted;
      holder := lastAgent;
      ReadyBase(repo.db, i);
      :- MoveTask(i, TaskStatus.Ready, false, env);
      ghost var ready := repo.db;
      OrderedOf(ready);
      s, holder := HandOver(i, lastAgent, env);
      StartsUpdate(ready.tasks, i, repo.db.tasks[i]);
      DepsUpdate(ready.tasks, i, repo.db.tasks[i], i);
      if s.Fine? {
        ObserveEnvelope(env, b);
      }
    }

    lemma AfterTask(before: Db, after: Db, i: nat)
      requires Base(before, settings.maxRetries) && Shape(before.tasks, i) && OnlyRow(before, after, i)
      requires before.tasks[i].status == TaskStatus.Ready && SamePlan(before.tasks[i], after.tasks[i])
      requires before.handoffs != [] && before.tasks[i].handoffMark == |before.handoffs|
      requires Holder(before.handoffs) == before.tasks[i].agent
      requires after.tasks[i].handoffMark == before.tasks[i].handoffMark
      requires DepsSucceeded(before.tasks, i) && RowOk(after.tasks[i], settings.maxRetries)
      requires after.tasks[i].status !in {TaskStatus.Pending, TaskStatus.Skipped, TaskStatus.Cancelled}
      requires Asked(after.tasks[i]) ==> after.tasks[i].status == TaskStatus.Running
      ensures Base(after, settings.maxRetries) && Shape(after.tasks, i)
      ensures Starts(after.tasks) == Starts(before.tasks) - |before.tasks[i].attempts| + |after.tasks[i].attempts|
    {
      assert MarkOk(after.tasks[i], before.handoffs);
      BaseUpdate(before, i, after.tasks[i], settings.maxRetries);
      StartsUpdate(before.tasks, i, after.tasks[i]);
    }

    /** Work on a task that was never started keeps the budget in step with the rows. */
    lemma TrackedRow(b: RunBudgets.RunBudget, env: Env, m: Meter, before: Db, i: nat, base: Calls, at: nat)
      requires i < |before.tasks| == |repo.db.tasks| && repo.db.tasks == before.tasks[i := repo.db.tasks[i]]
      requires m.from <= i && before.tasks[i].attempts == [] && SamePlan(before.tasks[i], repo.db.tasks[i])
      requires SameRows(before.tasks, m.planned) && m.start <= at <= waits
      requires RowsSpan(env, before.tasks, m.from).Charged(m.calls, base) && LateRows(env, m, before.tasks, at)
      requires RowMetered(b, env, repo.db.tasks[i], base) && LateRow(env, m, repo.db.tasks[i], waits)
      ensures Tracked(b, env, m)
    {
      hide RowSpan, LateRow;
      RowsSpanUpdate(env, before.tasks, m.from, i, repo.db.tasks[i]);
      LateGrows(env, m, before.tasks, at, waits);
    }

    /** A row without attempts charges nothing and is not late. */
    lemma TrackedFresh(b: RunBudgets.RunBudget, env: Env, m: Meter, t: TaskRow)
      requires t.attempts == []
      ensures RowMetered(b, env, t, Used(b)) && LateRow(env, m, t, waits)
    {
      Untouched(env, t);
    }

    lemma SameStep(env: Env, a: TaskRow, b: TaskRow, retryTimeouts: bool, k: nat, tally: Tally)
      requires SamePlan(a, b) && k <= RetryCap(a, settings.maxRetries)
      ensures ForetellStep(env, a, retryTimeouts, settings, k, tally)
              == ForetellStep(env, b, retryTimeouts, settings, k, tally)
      ensures ForetellStep(env, a, retryTimeouts, settings, k, tally).again ==> k < RetryCap(a, settings.maxRetries)
      ensures RetryCap(a, settings.maxRetries) == RetryCap(b, settings.maxRetries)
    {
      hide AttemptEnd, CallsAfter;
    }

    /** Two rows of the same task have the same future. */
    lemma {:induction false} SameFuture(env: Env, a: TaskRow, b: TaskRow, retryTimeouts: bool, k: nat, tally: Tally)
      requires SamePlan(a, b) && k <= RetryCap(a, settings.maxRetries)
      ensures ForetellTask(env, a, retryTimeouts, settings, k, tally)
              == ForetellTask(env, b, retryTimeouts, settings, k, tally)
      decreases RetryCap(a, settings.maxRetries) - k
    {
      hide ForetellStep, SamePlan;
      var step := ForetellStep(env, a, retryTimeouts, settings, k, tally);
      SameStep(env, a, b, retryTimeouts, k, tally);
      if step.again {
        SameFuture(env, a, b, retryTimeouts, k + 1, step.tally);
      }
    }

    /** The attempts of a task that is ready and holds the baton. */
    method RunAttempts(i: nat, env: Env, b: RunBudgets.RunBudget, profile: Profile, ghost m: Meter)
      returns (s: Signal, out: TaskResult)
      requires i < |repo.db.tasks| && Base(repo.db, settings.maxRetries) && Shape(repo.db.tasks, i)
      requires repo.db.tasks[i].status == TaskStatus.Ready && repo.db.tasks[i].attempts == []
      requires repo.db.tasks[i].retryCount == 0 && DepsSucceeded(repo.db.tasks, i)
      requires repo.db.handoffs != [] && repo.db.tasks[i].handoffMark == |repo.db.handoffs|
      requires Holder(repo.db.handoffs) == repo.db.tasks[i].agent
      requires m.from <= i && Charged(b, env, m) && Tracked(b, env, m)
      modifies this`waits, repo`db, b`stepsUsed, b`llmCallsUsed, b`toolCallsUsed
      ensures OnlyRow(old(repo.db), repo.db, i)
      ensures Attempted(repo.db.tasks[i], old(repo.db.tasks[i]), env, profile)
      ensures Base(repo.db, settings.maxRetries) && Shape(repo.db.tasks, i)
      ensures Charged(b, env, m) && Tracked(b, env, m) && old(waits) <= waits
      ensures s.Raised? ==> s.fault in {RunTimeout, LimitExceeded, Unexpected, Killed}
      ensures s.Raised? ==> Caused(s.fault, env, m, waits, repo.db.tasks, settings, false)
      ensures s.Fine? ==> RetryDone(repo.db.tasks[i], out)
      ensures Smoothly(env, m, waits) ==>
                var run := ForetellTask(env, old(repo.db.tasks[i]), ProfileLimits(profile).3, settings, 0,
                                        old(TallyOf(b)));
                && repo.db.tasks[i].attempts == run.attempts && TallyOf(b) == run.tally
                && StopShows(run.stop, s, out.requiresApproval)
    {
      hide Base, RowOk, RanRow, RetryDone, Shape, RowMetered, RowsSpan, RowExhausted, Exhausted, Overdue, Jolted,
        LogFollows, LateRow, LateRows, Died, Smoothly, ForetellTask, StopShows;
      ghost var ready, base, at := repo.db, Used(b), waits;
      assert SamePlan(ready.tasks[i], m.planned[i]);
      s, out := RetryLoop(i, env, b, profile, m);
      AfterTask(ready, repo.db, i);
      TrackedRow(b, env, m, ready, i, base, at);
      if s.Raised? {
        RowCause(s.fault, env, m, ready.tasks, i, base, b.stepsUsed);
      }
    }

    /** What ends the loop of a row shows in the rows of the run. */
    lemma RowCause(fault: Fault, env: Env, m: Meter, before: seq<TaskRow>, i: nat, base: Calls, steps: nat)
      requires m.from <= i < |before| && before[i].attempts == [] && |repo.db.tasks| == |before|
      requires repo.db.tasks == before[i := repo.db.tasks[i]] && repo.db.tasks[i].sequence == before[i].sequence
      requires base.Within(m.calls.Plus(RowsSpan(env, before, m.from).most)) && steps == Starts(repo.db.tasks)
      requires RowCaused(fault, env, m, waits, repo.db.tasks[i], base, steps)
      ensures Caused(fault, env, m, waits, repo.db.tasks, settings, false)
    {
      hide RowsSpan, RowExhausted, Exhausted, Overdue, Jolted, Died;
      if fault == LimitExceeded && RowExhausted(env, repo.db.tasks[i], base, steps, settings) {
        RowExhausts(env, m, before, i, repo.db.tasks[i], base, settings);
      }
    }

    /** One task from ready to its end: hand over, charge its envelope, run its attempts. */
    method RunTask(i: nat, lastAgent: string, env: Env, b: RunBudgets.RunBudget, profile: Profile, ghost m: Meter)
      returns (s: Signal, out: TaskResult, holder: string)
      requires i < |repo.db.tasks| && AtTask(repo.db, i) && Charged(b, env, m)
      requires DepsSucceeded(repo.db.tasks, i) && repo.db.tasks[i].attempts == []
      requires lastAgent == Holder(repo.db.handoffs)
      requires m.from <= i && Tracked(b, env, m)
      modifies this`waits, repo`db, b`stepsUsed, b`llmCallsUsed, b`toolCallsUsed, b`contextCharacters
      ensures OnlyTask(old(repo.db), repo.db, i) && old(repo.db).handoffs <= repo.db.handoffs
      ensures SamePlan(old(repo.db.tasks[i]), repo.db.tasks[i])
      ensures Base(repo.db, settings.maxRetries) && Shape(repo.db.tasks, i) && NoneCancelled(repo.db.tasks)
      ensures Charged(b, env, m) && Tracked(b, env, m) && repo.db.handoffs != [] && old(waits) <= waits
      ensures LogFollows(repo.db.tasks[i], env, ProfileLimits(profile).3)
      ensures s.Raised? ==> s.fault in {RunTimeout, LimitExceeded, Unexpected, Killed}
      ensures s.Raised? ==> Caused(s.fault, env, m, waits, repo.db.tasks, settings, false)
      ensures s.Fine? ==> RetryDone(repo.db.tasks[i], out)
      ensures s.Fine? ==> holder == Holder(repo.db.handoffs) == repo.db.tasks[i].agent
      ensures Smoothly(env, m, waits) ==>
                TaskForetold(old(repo.db), i, env, profile, old(TallyOf(b)), TallyOf(b), s, out.requiresApproval)
    {
      hide Base, RowOk, RanRow, RetryDone, RowsSpan, Exhausted, Smoothly, Jolted, LateRow, LateRows, RowMetered,
        ForetellTask, StopShows, SomeoneDied, TaskForetold, Held, Caused, Shape;
      out := SKIPPED_RESULT;
      ghost var before, at, was := repo.db, waits, TallyOf(b);
      s, holder := Prepare(i, lastAgent, env, b, m);
      TrackedFresh(b, env, m, repo.db.tasks[i]);
      TrackedRow(b, env, m, before, i, Used(b), at);
      if s.Raised? {
        JoltedCause(s.fault, env, m);
        return;
      }
      ghost var ready := repo.db.tasks[i];
      s, out := RunAttempts(i, env, b, profile, m);
      if Smoothly(env, m, waits) {
        RanAsForetold(before, ready, i, env, profile, was, TallyOf(b), s, out.requiresApproval);
      }
    }

    /** A jolt is a cause by itself, and no smooth run. */
    lemma JoltedCause(fault: Fault, env: Env, m: Meter)
      requires Jolted(fault, env, waits) && fault in {Unexpected, Killed} && m.start < waits
      ensures Caused(fault, env, m, waits, repo.db.tasks, settings, false) && !Smoothly(env, m, waits)
    {
      hide Overdue;
    }

    lemma RanAsForetold(before: Db, ready: TaskRow, i: nat, env: Env, profile: Profile, was: Tally, tally: Tally,
                        s: Signal, asks: bool)
      requires i < |before.tasks| == |repo.db.tasks| && SamePlan(before.tasks[i], ready)
      requires repo.db.tasks == before.tasks[i := repo.db.tasks[i]]
      requires repo.db.handoffs == Held(before.handoffs, ready.agent) && ready.handoffMark == |repo.db.handoffs|
      requires repo.db.tasks[i]
               == RanRow(ready, repo.db.tasks[i].attempts, ready.handoffMark, settings.maxRetries)
      requires var run := ForetellTask(env, ready, ProfileLimits(profile).3, settings, 0, was);
               repo.db.tasks[i].attempts == run.attempts && tally == run.tally && StopShows(run.stop, s, asks)
      ensures TaskForetold(before, i, env, profile, was, tally, s, asks)
    {
      hide ForetellTask, Held;
      SameFuture(env, before.tasks[i], ready, ProfileLimits(profile).3, 0, was);
    }

    /** The task ran as foretold. */
    ghost predicate TaskForetold(before: Db, i: nat, env: Env, profile: Profile, was: Tally, tally: Tally, s: Signal,
                                 asks: bool)
      reads repo`db
      requires i < |before.tasks|
    {
      var t := before.tasks[i];
      var run := ForetellTask(env, t, ProfileLimits(profile).3, settings, 0, was);
      var held := Held(before.handoffs, t.agent);
      && tally == run.tally && repo.db.handoffs == held
      && repo.db.tasks == before.tasks[i := RanRow(t, run.attempts, |held|, settings.maxRetries)]
      && StopShows(run.stop, s, asks)
    }

    lemma NextTask(db: Db, i: nat)
      requires Base(db, settings.maxRetries) && i < |db.tasks| && Shape(db.tasks, i)
      requires StampsOk(db.run) && NoneCancelled(db.tasks) && db.run.status == RunStatus.Running
      requires TerminalTask(db.tasks[i].status) && db.handoffs != []
      ensures AtTask(db, i + 1)
    {
    }

    /** The results the loop remembers: one for every task before `i`, in step with its row. */
    predicate Remembered(tasks: seq<TaskRow>, i: nat, results: map<int, TaskResult>) {
      && i <= |tasks|
      && (forall j :: 0 <= j < i ==>
            && tasks[j].sequence in results
            && !results[tasks[j].sequence].requiresApproval
            && (results[tasks[j].sequence].success <==> tasks[j].status == TaskStatus.Succeeded)
            && (results[tasks[j].sequence].speaks <==> Spoke(tasks[j])))
      && (forall q :: q in results ==> exists j :: 0 <= j < i && tasks[j].sequence == q)
    }

    /** The dependency check of the main loop: it fails exactly when some dependency is not
        a succeeded task. */
    method DependencyFailed(i: nat, results: map<int, TaskResult>) returns (failed: bool)
      requires i < |repo.db.tasks| && AtTask(repo.db, i) && Remembered(repo.db.tasks, i, results)
      ensures failed <==> !DepsSucceeded(repo.db.tasks, i)
    {
      hide Base;
      assert Ordered(repo.db.tasks) by { OrderedOf(repo.db); }
      var tasks := repo.db.tasks;
      var deps := tasks[i].dependencies;
      var k := 0;
      while k < |deps|
        invariant k <= |deps|
        invariant forall d :: d in deps[..k] ==> SucceededSeq(tasks, d)
      {
        var d := deps[k];
        var at := IndexOf(tasks, d);
        if at.None? || d !in results {
          assert !SucceededSeq(tasks, d);
          return true;
        }
        SucceededAt(tasks, at.value);
        var status, result := tasks[at.value].status, results[d];
        if status in {TaskStatus.Failed, TaskStatus.Skipped, TaskStatus.Cancelled, TaskStatus.TimedOut} {
          return true;
        }
        if !result.success && status != TaskStatus.AwaitingApproval && !result.requiresApproval {
          return true;
        }
        k := k + 1;
      }
      assert deps[..|deps|] == deps;
      return false;
    }

    lemma OrderedOf(db: Db)
      requires Base(db, settings.maxRetries)
      ensures Ordered(db.tasks)
    {
    }

    /** A task none of whose work starts: a dependency did not succeed. */
    method SkipTask(i: nat, env: Env, b: RunBudgets.RunBudget, ghost m: Meter) returns (s: Signal)
      requires i < |repo.db.tasks| && AtTask(repo.db, i) && Charged(b, env, m)
      requires !DepsSucceeded(repo.db.tasks, i)
      requires m.from <= i && Tracked(b, env, m)
      modifies this`waits, repo`db
      ensures repo.db == WithRow(old(repo.db), i, MovedTask(old(repo.db.tasks[i]), TaskStatus.Skipped, false))
      ensures AtTask(repo.db, i + 1) && Charged(b, env, m) && Tracked(b, env, m) && old(waits) < waits
      ensures s.Raised? ==> s.fault in {Unexpected, Killed} && Jolted(s.fault, env, waits)
    {
      hide Base, RowsSpan, LateRow, LateRows, RowMetered;
      ghost var before, at := repo.db, waits;
      SkippedBase(before, i);
      s := MoveTask(i, TaskStatus.Skipped, false, env);
      TrackedFresh(b, env, m, repo.db.tasks[i]);
      TrackedRow(b, env, m, before, i, Used(b), at);
      NextTask(repo.db, i);
    }

    lemma SkippedBase(db: Db, i: nat)
      requires i < |db.tasks| && AtTask(db, i) && !DepsSucceeded(db.tasks, i)
      ensures var t := MovedTask(db.tasks[i], TaskStatus.Skipped, false);
              && Base(WithRow(db, i, t), settings.maxRetries) && Shape(db.tasks[i := t], i)
              && Starts(db.tasks[i := t]) == Starts(db.tasks) && db.tasks[i].attempts == []
    {
      var t := MovedTask(db.tasks[i], TaskStatus.Skipped, false);
      assert RowOk(db.tasks[i], settings.maxRetries);
      BaseUpdate(db, i, t, settings.maxRetries);
      StartsUpdate(db.tasks, i, t);
    }

    /** No approval yet, and persisted counters within their caps. */
    predicate Quiet(db: Db) {
      && db.approvals == [] && db.actions == 0
      && db.run.maximumSteps == settings.maxSteps
      && db.run.stepsUsed <= settings.maxSteps
      && db.run.llmCallsUsed <= settings.maxLlmCalls
      && db.run.toolCallsUsed <= settings.maxToolCalls
    }

    /** Any state of a running run that may be committed or abandoned. */
    ghost predicate Underway(db: Db) {
      && Base(db, settings.maxRetries) && StampsOk(db.run) && Quiet(db)
      && db.run.status == RunStatus.Running && Starts(db.tasks) <= settings.maxSteps
    }

    lemma UnderwayInv(db: Db)
      requires Underway(db)
      ensures Inv(db, settings)
    {
    }

    lemma RememberMore(before: seq<TaskRow>, after: seq<TaskRow>, i: nat, results: map<int, TaskResult>, r: TaskResult)
      requires Ordered(before) && i < |before| && Remembered(before, i, results)
      requires |after| == |before| && after == before[i := after[i]] && after[i].sequence == before[i].sequence
      requires !r.requiresApproval && (r.success <==> after[i].status == TaskStatus.Succeeded)
      requires r.speaks <==> Spoke(after[i])
      ensures Remembered(after, i + 1, results[before[i].sequence := r])
    {
      var more := results[before[i].sequence := r];
      forall q | q in more
        ensures exists j :: 0 <= j < i + 1 && after[j].sequence == q
      {
        if q == before[i].sequence {
          assert after[i].sequence == q;
        } else {
          var j :| 0 <= j < i && before[j].sequence == q;
          assert after[j].sequence == q;
        }
      }
    }

    method SaveCounters(b: RunBudgets.RunBudget)
      modifies repo`db
      ensures repo.db == old(repo.db).(run := old(repo.db.run).(stepsUsed := b.stepsUsed,
                           llmCallsUsed := b.llmCallsUsed, toolCallsUsed := b.toolCallsUsed))
    {
      var run := repo.db.run.(stepsUsed := b.stepsUsed, llmCallsUsed := b.llmCallsUsed,
                              toolCallsUsed := b.toolCallsUsed);
      repo.db := repo.db.(run := run);
    }

    /** The durable pause: approval, paused task, paused run, counters. */
    method PauseForApproval(i: nat, env: Env, b: RunBudgets.RunBudget, ghost m: Meter) returns (s: Signal)
      requires i < |repo.db.tasks| && Underway(repo.db) && Charged(b, env, m)
      requires Shape(repo.db.tasks, i) && NoneCancelled(repo.db.tasks)
      requires repo.db.tasks[i].status == TaskStatus.Running && repo.db.tasks[i].attempts != []
      requires Last(repo.db.tasks[i].attempts).AskedApproval?
      requires Holder(repo.db.handoffs) == repo.db.tasks[i].agent
      modifies this`waits, repo`db
      ensures waits == old(waits) + 1
      ensures s.Raised? ==> s.fault in {Unexpected, Killed} && Jolted(s.fault, env, waits)
      ensures s.Fine? ==> Inv(repo.db, settings) && repo.db.run.status == RunStatus.AwaitingApproval
      ensures repo.db.actions == old(repo.db.actions)
      ensures repo.db.approvals == [Approval(i, ApprovalStatus.Pending)]
      ensures repo.db.tasks == old(repo.db.tasks)[i := old(repo.db.tasks[i]).(status := TaskStatus.AwaitingApproval)]
      ensures repo.db.handoffs == old(repo.db.handoffs)
      ensures s.Fine? ==> Counted(repo.db.run, TallyOf(b))
    {
      ghost var before := repo.db;
      repo.CreateApproval(i);
      var moved := repo.TransitionTask(i, TaskStatus.AwaitingApproval, false);
      assert moved.Fine?;
      moved := repo.TransitionRun(RunStatus.AwaitingApproval);
      assert moved.Fine?;
      :- AddEvent(env);
      SaveCounters(b);
      PausedInv(before, repo.db, i);
      return Fine;
    }

    lemma PausedKeeps(before: Db, at: nat, i: nat, b: RunBudgets.RunBudget, env: Env, profile: Profile, m: Meter)
      requires i < |before.tasks| && before.tasks[i].status == TaskStatus.Running
      requires repo.db.tasks == before.tasks[i := before.tasks[i].(status := TaskStatus.AwaitingApproval)]
      requires repo.db.handoffs == before.handoffs && before.approvals == [] && before.actions == repo.db.actions
      requires Logged(before.tasks, env, profile) && SameRows(before.tasks, m.planned) && m.start <= at <= waits
      requires RowsSpan(env, before.tasks, m.from).Charged(m.calls, Used(b)) && LateRows(env, m, before.tasks, at)
      requires Bounded(before.tasks, m.planned, settings.maxRetries)
      ensures Logged(repo.db.tasks, env, profile) && Tracked(b, env, m) && Extends(before, repo.db)
      ensures Bounded(repo.db.tasks, m.planned, settings.maxRetries)
    {
      hide RowsSpan, Overdue, Follows;
      assert LogFollows(before.tasks[i], env, ProfileLimits(profile).3);
      RowsSpanSame(env, before.tasks, repo.db.tasks, m.from);
      LateGrows(env, m, before.tasks, at, waits);
      forall j | m.from <= j < |before.tasks|
        ensures LateRow(env, m, repo.db.tasks[j], waits)
      {
        assert LateRow(env, m, before.tasks[j], waits);
      }
    }

    lemma PausedRow(t: TaskRow)
      requires RowOk(t, settings.maxRetries) && t.status == TaskStatus.Running && Last(t.attempts).AskedApproval?
      ensures RowOk(t.(status := TaskStatus.AwaitingApproval), settings.maxRetries)
    {
    }

    lemma PausedInv(before: Db, after: Db, i: nat)
      requires i < |before.tasks| && Underway(before)
      requires Shape(before.tasks, i) && NoneCancelled(before.tasks)
      requires before.tasks[i].status == TaskStatus.Running && before.tasks[i].attempts != []
      requires Last(before.tasks[i].attempts).AskedApproval?
      requires Holder(before.handoffs) == before.tasks[i].agent
      requires after.tasks == before.tasks[i := before.tasks[i].(status := TaskStatus.AwaitingApproval)]
      requires after.approvals == [Approval(i, ApprovalStatus.Pending)]
      requires after.handoffs == before.handoffs && after.actions == 0
      requires after.run == before.run.(status := RunStatus.AwaitingApproval, stepsUsed := Starts(before.tasks),
                 llmCallsUsed := after.run.llmCallsUsed, toolCallsUsed := after.run.toolCallsUsed)
      requires after.run.llmCallsUsed <= settings.maxLlmCalls && after.run.toolCallsUsed <= settings.maxToolCalls
      ensures Inv(after, settings)
    {
      hide Base, RowOk;
      var t := before.tasks[i].(status := TaskStatus.AwaitingApproval);
      RowFacts(before, i, settings.maxRetries);
      PausedRow(before.tasks[i]);
      BaseUpdate(before, i, t, settings.maxRetries);
      StartsUpdate(before.tasks, i, t);
      SameTasksBase(WithRow(before, i, t), after, settings.maxRetries);
    }

    /** The commits so far are sound, and the last of them is what a rollback returns to. */
    ghost predicate Journal()
      reads repo`saved, repo`commits
    {
      History(repo.commits, settings) && Last(repo.commits) == repo.saved
    }

    lemma JournalInv()
      requires Journal()
      ensures Inv(repo.saved, settings) && repo.commits != [] && Last(repo.commits) == repo.saved
    {
    }

    /** session.commit(). */
    method Checkpoint()
      requires Journal() && Inv(repo.db, settings) && Succession(repo.saved, repo.db)
      modifies repo`saved, repo`commits
      ensures Journal() && repo.saved == repo.db && repo.commits == old(repo.commits) + [repo.db]
    {
      hide Inv, Succession, History;
      HistoryMore(repo.commits, repo.db, settings);
      repo.Commit();
    }

    /** The session is ahead of the last commit by skipped rows only. */
    predicate Trails(saved: seq<TaskRow>, now: seq<TaskRow>) {
      && |saved| == |now|
      && (forall j :: 0 <= j < |saved| ==>
            || now[j] == saved[j]
            || (saved[j].status == TaskStatus.Pending && saved[j].attempts == []
                && now[j] == saved[j].(status := TaskStatus.Skipped)))
    }

    /** What stands in the database while the tasks run: sound commits of rows of the plan,
        each attempt in accord with its reply. */
    ghost predicate Recorded(env: Env, profile: Profile, m: Meter)
      reads repo
    {
      && Logged(repo.db.tasks, env, profile) && Logged(repo.saved.tasks, env, profile)
      && SameRows(repo.db.tasks, m.planned) && SameRows(repo.saved.tasks, m.planned) && m.planned != []
      && Journal() && repo.saved.run.status == RunStatus.Running
    }

    /** The main loop stands before task i, with everything committed that must be. */
    ghost predicate LoopState(i: nat, results: map<int, TaskResult>, lastAgent: string, b: RunBudgets.RunBudget,
                              env: Env, profile: Profile, m: Meter)
      reads this`waits, repo, b
    {
      && AtTask(repo.db, i) && Quiet(repo.db) && Charged(b, env, m) && Tracked(b, env, m) && m.from == 0
      && Trails(repo.saved.tasks, repo.db.tasks) && Extends(repo.saved, repo.db)
      && Remembered(repo.db.tasks, i, results)
      && lastAgent == Holder(repo.db.handoffs)
      && Recorded(env, profile, m)
    }

    /** What is foretold from task i on. */
    ghost function Ahead(i: nat, b: RunBudgets.RunBudget, env: Env, profile: Profile): Run
      requires i <= |repo.db.tasks|
      reads repo, repo`db, b`stepsUsed, b`llmCallsUsed, b`toolCallsUsed
    {
      RunFrom(env, repo.db.tasks, repo.db.handoffs, i, ProfileLimits(profile).3, settings, TallyOf(b))
    }

    /** Rows other than i are untouched. */
    predicate Visited(before: Db, after: Db, i: nat) {
      && i < |before.tasks| == |after.tasks|
      && after.tasks == before.tasks[i := after.tasks[i]]
    }

    lemma LoggedMore(before: Db, after: Db, i: nat, env: Env, profile: Profile)
      requires Visited(before, after, i) && Logged(before.tasks, env, profile)
      requires LogFollows(after.tasks[i], env, ProfileLimits(profile).3)
      ensures Logged(after.tasks, env, profile)
    {
      hide LogFollows;
    }

    /** What one turn of the loop ends with, whichever way it ends. */
    ghost predicate TurnDone(s: Signal, paused: bool, b: RunBudgets.RunBudget, env: Env, profile: Profile, m: Meter)
      reads this`waits, repo, b
    {
      && b.WithinCaps() && Recorded(env, profile, m) && Tracked(b, env, m) && Extends(repo.saved, repo.db)
      && Bounded(repo.db.tasks, m.planned, settings.maxRetries)
      && (s.Raised? ==>
            && s.fault in {RunTimeout, LimitExceeded, Fault.Cancelled, Unexpected, Killed}
            && ((Underway(repo.db) && Charged(b, env, m)) || s.fault in {Unexpected, Killed})
            && Caused(s.fault, env, m, waits, repo.db.tasks, settings, false))
      && (s.Fine? && paused ==>
            && Inv(repo.db, settings) && repo.db.run.status == RunStatus.AwaitingApproval
            && Counted(repo.db.run, TallyOf(b)))
    }

    /** The loop ended as foretold. */
    ghost predicate RunShows(run: Run, s: Signal, paused: bool, b: RunBudgets.RunBudget)
      reads repo, repo`db, b`stepsUsed, b`llmCallsUsed, b`toolCallsUsed
    {
      && TallyOf(b) == run.tally && repo.db.handoffs == run.handoffs && StopShows(run.stop, s, paused)
      && if run.stop == Asks then AtGate(run, repo.db) else repo.db.tasks == run.tasks
    }

    /** One turn of the loop went as foretold: on to the next task, or to the end. */
    ghost predicate TurnShows(run: Run, i: nat, s: Signal, paused: bool, b: RunBudgets.RunBudget, env: Env,
                              profile: Profile)
      reads repo, repo`db, b`stepsUsed, b`llmCallsUsed, b`toolCallsUsed
      requires i < |repo.db.tasks|
    {
      if s.Fine? && !paused then Ahead(i + 1, b, env, profile) == run else RunShows(run, s, paused, b)
    }

    lemma JustCommitted(db: Db)
      ensures Trails(db.tasks, db.tasks) && Extends(db, db)
    {
    }

    /** The future of a task that may run, seen from before and from after it. */
    lemma ReadyFuture(before: Db, i: nat, env: Env, profile: Profile, was: Tally, tally: Tally, s: Signal, asks: bool)
      requires i < |before.tasks| && DepsSucceeded(before.tasks, i)
      requires TaskForetold(before, i, env, profile, was, tally, s, asks)
      ensures |repo.db.tasks| == |before.tasks|
      ensures var retryTimeouts := ProfileLimits(profile).3;
              var run := RunFrom(env, before.tasks, before.handoffs, i, retryTimeouts, settings, was);
              if s.Fine? && !asks then
                RunFrom(env, repo.db.tasks, repo.db.handoffs, i + 1, retryTimeouts, settings, tally) == run
              else
                && StopShows(run.stop, s, asks) && run.stop != Done
                && run == Run(repo.db.tasks, repo.db.handoffs, tally, run.stop)
    {
      hide ForetellTask, Held, DepsSucceeded, RanRow;
    }

    /** The task runs, and its end is committed. */
    method RunAndCommit(i: nat, results: map<int, TaskResult>, lastAgent: string,
                        env: Env, b: RunBudgets.RunBudget, profile: Profile, ghost m: Meter)
      returns (s: Signal, out: TaskResult, holder: string)
      requires i < |repo.db.tasks| && LoopState(i, results, lastAgent, b, env, profile, m)
      requires DepsSucceeded(repo.db.tasks, i) && repo.db.tasks[i].attempts == []
      modifies this`waits, repo, b`stepsUsed, b`llmCallsUsed, b`toolCallsUsed, b`contextCharacters
      ensures Visited(old(repo.db), repo.db, i) && TurnDone(s, false, b, env, profile, m) && old(waits) <= waits
      ensures SamePlan(old(repo.db.tasks[i]), repo.db.tasks[i])
      ensures s.Fine? ==>
                && repo.saved == repo.db && Underway(repo.db) && Charged(b, env, m)
                && Shape(repo.db.tasks, i) && NoneCancelled(repo.db.tasks) && repo.db.handoffs != []
                && RetryDone(repo.db.tasks[i], out)
                && holder == Holder(repo.db.handoffs) == repo.db.tasks[i].agent
      ensures Smoothly(env, m, waits) ==>
                TaskForetold(old(repo.db), i, env, profile, old(TallyOf(b)), TallyOf(b), s, out.requiresApproval)
    {
      hide Base, DepsSucceeded, Inv, LogFollows, Logged, Exhausted, Journal, Jolted, RowOk, Extends, Trails, Caused,
        Remembered, SameRows, Overdue, Shape, RetryDone, Tracked, Bounded, TaskForetold, Smoothly, NoneCancelled;
      ghost var before := repo.db;
      s, out, holder := RunTask(i, lastAgent, env, b, profile, m);
      LoggedMore(before, repo.db, i, env, profile);
      TaskUnderway(repo.db, b.stepsUsed);
      ExtendsRow(repo.saved, before, repo.db, i);
      TrackedRows(b, env, m);
      BoundedRows(repo.db, m);
      if s.Fine? {
        UnderwayInv(repo.db);
        JustCommitted(repo.db);
        Checkpoint();
      }
    }

    lemma TrackedRows(b: RunBudgets.RunBudget, env: Env, m: Meter)
      requires Tracked(b, env, m)
      ensures SameRows(repo.db.tasks, m.planned)
    {
    }

    lemma BoundedRows(db: Db, m: Meter)
      requires Base(db, settings.maxRetries) && SameRows(db.tasks, m.planned)
      ensures Bounded(db.tasks, m.planned, settings.maxRetries)
    {
      forall j | 0 <= j < |db.tasks|
        ensures |db.tasks[j].attempts| <= 1 + RetryCap(db.tasks[j], settings.maxRetries)
      {
        assert RowOk(db.tasks[j], settings.maxRetries);
      }
    }

    /** The approval a task asked for pauses the run, and the loop ends there. */
    method PauseRun(i: nat, env: Env, b: RunBudgets.RunBudget, profile: Profile, ghost m: Meter, ghost run: Run)
      returns (s: Signal)
      requires i < |repo.db.tasks| && Underway(repo.db) && Charged(b, env, m) && repo.saved == repo.db
      requires TurnDone(Fine, false, b, env, profile, m) && Shape(repo.db.tasks, i) && NoneCancelled(repo.db.tasks)
      requires repo.db.tasks[i].status == TaskStatus.Running && repo.db.tasks[i].attempts != []
      requires Last(repo.db.tasks[i].attempts).AskedApproval?
      requires Holder(repo.db.handoffs) == repo.db.tasks[i].agent
      requires Smoothly(env, m, waits) ==> run == Run(repo.db.tasks, repo.db.handoffs, TallyOf(b), Asks)
      modifies this`waits, repo`db
      ensures Visited(old(repo.db), repo.db, i) && TurnDone(s, true, b, env, profile, m) && old(waits) <= waits
      ensures Smoothly(env, m, waits) ==> RunShows(run, s, true, b)
    {
      hide Base, Inv, LogFollows, Logged, Exhausted, Journal, RowOk, Extends, Caused, SameRows, Overdue, Shape,
        NoneCancelled, Bounded, Smoothly;
      ghost var ran, at := repo.db, waits;
      s := PauseForApproval(i, env, b, m);
      PausedKeeps(ran, at, i, b, env, profile, m);
      SmoothBefore(env, m, at, waits);
      if s.Raised? {
        JoltedCause(s.fault, env, m);
      }
    }

    /** The task runs; its end is committed; an approval it asked for pauses the run. */
    method VisitReady(i: nat, results: map<int, TaskResult>, lastAgent: string,
                      env: Env, b: RunBudgets.RunBudget, profile: Profile, ghost m: Meter)
      returns (s: Signal, paused: bool, more: map<int, TaskResult>, holder: string)
      requires i < |repo.db.tasks| && LoopState(i, results, lastAgent, b, env, profile, m)
      requires DepsSucceeded(repo.db.tasks, i)
      modifies this`waits, repo, b`stepsUsed, b`llmCallsUsed, b`toolCallsUsed, b`contextCharacters
      ensures Visited(old(repo.db), repo.db, i) && TurnDone(s, paused, b, env, profile, m) && old(waits) <= waits
      ensures s.Fine? && !paused ==> LoopState(i + 1, more, holder, b, env, profile, m)
      ensures Smoothly(env, m, waits) ==> TurnShows(old(Ahead(i, b, env, profile)), i, s, paused, b, env, profile)
    {
      hide Base, DepsSucceeded, Inv, LogFollows, Logged, Exhausted, Journal, RowOk, Extends, Trails, Caused,
        Remembered, SameRows, Overdue, Shape, NoneCancelled, TaskForetold, Bounded, RunFrom;
      paused, more := false, results;
      OrderedOf(repo.db);
      PendingRow(repo.db, i);
      ghost var before, was, run := repo.db, TallyOf(b), Ahead(i, b, env, profile);
      var sequence, out := repo.db.tasks[i].sequence, SKIPPED_RESULT;
      s, out, holder := RunAndCommit(i, results, lastAgent, env, b, profile, m);
      ghost var ran, at := repo.db, waits;
      if Smoothly(env, m, waits) {
        ReadyFuture(before, i, env, profile, was, TallyOf(b), s, out.requiresApproval);
      }
      if s.Raised? {
        return;
      }
      more := results[sequence := out];
      paused := out.requiresApproval;
      if paused {
        s := PauseRun(i, env, b, profile, m, run);
        SmoothBefore(env, m, at, waits);
      } else {
        JustCommitted(ran);
        NextTask(ran, i);
        RememberMore(before.tasks, ran.tasks, i, results, out);
      }
    }

    lemma SkippedKeeps(saved: Db, before: Db, i: nat, env: Env, profile: Profile)
      requires i < |before.tasks| && before.tasks[i].status == TaskStatus.Pending && before.tasks[i].attempts == []
      requires Trails(saved.tasks, before.tasks) && Extends(saved, before) && Logged(before.tasks, env, profile)
      ensures var after := WithRow(before, i, MovedTask(before.tasks[i], TaskStatus.Skipped, false));
              Trails(saved.tasks, after.tasks) && Extends(saved, after) && Logged(after.tasks, env, profile)
    {
      hide Extends, LogFollows;
      var after := WithRow(before, i, MovedTask(before.tasks[i], TaskStatus.Skipped, false));
      assert LogFollows(before.tasks[i], env, ProfileLimits(profile).3);
      SkippedLog(before.tasks[i], env, profile);
      ExtendsRow(saved, before, after, i);
    }

    lemma SkippedLog(t: TaskRow, env: Env, profile: Profile)
      requires t.attempts == []
      ensures LogFollows(MovedTask(t, TaskStatus.Skipped, false), env, ProfileLimits(profile).3)
    {
    }

    /** A blocked task has no future of its own. */
    lemma BlockedFuture(before: Db, i: nat, env: Env, profile: Profile, tally: Tally)
      requires i < |before.tasks| && !DepsSucceeded(before.tasks, i)
      ensures var retryTimeouts := ProfileLimits(profile).3;
              var after := WithRow(before, i, MovedTask(before.tasks[i], TaskStatus.Skipped, false));
              RunFrom(env, before.tasks, before.handoffs, i, retryTimeouts, settings, tally)
              == RunFrom(env, after.tasks, after.handoffs, i + 1, retryTimeouts, settings, tally)
    {
      hide DepsSucceeded, ForetellTask;
    }

    /** The task is skipped because a dependency did not succeed. */
    method VisitBlocked(i: nat, results: map<int, TaskResult>, lastAgent: string,
                        env: Env, b: RunBudgets.RunBudget, profile: Profile, ghost m: Meter)
      returns (s: Signal, more: map<int, TaskResult>)
      requires i < |repo.db.tasks| && LoopState(i, results, lastAgent, b, env, profile, m)
      requires !DepsSucceeded(repo.db.tasks, i)
      modifies this`waits, repo`db
      ensures Visited(old(repo.db), repo.db, i) && TurnDone(s, false, b, env, profile, m) && old(waits) <= waits
      ensures s.Fine? ==> LoopState(i + 1, more, lastAgent, b, env, profile, m)
      ensures Smoothly(env, m, waits) ==> TurnShows(old(Ahead(i, b, env, profile)), i, s, false, b, env, profile)
    {
      hide Base, DepsSucceeded, Inv, LogFollows, Logged, Exhausted, Journal, Jolted, RowOk, Extends, Trails, Caused,
        Remembered, SameRows, Smoothly, Shape, NoneCancelled, Bounded, RunFrom;
      more := results;
      ghost var before := repo.db;
      PendingRow(repo.db, i);
      OrderedOf(repo.db);
      SkippedKeeps(repo.saved, before, i, env, profile);
      BlockedFuture(before, i, env, profile, TallyOf(b));
      var sequence := repo.db.tasks[i].sequence;
      s := SkipTask(i, env, b, m);
      BudgetUnderway(repo.db, i + 1, b.stepsUsed);
      BoundedRows(repo.db, m);
      if s.Raised? {
        JoltedCause(s.fault, env, m);
        return;
      }
      more := results[sequence := SKIPPED_RESULT];
      RememberMore(before.tasks, repo.db.tasks, i, results, SKIPPED_RESULT);
    }

    lemma UndisturbedBefore(env: Env, m: Meter, a: nat, b: nat)
      requires a <= b
      ensures Undisturbed(env, m, b) ==> Undisturbed(env, m, a)
    {
      SmoothBefore(env, m, a, b);
    }

    /** One turn of the main loop: check, then skip or run. */
    method VisitTask(i: nat, results: map<int, TaskResult>, lastAgent: string,
                     env: Env, b: RunBudgets.RunBudget, profile: Profile, ghost m: Meter)
      returns (s: Signal, paused: bool, more: map<int, TaskResult>, holder: string)
      requires i < |repo.db.tasks| && LoopState(i, results, lastAgent, b, env, profile, m)
      modifies this`waits, repo, b`stepsUsed, b`llmCallsUsed, b`toolCallsUsed, b`contextCharacters
      ensures Visited(old(repo.db), repo.db, i) && TurnDone(s, paused, b, env, profile, m) && old(waits) <= waits
      ensures s.Fine? && !paused ==> LoopState(i + 1, more, holder, b, env, profile, m)
      ensures Undisturbed(env, m, waits) ==> TurnShows(old(Ahead(i, b, env, profile)), i, s, paused, b, env, profile)
    {
      hide Base, DepsSucceeded, Inv, Exhausted, Journal, Extends, RowOk, Logged, Trails, RunFrom, RowsSpan, LateRow,
        Bounded, TurnShows, SomeoneDied;
      paused, more, holder := false, results, lastAgent;
      PendingRow(repo.db, i);
      BudgetUnderway(repo.db, i, b.stepsUsed);
      BoundedRows(repo.db, m);
      ghost var at := waits;
      s := RaiseIfCancelled(env);
      LateGrows(env, m, repo.db.tasks, at, waits);
      if s.Raised? {
        return;
      }
      s := CheckTime(env, b, m);
      LateGrows(env, m, repo.db.tasks, at, waits);
      if s.Raised? {
        return;
      }
      var failed := DependencyFailed(i, results);
      if failed {
        s, more := VisitBlocked(i, results, lastAgent, env, b, profile, m);
        return;
      }
      s, paused, more, holder := VisitReady(i, results, lastAgent, env, b, profile, m);
    }

    lemma PendingRow(db: Db, i: nat)
      requires i < |db.tasks| && AtTask(db, i)
      ensures db.tasks[i].attempts == [] && db.tasks[i].status == TaskStatus.Pending
    {
      assert RowOk(db.tasks[i], settings.maxRetries);
    }

    lemma BudgetUnderway(db: Db, i: nat, stepsUsed: nat)
      requires AtTask(db, i) && Quiet(db) && stepsUsed == Starts(db.tasks) <= settings.maxSteps
      ensures Underway(db)
    {
    }

    lemma TaskUnderway(db: Db, stepsUsed: nat)
      requires Base(db, settings.maxRetries) && StampsOk(db.run) && Quiet(db)
      requires db.run.status == RunStatus.Running && stepsUsed == Starts(db.tasks) <= settings.maxSteps
      ensures Underway(db)
    {
    }

    /** The main loop of _execute_multi_agent: undisturbed it ends as foretold. */
    method RunTasks(env: Env, b: RunBudgets.RunBudget, profile: Profile, ghost m: Meter)
      returns (s: Signal, paused: bool, results: map<int, TaskResult>)
      requires LoopState(0, map[], "safety", b, env, profile, m)
      modifies this`waits, repo, b`stepsUsed, b`llmCallsUsed, b`toolCallsUsed, b`contextCharacters
      ensures TurnDone(s, paused, b, env, profile, m) && old(waits) <= waits
      ensures s.Fine? && !paused ==>
                exists lastAgent :: LoopState(|repo.db.tasks|, results, lastAgent, b, env, profile, m)
      ensures Undisturbed(env, m, waits) ==> RunShows(old(Ahead(0, b, env, profile)), s, paused, b)
    {
      hide LoopState, Recorded, Inv, Exhausted, Extends, RunFrom, Undisturbed, RunShows, Tracked, Bounded, Caused;
      results, paused := map[], false;
      var lastAgent := "safety";
      var i := 0;
      ghost var run := Ahead(0, b, env, profile);
      LoopRecorded(0, results, lastAgent, b, env, profile, m);
      while i < |repo.db.tasks| && !paused
        invariant i <= |repo.db.tasks| && old(waits) <= waits
        invariant !paused ==> LoopState(i, results, lastAgent, b, env, profile, m)
        invariant TurnDone(Fine, paused, b, env, profile, m)
        invariant Undisturbed(env, m, waits) ==>
                    if paused then RunShows(run, Fine, paused, b) else Ahead(i, b, env, profile) == run
      {
        ghost var at := waits;
        s, paused, results, lastAgent := VisitTask(i, results, lastAgent, env, b, profile, m);
        UndisturbedBefore(env, m, at, waits);
        if s.Raised? {
          return;
        }
        i := i + 1;
      }
      s := Fine;
      if !paused {
        NothingAhead(b, env, profile);
      }
    }

    lemma NothingAhead(b: RunBudgets.RunBudget, env: Env, profile: Profile)
      ensures RunShows(Ahead(|repo.db.tasks|, b, env, profile), Fine, false, b)
    {
    }

    lemma LoopRecorded(i: nat, results: map<int, TaskResult>, lastAgent: string, b: RunBudgets.RunBudget,
                       env: Env, profile: Profile, m: Meter)
      requires LoopState(i, results, lastAgent, b, env, profile, m)
      ensures TurnDone(Fine, false, b, env, profile, m)
    {
      BoundedRows(repo.db, m);
    }

    /** Whether some conversation result carries the final text. */
    method FinalContent(results: map<int, TaskResult>) returns (found: bool)
      requires Remembered(repo.db.tasks, |repo.db.tasks|, results)
      ensures found <==> SomeoneSpoke(repo.db.tasks)
    {
      found := false;
      var i := 0;
      while i < |repo.db.tasks|
        invariant i <= |repo.db.tasks|
        invariant found <==> exists j :: 0 <= j < i && Spoke(repo.db.tasks[j])
      {
        assert Spoke(repo.db.tasks[i]) <==> results[repo.db.tasks[i].sequence].speaks;
        if results[repo.db.tasks[i].sequence].speaks {
          found := true;
        }
        i := i + 1;
      }
    }

    /** A synthesis of last resort. Its request carries sequence 99, above the 64 the
        request schema accepts, so once the step is charged it ends in an error. */
    method SynthesizeFallback(env: Env, b: RunBudgets.RunBudget, ghost m: Meter) returns (s: Signal)
      requires Capped(b, env, m) && b.WithinCaps()
      modifies this`waits, b`stepsUsed
      ensures b.WithinCaps() && waits == old(waits) + 1
      ensures s == if Overdue(env, m, waits) then Raised(RunTimeout)
                   else if old(b.stepsUsed) == settings.maxSteps then Raised(LimitExceeded)
                   else Raised(Unexpected)
      ensures s != Raised(Unexpected) ==> b.stepsUsed == old(b.stepsUsed)
    {
      assert FALLBACK_SEQUENCE > MAX_REQUEST_SEQUENCE;
      :- TakeStep(env, b, m);
      return Raised(Unexpected);
    }

    lemma CompletedInv(db: Db, done: Db, stepsUsed: nat)
      requires AtTask(db, |db.tasks|) && Quiet(db) && stepsUsed == Starts(db.tasks) <= settings.maxSteps
      requires SomeoneSpoke(db.tasks)
      requires done == db.(run := done.run)
      requires done.run == Moved(db.run.(stepsUsed := stepsUsed, llmCallsUsed := done.run.llmCallsUsed,
                                 toolCallsUsed := done.run.toolCallsUsed), RunStatus.Completed)
      requires done.run.llmCallsUsed <= settings.maxLlmCalls && done.run.toolCallsUsed <= settings.maxToolCalls
      ensures Inv(done, settings)
    {
      hide Base;
      SameTasksBase(db, done, settings.maxRetries);
    }

    /** At the end of the loop every task has run to its end or is blocked. */
    lemma AllSettled(db: Db)
      requires AtTask(db, |db.tasks|) && db.approvals == []
      ensures WorkedOff(db.tasks)
    {
      hide DepsSucceeded;
      forall j | 0 <= j < |db.tasks|
        ensures if db.tasks[j].attempts == [] then !DepsSucceeded(db.tasks, j)
                else db.tasks[j].status in {TaskStatus.Succeeded, TaskStatus.Failed, TaskStatus.TimedOut}
      {
        assert RowOk(db.tasks[j], settings.maxRetries) && db.tasks[j].status != TaskStatus.Cancelled;
      }
    }

    /** After the loop: find the final text, save the counters, complete the run. */
    method Conclude(results: map<int, TaskResult>, env: Env, b: RunBudgets.RunBudget, ghost m: Meter)
      returns (s: Signal)
      requires AtTask(repo.db, |repo.db.tasks|) && Quiet(repo.db) && Charged(b, env, m) && Tracked(b, env, m)
      requires Remembered(repo.db.tasks, |repo.db.tasks|, results)
      modifies this`waits, repo`db, b`stepsUsed
      ensures b.WithinCaps() && Tracked(b, env, m) && waits == old(waits) + 1
      ensures s.Raised? ==> s.fault in {RunTimeout, LimitExceeded, Unexpected, Killed}
      ensures s.Raised? && s.fault !in {Unexpected, Killed} ==>
                repo.db == old(repo.db) && b.stepsUsed == old(b.stepsUsed)
      ensures repo.db == old(repo.db).(run := repo.db.run)
      ensures s.Fine? ==> Inv(repo.db, settings) && repo.db.run.status == RunStatus.Completed
      ensures s.Fine? ==> SomeoneSpoke(repo.db.tasks) && Counted(repo.db.run, old(TallyOf(b)))
      ensures s.Raised? ==> Caused(s.fault, env, m, waits, repo.db.tasks, settings, true)
      ensures Smoothly(env, m, waits) ==>
                s == if SomeoneSpoke(repo.db.tasks) then Fine
                     else if old(b.stepsUsed) == settings.maxSteps then Raised(LimitExceeded)
                     else Raised(Unexpected)
      ensures s.Fine? ==> TallyOf(b) == old(TallyOf(b))
    {
      hide Base, Inv, Exhausted, WorkedOff, SomeoneSpoke, RowsSpan, LateRow, SomeoneDied;
      AllSettled(repo.db);
      var found := FinalContent(results);
      ghost var before, at := repo.db, waits;
      if !found {
        s := SynthesizeFallback(env, b, m);
        LateGrows(env, m, before.tasks, at, waits);
        return;
      }
      SaveCounters(b);
      var moved := repo.TransitionRun(RunStatus.Completed);
      assert moved.Fine?;
      CompletedInv(before, repo.db, b.stepsUsed);
      s := AddEvent(env);
      LateGrows(env, m, before.tasks, at, waits);
    }

    /** A run that a handler may fail: not paused, not terminal. */
    ghost predicate Failable(db: Db) {
      && Base(db, settings.maxRetries) && StampsOk(db.run) && Quiet(db)
      && Starts(db.tasks) <= settings.maxSteps
      && db.run.status in {RunStatus.Pending, RunStatus.Planning, RunStatus.Running}
    }

    lemma EndedInv(before: Db, after: Db, target: RunStatus)
      requires Failable(before) && target in {RunStatus.Failed, RunStatus.Cancelled, RunStatus.TimedOut}
      requires CancelledRows(before.tasks, after.tasks)
      requires after == before.(tasks := after.tasks, run := after.run)
      requires after.run == Moved(before.run.(stepsUsed := after.run.stepsUsed,
                 llmCallsUsed := after.run.llmCallsUsed, toolCallsUsed := after.run.toolCallsUsed), target)
      requires after.run.stepsUsed <= settings.maxSteps && after.run.llmCallsUsed <= settings.maxLlmCalls
      requires after.run.toolCallsUsed <= settings.maxToolCalls
      ensures Inv(after, settings)
    {
      hide Base;
      var cancelled := before.(tasks := after.tasks);
      BaseCancel(before, cancelled, settings.maxRetries);
      SameTasksBase(cancelled, after, settings.maxRetries);
    }

    /** _fail_run: save the counters, cancel what is open, end the run. */
    method FailRun(target: RunStatus, env: Env, b: RunBudgets.RunBudget, ghost m: Meter) returns (s: Signal)
      requires Failable(repo.db) && target in {RunStatus.Failed, RunStatus.Cancelled, RunStatus.TimedOut}
      requires target == RunStatus.TimedOut ==> repo.db.run.status != RunStatus.Pending
      requires b.WithinCaps() && Capped(b, env, m)
      modifies this`waits, repo`db
      ensures waits == old(waits) + 1
      ensures s.Raised? ==> s.fault in {Unexpected, Killed} && Jolted(s.fault, env, waits)
      ensures Inv(repo.db, settings) && repo.db.run.status == target
      ensures repo.db == old(repo.db).(tasks := repo.db.tasks, run := repo.db.run)
      ensures CancelledRows(old(repo.db.tasks), repo.db.tasks)
      ensures Counted(repo.db.run, TallyOf(b))
    {
      hide Base, Inv;
      ghost var before := repo.db;
      SaveCounters(b);
      var n := repo.CancelQueuedTasks();
      var moved := repo.TransitionRun(target);
      assert moved.Fine?;
      EndedInv(before, repo.db, target);
      s := AddEvent(env);
    }

    method CreateTasks(env: Env)
      requires EnvOk(env) && env.plan.Planned? && repo.db.tasks == []
      modifies repo`db
      ensures repo.db == old(repo.db).(tasks := PlannedRows(env))
      ensures |repo.db.tasks| == |env.plan.tasks| > 0
    {
      Plans.SortedSequenced(env.plan.tasks);
      repo.CreateTasks(Plans.Sorted(env.plan.tasks));
      assert repo.db.tasks == PlannedRows(env);
    }

    lemma FreshTasks(db: Db, env: Env, profile: Profile)
      requires EnvOk(env) && env.plan.Planned? && db.tasks == PlannedRows(env)
      requires ChainOk(db.handoffs) && db.handoffs != [] && db.approvals == []
      requires db.run.status == RunStatus.Running && StampsOk(db.run)
      ensures AtTask(db, 0) && Starts(db.tasks) == 0
      ensures Logged(db.tasks, env, profile) && SameRows(db.tasks, PlannedRows(env))
      ensures Remembered(db.tasks, 0, map[]) && forall j :: 0 <= j < |db.tasks| ==> db.tasks[j].attempts == []
    {
      hide Plans.Sorted, Ordered, ChainOk, RowsSpan, Starts;
      Plans.SortedSequenced(env.plan.tasks);
      RowsOrdered(Plans.Sorted(env.plan.tasks));
      StartsNone(db.tasks);
    }

    lemma CreatedInv(db: Db)
      requires db == Created(settings)
      ensures Inv(db, settings) && Failable(db)
    {
    }

    lemma CreatedExtends(created: Db, db: Db)
      requires created == Created(settings)
      ensures Extends(created, db)
    {
    }

    function PlanningDb(db: Db): Db
    {
      db.(run := Moved(db.run, RunStatus.Planning), handoffs := [Handoff("coordinator", "planning")])
    }

    lemma PlanningStates(db: Db)
      requires db == Created(settings)
      ensures var planning := PlanningDb(db);
              && Failable(db.(run := Moved(db.run, RunStatus.Planning)))
              && Failable(planning)
              && Failable(planning.(run := Moved(planning.run, RunStatus.Running)))
              && Failable(planning.(run := Moved(planning.run, RunStatus.Running),
                                    handoffs := planning.handoffs + [Handoff("planning", "safety")]))
    {
      ChainExtend([], "planning");
      assert [] + [Handoff("coordinator", "planning")] == [Handoff("coordinator", "planning")];
      ChainExtend([Handoff("coordinator", "planning")], "safety");
    }

    /** Nothing is charged to the budget yet. */
    ghost predicate Fresh(b: RunBudgets.RunBudget, env: Env, m: Meter)
      reads this`waits, b
    {
      && Capped(b, env, m) && TallyOf(b) == Tally(0, NO_CALLS)
      && m.from == 0 && m.start <= waits && m.calls == NO_CALLS && m.planned == PlannedRows(env)
    }

    lemma FailableParts(db: Db)
      requires Failable(db)
      ensures ChainOk(db.handoffs) && StampsOk(db.run) && Quiet(db)
    {
    }

    /** The plan checkpoint: the task graph is committed before any specialist runs. */
    method PersistPlan(env: Env, b: RunBudgets.RunBudget, profile: Profile, ghost m: Meter)
      requires EnvOk(env) && env.plan.Planned? && repo.db.tasks == []
      requires Failable(repo.db) && repo.db.run.status == RunStatus.Running
      requires repo.db.handoffs == REVIEWED
      requires Fresh(b, env, m) && Journal() && repo.saved == Created(settings)
      modifies repo
      ensures LoopState(0, map[], "safety", b, env, profile, m)
      ensures repo.db.tasks == PlannedRows(env) && repo.db.handoffs == REVIEWED
    {
      hide PlannedRows, EnvOk, Journal, Extends, Inv, Base, Failable, Underway, AtTask, SameRows, Remembered, Logged,
        Trails, ChainOk, StampsOk, Starts, RowsSpan, LoopState, Quiet;
      ghost var before := repo.db;
      FailableParts(before);
      CreateTasks(env);
      QuietTasks(before, repo.db);
      FreshTasks(repo.db, env, profile);
      BudgetUnderway(repo.db, 0, 0);
      UnderwayInv(repo.db);
      CreatedExtends(repo.saved, repo.db);
      Checkpoint();
      LoopStart(env, b, profile, m);
    }

    lemma QuietTasks(before: Db, after: Db)
      requires Quiet(before) && after == before.(tasks := after.tasks)
      ensures Quiet(after) && after.approvals == []
    {
    }

    lemma LoopStart(env: Env, b: RunBudgets.RunBudget, profile: Profile, m: Meter)
      requires Fresh(b, env, m) && Journal() && repo.saved == repo.db && repo.db.tasks == m.planned
      requires AtTask(repo.db, 0) && Quiet(repo.db) && Starts(repo.db.tasks) == 0
      requires Logged(repo.db.tasks, env, profile)
      requires forall j :: 0 <= j < |repo.db.tasks| ==> repo.db.tasks[j].attempts == []
      requires Remembered(repo.db.tasks, 0, map[])
      requires SameRows(repo.db.tasks, m.planned) && m.planned != [] && repo.db.handoffs == REVIEWED
      ensures LoopState(0, map[], "safety", b, env, profile, m)
    {
      hide PlannedRows, Journal, Base, SameRows, Remembered, Logged, Trails, Extends, RowsSpan, Starts, Tracked;
      JustCommitted(repo.db);
      assert Used(b) == m.calls;
      StartTracked(b, env, m);
    }

    lemma StartTracked(b: RunBudgets.RunBudget, env: Env, m: Meter)
      requires m.start <= waits && SameRows(repo.db.tasks, m.planned) && Used(b) == m.calls
      requires forall j :: m.from <= j < |repo.db.tasks| ==> repo.db.tasks[j].attempts == []
      ensures Tracked(b, env, m)
    {
      hide RowsSpan, Overdue;
      RowsSpanNone(env, repo.db.tasks, m.from);
      NothingCharged(RowsSpan(env, repo.db.tasks, m.from), m.calls, Used(b));
    }

    /** The planning phase, up to the plan. */
    method AskForPlan(env: Env) returns (s: Signal)
      requires EnvOk(env) && repo.db == Created(settings)
      modifies this`waits, repo`db
      ensures old(waits) < waits
      ensures s.Raised? ==> Failable(repo.db) && repo.db.tasks == []
      ensures s.Raised? ==> s.fault !in {BadTransition, NestedApproval}
      ensures s.Raised? && s.fault == RunTimeout ==> repo.db.run.status != RunStatus.Pending
      ensures s.Raised? ==> PlanCaused(s.fault, env) || Jolted(s.fault, env, waits)
      ensures s.Raised? && env.plan.Planned? ==>
                s.fault in {Fault.Cancelled, Unexpected, Killed} && Jolted(s.fault, env, waits)
      ensures s.Fine? ==> env.plan.Planned? && repo.db == PlanningDb(old(repo.db))
    {
      hide Failable, Inv, Base;
      CreatedInv(repo.db);
      PlanningStates(repo.db);
      :- RaiseIfCancelled(env);
      var moved := repo.TransitionRun(RunStatus.Planning);
      assert moved.Fine?;
      :- AddEvent(env);
      repo.AddHandoff("coordinator", "planning");
      assert repo.db.handoffs == [Handoff("coordinator", "planning")];
      if env.plan.PlanFails? {
        return Raised(env.plan.fault);
      }
      return Fine;
    }

    /** The safety review of the plan. */
    method ReviewPlan(env: Env, ghost created: Db) returns (s: Signal)
      requires EnvOk(env) && created == Created(settings) && repo.db == PlanningDb(created)
      modifies this`waits, repo`db
      ensures old(waits) < waits && repo.db.tasks == []
      ensures Failable(repo.db) && repo.db.run.status == RunStatus.Running
      ensures s.Raised? ==> s.fault !in {BadTransition, NestedApproval}
      ensures s.Raised? ==> (PlanCaused(s.fault, env) && !env.review.Passed?) || Jolted(s.fault, env, waits)
      ensures s.Raised? && !Jolted(s.fault, env, waits) ==> !env.review.Passed?
      ensures s.Raised? && env.review.Passed? ==> s.fault in {Unexpected, Killed}
      ensures s.Fine? ==> repo.db.handoffs == REVIEWED
    {
      hide Failable, Inv, Base, Jolted;
      PlanningStates(created);
      var moved := repo.TransitionRun(RunStatus.Running);
      assert moved.Fine?;
      :- AddEvent(env);
      repo.AddHandoff("planning", "safety");
      assert repo.db.handoffs == REVIEWED;
      if env.review.ReviewFails? {
        return Raised(env.review.fault);
      }
      :- AddEvent(env);
      if env.review.Blocked? {
        return Raised(SafetyBlocked);
      }
      return Fine;
    }

    /** Everything before the main loop: plan, review, persist the tasks. */
    method PlanAndReview(env: Env, b: RunBudgets.RunBudget, profile: Profile, ghost m: Meter) returns (s: Signal)
      requires EnvOk(env) && repo.db == repo.saved == Created(settings) && Journal()
      requires Fresh(b, env, m)
      modifies this`waits, repo, b`contextCharacters
      ensures old(waits) < waits && Journal() && Fresh(b, env, m)
      ensures s.Raised? ==> Failable(repo.db) && repo.saved == old(repo.saved) && repo.db.tasks == []
      ensures s.Raised? ==> s.fault !in {BadTransition, NestedApproval}
      ensures s.Raised? && s.fault == RunTimeout ==> repo.db.run.status != RunStatus.Pending
      ensures s.Raised? ==> PlanCaused(s.fault, env) || Jolted(s.fault, env, waits)
      ensures s.Raised? ==> !Undisturbed(env, m, waits)
      ensures s.Fine? ==> LoopState(0, map[], "safety", b, env, profile, m)
      ensures s.Fine? ==> env.plan.Planned? && repo.db.tasks == PlannedRows(env) && repo.db.handoffs == REVIEWED
      ensures s.Fine? ==> repo.db.handoffs == [Handoff("coordinator", "planning"), Handoff("planning", "safety")]
    {
      hide Failable, Inv, Base, Journal, Extends, RowsSpan, AtTask, Quiet, Trails, Remembered, SameRows, Logged,
        PlannedRows, Starts, PlanCaused, EnvOk, Overdue, LateRow;
      ghost var created := repo.db;
      :- AskForPlan(env);
      :- ReviewPlan(env, created);
      ghost var at := waits;
      PersistPlan(env, b, profile, m);
      at := waits;
      ObserveEnvelope(env, b);
      LateGrows(env, m, repo.db.tasks, at, waits);
      return Fine;
    }

    /** An unexpected exception is handled on the committed rows, any other on the session's. */
    ghost predicate Blamed(fault: Fault, env: Env, m: Meter, at: nat)
      reads repo
    {
      Accounted(fault, env, m, at, if fault == Unexpected then repo.saved.tasks else repo.db.tasks, settings)
    }

    lemma TurnBlamed(s: Signal, b: RunBudgets.RunBudget, env: Env, profile: Profile, m: Meter)
      requires TurnDone(s, false, b, env, profile, m) && s.Raised?
      ensures Blamed(s.fault, env, m, waits)
      ensures Kept(env, profile, m, waits, repo.db.tasks, Used(b))
    {
      hide Exhausted, Silent, RowsSpan, LateRows, Logged, SomeoneDied;
    }

    /** Rows the session skipped since the last commit do not break a silence. */
    lemma TrailsSilent(saved: seq<TaskRow>, now: seq<TaskRow>)
      requires Trails(saved, now) && Silent(now)
      ensures Silent(saved)
    {
      forall j | 0 <= j < |saved|
        ensures DepsSucceeded(saved, j) ==> DepsSucceeded(now, j)
        ensures !Spoke(saved[j])
      {
        assert !Spoke(now[j]);
        forall d | d in saved[j].dependencies
          ensures SucceededSeq(saved, d) ==> SucceededSeq(now, d)
        {
          if SucceededSeq(saved, d) {
            TrailsSucceeded(saved, now, d);
          }
        }
      }
    }

    lemma TrailsSucceeded(saved: seq<TaskRow>, now: seq<TaskRow>, d: int)
      requires Trails(saved, now) && SucceededSeq(saved, d) && WorkedOff(now)
      ensures SucceededSeq(now, d)
    {
      var j :| 0 <= j < |saved| && saved[j].sequence == d && saved[j].status == TaskStatus.Succeeded;
      assert now[j] == saved[j];
    }

    /** Moving the run alone keeps all work. */
    lemma ExtendsRun(a: Db, b: Db, c: Db)
      requires Extends(a, b) && c == b.(run := c.run)
      ensures Extends(a, c)
    {
    }

    lemma ConcludedBlamed(fault: Fault, env: Env, m: Meter, at: nat)
      requires Trails(repo.saved.tasks, repo.db.tasks)
      requires SameRows(repo.saved.tasks, m.planned) && SameRows(repo.db.tasks, m.planned) && m.planned != []
      requires Caused(fault, env, m, at, repo.db.tasks, settings, true)
      ensures Blamed(fault, env, m, at)
    {
      hide Exhausted, Silent, Trails, SamePlan, SomeoneDied, SomeoneAsks;
      if fault == Unexpected && Silent(repo.db.tasks) {
        TrailsSilent(repo.saved.tasks, repo.db.tasks);
      }
    }

    /** The try block ended as foretold, with this database and so much used. */
    ghost predicate BodyShows(run: Run, s: Signal, paused: bool, db: Db, tally: Tally) {
      match run.stop
      case Done =>
        if SomeoneSpoke(run.tasks) then
          && s.Fine? && !paused && db.tasks == run.tasks && db.handoffs == run.handoffs
          && Counted(db.run, run.tally)
        else s == Raised(if run.tally.steps == settings.maxSteps then LimitExceeded else Unexpected)
      case Asks =>
        && s.Fine? && paused && AtGate(run, db) && db.handoffs == run.handoffs
        && Counted(db.run, run.tally)
      case Limit =>
        && s == Raised(LimitExceeded) && db.tasks == run.tasks && db.handoffs == run.handoffs
        && tally == run.tally
      case Dead => s == Raised(Killed)
    }

    lemma ForetoldFine(paused: bool, env: Env, profile: Profile, db: Db, tally: Tally)
      requires BodyShows(Foretell(env, settings, profile), Fine, paused, db, tally)
      ensures Foretold(if paused then WaitingForApproval else Finished, env, settings, profile, db)
    {
      hide RunFrom, AtGate;
    }

    lemma ForetoldFailed(fault: Fault, env: Env, profile: Profile, left: Db, tally: Tally, db: Db)
      requires BodyShows(Foretell(env, settings, profile), Raised(fault), false, left, tally)
      requires fault == LimitExceeded ==>
                 CancelledRows(left.tasks, db.tasks) && db.handoffs == left.handoffs && Counted(db.run, tally)
      ensures Foretold(if fault == Killed then Interrupted else Failure(fault), env, settings, profile, db)
    {
      hide RunFrom, AtGate, CancelledRows;
    }

    /** The part of the try block after the plan checkpoint. */
    method RunAndConclude(env: Env, b: RunBudgets.RunBudget, profile: Profile, ghost m: Meter)
      returns (s: Signal, paused: bool)
      requires LoopState(0, map[], "safety", b, env, profile, m)
      modifies this`waits, repo, b`stepsUsed, b`llmCallsUsed, b`toolCallsUsed, b`contextCharacters
      ensures b.WithinCaps() && Recorded(env, profile, m) && Failable(repo.saved) && old(waits) <= waits
      ensures Kept(env, profile, m, waits, repo.db.tasks, Used(b)) && Extends(repo.saved, repo.db)
      ensures s.Raised? ==> s.fault !in {BadTransition, NestedApproval} && Blamed(s.fault, env, m, waits)
      ensures s.Raised? && s.fault !in {Unexpected, Killed} ==>
                Failable(repo.db) && repo.db.run.status == RunStatus.Running
      ensures s.Raised? && s.fault == Killed ==> BrokenOff(env, m, waits)
      ensures s.Fine? ==> Inv(repo.db, settings) && Counted(repo.db.run, TallyOf(b))
      ensures s.Fine? ==>
                repo.db.run.status == if paused then RunStatus.AwaitingApproval else RunStatus.Completed
      ensures s.Raised? ==> !paused
      ensures s.Fine? && !paused ==> repo.db.approvals == [] && SomeoneSpoke(repo.db.tasks)
      ensures Undisturbed(env, m, waits) ==> BodyShows(old(Ahead(0, b, env, profile)), s, paused, repo.db, TallyOf(b))
    {
      hide Failable, Inv, Base, Logged, Journal, Extends, Caused, AtTask, Remembered, Trails, Kept, RunFrom, AtGate,
        Bounded, RowsSpan, LateRows, SameRows, SomeoneSpoke, Blamed, Undisturbed, BrokenOff;
      ghost var run := Ahead(0, b, env, profile);
      var results;
      s, paused, results := RunTasks(env, b, profile, m);
      JournalInv();
      RunningFailable(repo.saved);
      TrackedKept(b, env, profile, m);
      if s.Raised? {
        TurnBlamed(s, b, env, profile, m);
        KilledBy(s.fault, env, m, waits, false);
        if Underway(repo.db) {
          UnderwayFailable(repo.db);
        }
        return s, false;
      }
      if !paused {
        ghost var before, at := repo.db, waits;
        BudgetUnderway(before, |before.tasks|, b.stepsUsed);
        UnderwayFailable(before);
        s := Conclude(results, env, b, m);
        UndisturbedBefore(env, m, at, waits);
        UndisturbedSmooth(env, m, waits);
        ExtendsRun(repo.saved, before, repo.db);
        TrackedKept(b, env, profile, m);
        if s.Raised? {
          ConcludedBlamed(s.fault, env, m, waits);
          KilledBy(s.fault, env, m, waits, true);
        }
      }
    }

    lemma UndisturbedSmooth(env: Env, m: Meter, at: nat)
      ensures Undisturbed(env, m, at) ==> Smoothly(env, m, at)
    {
    }

    lemma TrackedKept(b: RunBudgets.RunBudget, env: Env, profile: Profile, m: Meter)
      requires Tracked(b, env, m) && Logged(repo.db.tasks, env, profile)
      ensures Kept(env, profile, m, waits, repo.db.tasks, Used(b))
    {
      hide Logged, LateRows, RowsSpan;
    }

    /** A killed call points to a jolt or to a task that died. */
    lemma KilledBy(fault: Fault, env: Env, m: Meter, at: nat, atEnd: bool)
      requires Caused(fault, env, m, at, repo.db.tasks, settings, atEnd)
      requires Bounded(repo.db.tasks, m.planned, settings.maxRetries)
      ensures fault == Killed ==> BrokenOff(env, m, at)
    {
      hide Bounded, SomeoneDied, SomeMayDie;
      if SomeoneDied(env, m, repo.db.tasks) {
        DiedMay(env, m, repo.db.tasks, settings.maxRetries);
      }
    }

    lemma UnderwayFailable(db: Db)
      requires Underway(db)
      ensures Failable(db)
    {
    }

    lemma RunningFailable(db: Db)
      requires Inv(db, settings) && db.run.status == RunStatus.Running
      ensures Failable(db)
    {
    }

    /** The rows the session or the database holds when the try block is left. */
    ghost predicate Left(b: RunBudgets.RunBudget, env: Env, profile: Profile, m: Meter)
      reads this`waits, repo, b`llmCallsUsed, b`toolCallsUsed
    {
      && Kept(env, profile, m, waits, repo.db.tasks, Used(b))
      && Kept(env, profile, m, waits, repo.saved.tasks, Used(b))
      && (repo.db.tasks == [] || SameRows(repo.db.tasks, m.planned))
      && (repo.saved.tasks == [] || SameRows(repo.saved.tasks, m.planned))
      && Extends(repo.saved, repo.db)
    }

    lemma NothingLeft(b: RunBudgets.RunBudget, env: Env, profile: Profile, m: Meter)
      requires repo.db.tasks == [] && repo.saved == Created(settings) && m.from == 0 && Used(b) == m.calls
      ensures Left(b, env, profile, m)
    {
      RowsSpanNone(env, repo.db.tasks, m.from);
      NothingCharged(RowsSpan(env, repo.db.tasks, m.from), m.calls, Used(b));
    }

    lemma SomethingLeft(b: RunBudgets.RunBudget, env: Env, profile: Profile, m: Meter)
      requires Recorded(env, profile, m) && Kept(env, profile, m, waits, repo.db.tasks, Used(b))
      requires Extends(repo.saved, repo.db)
      ensures Left(b, env, profile, m)
    {
      hide Kept, Logged, SamePlan;
      GrownSame(repo.saved.tasks);
      KeptBefore(env, profile, m, waits, repo.saved.tasks, repo.db.tasks, Used(b));
    }

    /** The try block of _execute_multi_agent: undisturbed it ends as foretold. */
    method ExecuteBody(env: Env, b: RunBudgets.RunBudget, profile: Profile, ghost m: Meter)
      returns (s: Signal, paused: bool)
      requires EnvOk(env) && repo.db == repo.saved == Created(settings) && Journal()
      requires Fresh(b, env, m)
      modifies this`waits, repo, b`stepsUsed, b`llmCallsUsed, b`toolCallsUsed, b`contextCharacters
      ensures b.WithinCaps() && Journal() && Failable(repo.saved) && old(waits) < waits
      ensures repo.saved.run.status in {RunStatus.Pending, RunStatus.Running}
      ensures Left(b, env, profile, m)
      ensures s.Raised? ==> s.fault !in {BadTransition, NestedApproval} && Blamed(s.fault, env, m, waits)
      ensures s.Raised? && s.fault == Killed ==> BrokenOff(env, m, waits)
      ensures s.Raised? && s.fault !in {Unexpected, Killed} ==> Failable(repo.db)
      ensures s.Raised? && s.fault == RunTimeout ==> repo.db.run.status != RunStatus.Pending
      ensures s.Fine? ==> Inv(repo.db, settings) && Counted(repo.db.run, TallyOf(b))
      ensures s.Fine? ==>
                repo.db.run.status == if paused then RunStatus.AwaitingApproval else RunStatus.Completed
      ensures s.Raised? ==> !paused
      ensures s.Fine? && !paused ==> repo.db.approvals == [] && SomeoneSpoke(repo.db.tasks)
      ensures Undisturbed(env, m, waits) ==> BodyShows(Foretell(env, settings, profile), s, paused, repo.db, TallyOf(b))
    {
      hide Failable, Inv, Base, Journal, Extends, Caused, Silent, Charged, Tracked, PlannedRows, RunFrom, BodyShows,
        Kept, SameRows, LoopState, SomeoneSpoke, Undisturbed, Left;
      paused := false;
      CreatedInv(repo.db);
      s := PlanAndReview(env, b, profile, m);
      if s.Raised? {
        NothingLeft(b, env, profile, m);
        return;
      }
      ghost var at := waits;
      s, paused := RunAndConclude(env, b, profile, m);
      SomethingLeft(b, env, profile, m);
    }

    lemma LeftCarriesPlan(db: Db, env: Env)
      requires EnvOk(env) && (db.tasks == [] || SameRows(db.tasks, PlannedRows(env)))
      ensures db.tasks != [] ==> env.plan.Planned? && CarriesPlan(db.tasks, env.plan.tasks)
    {
      if db.tasks != [] {
        assert env.plan.Planned?;
        RowsCarryPlan(env, db.tasks);
      }
    }

    /** execute: run the body, let the matching handler end the run, and commit as the
        chat service does; if the process dies or a callback fails in a handler, what
        remains is the last checkpoint. */
    method Execute(env: Env, profile: Profile) returns (outcome: Outcome)
      requires EnvOk(env) && repo.db == repo.saved == Created(settings) && Journal()
      modifies this`waits, repo
      ensures repo.db == repo.saved && Journal() && Inv(repo.db, settings)
      ensures var m := ExecutionMeter(settings, env, old(waits), profile);
              && LeftBy(outcome, env, profile, m, waits, repo.db, settings)
              && (Undisturbed(env, m, waits) ==> Foretold(outcome, env, settings, profile, repo.db))
      ensures repo.db.tasks != [] ==> env.plan.Planned? && CarriesPlan(repo.db.tasks, env.plan.tasks)
    {
      hide Inv, Base, SomeoneSpoke, Failable, Journal, Extends, PlannedRows, SameRows, Caused, Logged, LateRows,
        Silent, EnvOk, Accounted, BrokenOff, RowsSpan, Undisturbed, Foretold, BodyShows, CancelledRows, CarriesPlan;
      var (runLimit, _, _, _) := ProfileLimits(profile);
      ghost var m := ExecutionMeter(settings, env, waits, profile);
      var b := new RunBudgets.RunBudget(repo.db.run.maximumSteps, settings.maxLlmCalls,
        settings.maxToolCalls, settings.contextMaxCharacters, Min(settings.runTimeout, runLimit),
        Clock(env, waits), 0, 0, 0);
      var s, paused := ExecuteBody(env, b, profile, m);
      JournalInv();
      ghost var at, left, tally := waits, repo.db, TallyOf(b);
      if s.Fine? {
        if Undisturbed(env, m, at) {
          ForetoldFine(paused, env, profile, left, tally);
        }
        Checkpoint();
        LeftCarriesPlan(repo.db, env);
        return if paused then WaitingForApproval else Finished;
      }
      if s.fault == Killed {
        repo.Rollback();
        outcome := Interrupted;
      } else {
        outcome := HandleFailure(s.fault, env, b, profile, m, waits);
      }
      UndisturbedBefore(env, m, at, waits);
      JournalInv();
      LeftCarriesPlan(repo.db, env);
      if Undisturbed(env, m, waits) {
        ForetoldFailed(s.fault, env, profile, left, tally, repo.db);
      }
    }

    /** The exception handlers of _execute_multi_agent. */
    method HandleFailure(fault: Fault, env: Env, b: RunBudgets.RunBudget, profile: Profile, ghost m: Meter,
                         ghost at: nat)
      returns (outcome: Outcome)
      requires fault !in {BadTransition, NestedApproval, Killed} && at == waits && m.start <= at
      requires Failable(repo.saved) && Journal() && Left(b, env, profile, m)
      requires repo.saved.run.status in {RunStatus.Pending, RunStatus.Running}
      requires fault != Unexpected ==> Failable(repo.db)
      requires fault == RunTimeout ==> repo.db.run.status != RunStatus.Pending
      requires b.WithinCaps() && Capped(b, env, m)
      requires Blamed(fault, env, m, at)
      modifies this`waits, repo
      ensures repo.db == repo.saved && Journal() && old(waits) < waits
      ensures Logged(repo.db.tasks, env, profile) && LateRows(env, m, repo.db.tasks, waits)
      ensures repo.db.tasks == [] || SameRows(repo.db.tasks, m.planned)
      ensures outcome == Failure(fault) || outcome == Interrupted
      ensures outcome.Failure? ==>
                && repo.db.run.status == HandlerTarget(fault) && Counted(repo.db.run, TallyOf(b))
                && Accounted(fault, env, m, at, repo.db.tasks, settings)
                && Kept(env, profile, m, waits, repo.db.tasks, Used(b))
      ensures outcome.Failure? && fault == LimitExceeded ==>
                CancelledRows(old(repo.db.tasks), repo.db.tasks) && repo.db.handoffs == old(repo.db.handoffs)
      ensures outcome.Interrupted? ==>
                repo.db == old(repo.saved) && BrokenOff(env, m, waits) && !Undisturbed(env, m, waits)
    {
      hide Inv, Base, Failable, Logged, Journal, Extends, Accounted, SameRows, LateRows, RowsSpan, CancelledRows,
        Overdue;
      ghost var saved := repo.saved;
      if fault == Unexpected {
        repo.Rollback();
        JustCommitted(repo.db);
      }
      if fault == Fault.Cancelled {
        CancelFirst(fault, b, env, profile, m, at);
      }
      ghost var before := repo.db;
      var told := FailRun(HandlerTarget(fault), env, b, m);
      KeptCancel(env, profile, m, at, waits, before.tasks, repo.db.tasks, Used(b));
      AccountedCancel(fault, env, m, at, before.tasks, repo.db.tasks);
      if told.Raised? {
        LateGrows(env, m, saved.tasks, at, waits);
        repo.Rollback();
        return Interrupted;
      }
      ExtendsCancel(before, repo.db);
      ExtendsTransitive(repo.saved, before, repo.db);
      Checkpoint();
      return Failure(fault);
    }

    /** Cancelling the open rows takes no cause away. */
    lemma AccountedCancel(fault: Fault, env: Env, m: Meter, at: nat, before: seq<TaskRow>, after: seq<TaskRow>)
      requires fault !in {NestedApproval, Killed}
      requires Accounted(fault, env, m, at, before, settings) && CancelledRows(before, after)
      ensures Accounted(fault, env, m, at, after, settings) && (after == [] || SameRows(after, m.planned))
    {
      hide Exhausted, Silent, Overdue;
      StartsSame(before, after);
      if Exhausted(env, m, before, settings) {
        ExhaustedCancel(env, m, before, after, settings);
      }
      if Silent(before) {
        SilentCancel(before, after);
      }
    }

    /** The cancellation handler cancels the queue once more before _fail_run does. */
    method CancelFirst(fault: Fault, b: RunBudgets.RunBudget, env: Env, profile: Profile, ghost m: Meter, ghost at: nat)
      requires fault == Fault.Cancelled
      requires Failable(repo.db) && Kept(env, profile, m, at, repo.db.tasks, Used(b)) && Extends(repo.saved, repo.db)
      requires Accounted(fault, env, m, at, repo.db.tasks, settings)
      modifies repo`db
      ensures repo.db == old(repo.db).(tasks := repo.db.tasks)
      ensures CancelledRows(old(repo.db).tasks, repo.db.tasks)
      ensures Failable(repo.db) && Kept(env, profile, m, at, repo.db.tasks, Used(b)) && Extends(repo.saved, repo.db)
      ensures Accounted(fault, env, m, at, repo.db.tasks, settings)
    {
      hide Base, Accounted, Kept, Extends;
      ghost var before := repo.db;
      var n := repo.CancelQueuedTasks();
      BaseCancel(before, repo.db, settings.maxRetries);
      KeptCancel(env, profile, m, at, at, before.tasks, repo.db.tasks, Used(b));
      AccountedCancel(fault, env, m, at, before.tasks, repo.db.tasks);
      ExtendsCancel(before, repo.db);
      ExtendsTransitive(repo.saved, before, repo.db);
    }

    /** A paused run whose only approval, for task p, was just granted in this session. */
    ghost predicate Resumable(db: Db, p: nat) {
      && p < |db.tasks| && AtTask(db, p + 1) && db.tasks[p].status == TaskStatus.Succeeded
      && Holder(db.handoffs) == db.tasks[p].agent
      && db.approvals == [Approval(p, ApprovalStatus.Approved)] && db.actions == 1
      && Starts(db.tasks) == db.run.stepsUsed <= settings.maxSteps == db.run.maximumSteps
      && db.run.llmCallsUsed <= settings.maxLlmCalls && db.run.toolCallsUsed <= settings.maxToolCalls
    }

    predicate LastSucceeded(tasks: seq<TaskRow>, p: int, n: nat)
      requires n <= |tasks|
    {
      && 0 <= p < n && tasks[p].status == TaskStatus.Succeeded
      && (forall j :: p < j < n ==> tasks[j].status != TaskStatus.Succeeded)
    }

    /** The agent of the last succeeded task, or the coordinator if there is none. */
    method LastCompletedAgent() returns (agent: string)
      ensures forall p :: LastSucceeded(repo.db.tasks, p, |repo.db.tasks|) ==> agent == repo.db.tasks[p].agent
      ensures (forall j :: 0 <= j < |repo.db.tasks| ==> repo.db.tasks[j].status != TaskStatus.Succeeded)
                ==> agent == "coordinator"
    {
      agent := "coordinator";
      var i := 0;
      while i < |repo.db.tasks|
        invariant i <= |repo.db.tasks|
        invariant forall p :: LastSucceeded(repo.db.tasks, p, i) ==> agent == repo.db.tasks[p].agent
        invariant (forall j :: 0 <= j < i ==> repo.db.tasks[j].status != TaskStatus.Succeeded)
                    ==> agent == "coordinator"
      {
        if repo.db.tasks[i].status == TaskStatus.Succeeded {
          agent := repo.db.tasks[i].agent;
        }
        i := i + 1;
      }
    }

    /** The dependency check on resume looks at the rows alone. */
    method DependencyMissing(i: nat) returns (missing: bool)
      requires i < |repo.db.tasks| && Ordered(repo.db.tasks)
      ensures missing <==> !DepsSucceeded(repo.db.tasks, i)
    {
      hide SucceededSeq;
      var tasks := repo.db.tasks;
      var deps := tasks[i].dependencies;
      var k := 0;
      while k < |deps|
        invariant k <= |deps|
        invariant forall d :: d in deps[..k] ==> SucceededSeq(tasks, d)
      {
        var at := IndexOf(tasks, deps[k]);
        if at.None? {
          NotSucceeded(tasks, deps[k]);
          return true;
        }
        SucceededAt(tasks, at.value);
        if tasks[at.value].status != TaskStatus.Succeeded {
          return true;
        }
        k := k + 1;
      }
      assert deps[..|deps|] == deps;
      return false;
    }

    /** What every step of a resume keeps. */
    ghost predicate Resuming(start: Db, b: RunBudgets.RunBudget, env: Env, m: Meter)
      reads this`waits, repo`db, b
    {
      && Charged(b, env, m) && Tracked(b, env, m) && repo.db.run == start.run
      && ResumeKept(env, m, waits, start, repo.db, settings.maxRetries)
    }

    /** The resume loop stands before task i; up to the pause there is nothing to do. */
    ghost predicate ResumeState(start: Db, i: nat, p: nat, lastAgent: string, b: RunBudgets.RunBudget,
                                env: Env, m: Meter)
      reads this`waits, repo`db, b
    {
      && Resuming(start, b, env, m) && m.from == p + 1 && p < |repo.db.tasks|
      && AtTask(repo.db, Next(i, p))
      && lastAgent == Holder(repo.db.handoffs)
    }

    /** The next task of a resume that may still be run. */
    function Next(i: nat, p: nat): nat {
      if i <= p then p + 1 else i
    }

    lemma ResumeMore(start: Db, before: Db, i: nat, b: RunBudgets.RunBudget, env: Env, m: Meter, at: nat)
      requires i < |before.tasks| == |repo.db.tasks| && ResumeKept(env, m, at, start, before, settings.maxRetries)
      requires OnlyTask(before, repo.db, i) && before.handoffs <= repo.db.handoffs && before.run == start.run
      requires before.tasks[i].status == TaskStatus.Pending && before.tasks[i].attempts == []
      requires SamePlan(before.tasks[i], repo.db.tasks[i]) && Base(repo.db, settings.maxRetries)
      requires LogFollows(repo.db.tasks[i], env, ProfileLimits(Fast).3)
      requires Charged(b, env, m) && Tracked(b, env, m)
      ensures Resuming(start, b, env, m)
    {
      hide Base, Extends, LogFollows, RowsSpan, LateRow;
      ExtendsRow(start, before, repo.db, i);
    }

    /** One turn of the resume loop. */
    method ResumeTask(i: nat, lastAgent: string, env: Env, b: RunBudgets.RunBudget, ghost start: Db, ghost p: nat,
                      ghost m: Meter)
      returns (s: Signal, holder: string)
      requires i < |repo.db.tasks| && ResumeState(start, i, p, lastAgent, b, env, m) && m.start <= waits
      modifies this`waits, repo`db, b`stepsUsed, b`llmCallsUsed, b`toolCallsUsed, b`contextCharacters
      ensures old(waits) <= waits && Resuming(start, b, env, m) && |repo.db.tasks| == |old(repo.db.tasks)|
      ensures s.Raised? ==> s.fault in {RunTimeout, LimitExceeded, NestedApproval, Unexpected, Killed}
      ensures s.Raised? ==> Caused(s.fault, env, m, waits, repo.db.tasks, settings, false)
      ensures s.Fine? ==> ResumeState(start, i + 1, p, holder, b, env, m)
      ensures Smoothly(env, m, waits) ==>
                var run := old(Ahead(Next(i, p), b, env, Fast));
                if s.Fine? then Ahead(Next(i + 1, p), b, env, Fast) == run else s == ResumeEnd(run.stop)
    {
      hide Base, RowOk, Extends, Tracked, DepsSucceeded, LogFollows, RunFrom, Jolted, Overdue, Shape, NoneCancelled,
        TaskForetold, ResumeKept, Exhausted, SomeoneDied, Smoothly;
      holder := lastAgent;
      if repo.db.tasks[i].status !in {TaskStatus.Pending, TaskStatus.Ready} {
        return Fine, holder;
      }
      assert i > p;
      OrderedOf(repo.db);
      PendingRow(repo.db, i);
      ghost var before, at, was := repo.db, waits, TallyOf(b);
      var missing := DependencyMissing(i);
      if missing {
        BlockedFuture(before, i, env, Fast, was);
        s := SkipTask(i, env, b, m);
        SkippedLog(before.tasks[i], env, Fast);
        ResumeMore(start, before, i, b, env, m, at);
        if s.Raised? {
          JoltedCause(s.fault, env, m);
        }
        return;
      }
      var out;
      s, out, holder := RunTask(i, lastAgent, env, b, Fast, m);
      ResumeMore(start, before, i, b, env, m, at);
      if Smoothly(env, m, waits) {
        ReadyFuture(before, i, env, Fast, was, TallyOf(b), s, out.requiresApproval);
      }
      if s.Fine? {
        if out.requiresApproval {
          AsksHere(m, i, out);
          return Raised(NestedApproval), holder;
        }
        NextTask(repo.db, i);
      }
    }

    lemma AsksHere(m: Meter, i: nat, out: TaskResult)
      requires m.from <= i < |repo.db.tasks| && RetryDone(repo.db.tasks[i], out) && out.requiresApproval
      ensures SomeoneAsks(m, repo.db.tasks)
    {
      assert Asked(repo.db.tasks[i]);
    }

    lemma ResumedInv(db: Db, done: Db, p: nat, stepsUsed: nat)
      requires AtTask(db, |db.tasks|) && stepsUsed == Starts(db.tasks) <= settings.maxSteps
      requires p < |db.tasks| && db.tasks[p].status == TaskStatus.Succeeded
      requires db.approvals == [Approval(p, ApprovalStatus.Approved)] && db.actions == 1
      requires db.run.maximumSteps == settings.maxSteps
      requires done == db.(run := done.run)
      requires done.run == Moved(db.run.(stepsUsed := stepsUsed, llmCallsUsed := done.run.llmCallsUsed,
                                 toolCallsUsed := done.run.toolCallsUsed), RunStatus.Completed)
      requires done.run.llmCallsUsed <= settings.maxLlmCalls && done.run.toolCallsUsed <= settings.maxToolCalls
      ensures Inv(done, settings)
    {
      SameTasksBase(db, done, settings.maxRetries);
    }

    lemma ResumeStart(start: Db, p: nat, b: RunBudgets.RunBudget, env: Env, m: Meter)
      requires Resumable(start, p) && repo.db == start
      requires m == ResumeMeter(settings, start, m.start, p) && m.start <= waits && Capped(b, env, m)
      requires b.stepsUsed == start.run.stepsUsed && Used(b) == m.calls
      ensures ResumeState(start, 0, p, Holder(start.handoffs), b, env, m)
    {
      hide Base, RowOk, Tracked, Follows;
      forall j | p < j < |start.tasks|
        ensures start.tasks[j].attempts == []
      {
        RowFacts(start, j, settings.maxRetries);
        PendingUntouched(start.tasks[j], settings.maxRetries);
      }
      StartTracked(b, env, m);
      JustCommitted(start);
    }

    /** After the resume loop: save the counters and complete the run. */
    method FinishResume(env: Env, b: RunBudgets.RunBudget, ghost start: Db, ghost p: nat, ghost m: Meter)
      returns (s: Signal)
      requires Resumable(start, p) && Resuming(start, b, env, m) && AtTask(repo.db, |repo.db.tasks|)
      modifies this`waits, repo`db
      ensures s.Raised? ==> s.fault in {Unexpected, Killed} && Jolted(s.fault, env, waits)
      ensures waits == old(waits) + 1 && Counted(repo.db.run, TallyOf(b))
      ensures Inv(repo.db, settings) && repo.db == old(repo.db).(run := repo.db.run)
      ensures repo.db.run.status == RunStatus.Completed
      ensures ResumeKept(env, m, waits, start, repo.db, settings.maxRetries)
      ensures RowsSpan(env, repo.db.tasks, m.from).Charged(m.calls, Used(b))
    {
      hide Base, Inv, Overdue, LogFollows, RowsSpan, LateRow;
      ghost var ready, at := repo.db, waits;
      assert Grown(start.tasks[p], ready.tasks[p]);
      SaveCounters(b);
      var moved := repo.TransitionRun(RunStatus.Completed);
      assert moved.Fine?;
      ResumedInv(ready, repo.db, p, b.stepsUsed);
      s := AddEvent(env);
      SameTasksBase(ready, repo.db, settings.maxRetries);
      ExtendsRun(start, ready, repo.db);
      LateGrows(env, m, ready.tasks, at, waits);
    }

    /** resume_after_approval: run what is unfinished and complete the run. Every exception is
        accounted for, and a smooth resume ends as foretold. */
    method ResumeAfterApproval(env: Env, ghost p: nat) returns (s: Signal)
      requires Resumable(repo.db, p)
      modifies this`waits, repo`db
      ensures old(waits) < waits
      ensures var m := ResumeMeter(settings, old(repo.db), old(waits), p);
              var run := ForetellResume(env, old(repo.db), p, settings);
              && ResumeKept(env, m, waits, old(repo.db), repo.db, settings.maxRetries)
              && (s.Raised? ==> ResumeBroke(s.fault, env, m, waits, old(repo.db), repo.db, settings))
              && (Smoothly(env, m, waits) ==> s == ResumeEnd(run.stop))
              && (Smoothly(env, m, waits) && s.Fine? ==>
                    && repo.db.tasks == run.tasks && repo.db.handoffs == run.handoffs
                    && Counted(repo.db.run, run.tally))
              && (s.Fine? ==>
                    RowsSpan(env, repo.db.tasks, m.from)
                    .Charged(m.calls, Calls(repo.db.run.llmCallsUsed, repo.db.run.toolCallsUsed)))
      ensures s.Fine? ==> Inv(repo.db, settings) && repo.db.run.status == RunStatus.Completed
    {
      hide Base, Inv, Extends, RunFrom, Caused, RowsSpan, LateRows, LogFollows, AtTask, Smoothly, Holder, Starts,
        ResumeKept, Tracked;
      ghost var m := ResumeMeter(settings, repo.db, waits, p);
      var timeout := if settings.interactiveFastMode then Min(settings.runTimeout, 90000) else settings.runTimeout;
      var run := repo.db.run;
      var b := new RunBudgets.RunBudget(run.maximumSteps, settings.maxLlmCalls, settings.maxToolCalls,
        settings.contextMaxCharacters, timeout, Clock(env, waits), run.stepsUsed, run.llmCallsUsed, run.toolCallsUsed);
      ghost var start := repo.db;
      ObserveEnvelope(env, b);
      ResumeStart(start, p, b, env, m);
      ghost var foretold := ForetellResume(env, start, p, settings);
      var lastAgent := LastCompletedAgent();
      GrantedAgent(p, lastAgent);
      var i := 0;
      while i < |repo.db.tasks|
        invariant i <= |repo.db.tasks| == |start.tasks| && m.start < waits
        invariant ResumeState(start, i, p, lastAgent, b, env, m)
        invariant Smoothly(env, m, waits) ==> Ahead(Next(i, p), b, env, Fast) == foretold
      {
        ghost var at := waits;
        s, lastAgent := ResumeTask(i, lastAgent, env, b, start, p, m);
        SmoothBefore(env, m, at, waits);
        if s.Raised? {
          return;
        }
        i := i + 1;
      }
      NothingAhead(b, env, Fast);
      ghost var at := waits;
      s := FinishResume(env, b, start, p, m);
      SmoothBefore(env, m, at, waits);
      if s.Raised? {
        JoltedCause(s.fault, env, m);
      }
    }

    /** The granted task is the last that succeeded. */
    lemma GrantedAgent(p: nat, agent: string)
      requires Resumable(repo.db, p)
      requires forall q :: LastSucceeded(repo.db.tasks, q, |repo.db.tasks|) ==> agent == repo.db.tasks[q].agent
      ensures agent == Holder(repo.db.handoffs)
    {
      hide Base;
      assert LastSucceeded(repo.db.tasks, p, |repo.db.tasks|);
    }
  }
}
