/** Everything outside the run engine, and what may be blamed on it: the replies of the
    specialists, the clock, cancellations and crashes, and for every exception the condition
    on them that its occurrence implies. */
module RunEnvironment {
  import opened Signals
  import opened AgentStates
  import opened RunStore
  import opened RunInvariant
  import Failures
  import AgentContext
  import Plans

  /** A specialist's AgentTaskResult, as far as the engine looks at it. */
  datatype Result = Result(
    success: bool, requiresApproval: bool, errorCode: Option<Failures.Code>, retryable: bool,
    agentName: string, hasContent: bool, llmCalls: nat, toolCalls: nat)

  /** How the dispatched call ends. */
  datatype Reply =
    | NoReply                        // asyncio.wait_for gave up
    | Throws(error: Failures.Error)
    | Returns(result: Result)
    | Dies                           // the task is cancelled from outside

  datatype PlanReply = Planned(tasks: seq<Plans.PlanTask>) | PlanFails(fault: Fault)
  datatype ReviewReply = Passed | Blocked | ReviewFails(fault: Fault)
  datatype Trouble = Smooth | Crash | Kill

  /** The environment of one call into the engine. `dispatch` is indexed by task sequence
      and attempt, the others by the engine's count of waits. */
  datatype Env = Env(
    plan: PlanReply, review: ReviewReply, dispatch: (int, nat) -> Reply,
    delay: nat -> nat, cancelled: nat -> bool, trouble: nat -> Trouble,
    material: nat -> AgentContext.Envelope)

  /** Only the repository raises transition errors, and only validated plans come back;
      validation rejects an empty plan. */
  predicate EnvOk(env: Env) {
    && (env.plan.Planned? ==> env.plan.tasks != [] && Plans.Sequenced(env.plan.tasks))
    && (env.plan.PlanFails? ==> env.plan.fault !in {BadTransition, NestedApproval})
    && (env.review.ReviewFails? ==> env.review.fault !in {BadTransition, NestedApproval})
  }

  datatype Profile = Fast | Balanced | Deep

  /** Run, specialist and synthesis limits in milliseconds and the timeout-retry policy. */
  function ProfileLimits(p: Profile): (nat, nat, nat, bool) {
    match p
    case Fast => (90000, 35000, 20000, false)
    case Balanced => (150000, 60000, 30000, true)
    case Deep => (240000, 90000, 45000, true)
  }

  /** The deadline of an execution, and of a resume after an approval. */
  function RunLimit(st: Settings, profile: Profile): nat {
    Min(st.runTimeout, ProfileLimits(profile).0)
  }

  function ResumeLimit(st: Settings): nat {
    if st.interactiveFastMode then Min(st.runTimeout, 90000) else st.runTimeout
  }

  // --- How one attempt ends ---------------------------------------------------------

  /** _result_to_dict: an error code spoils success unless approval is asked for. */
  predicate MappedSuccess(r: Result) {
    r.success && !(Failures.Given(r.errorCode) && !r.requiresApproval)
  }

  function ResultCode(r: Result): Failures.Code {
    if Failures.Given(r.errorCode) then r.errorCode.value else Failures.OtherCode("task_failed")
  }

  /** The attempt a returned result amounts to. */
  function ResultEnd(r: Result): Attempt {
    var speaks := r.agentName == CONVERSATION && r.hasContent;
    if r.requiresApproval then AskedApproval
    else if MappedSuccess(r) then Answered(speaks)
    else Refused(Failures.Classify(None, Some(ResultCode(r)), Some(r.retryable)).retryable, speaks)
  }

  /** The exception handlers in their order. The first one also catches a TimeoutError the
      specialist raises itself, so that it ends the task like the engine's own timeout. */
  function ErrorEnd(e: Failures.Error, retryTimeouts: bool): Attempt {
    if e.kind.BuiltinTimeoutError? then TimeLimit(retryTimeouts)
    else if e.kind.LimitExceededError? then LimitHit
    else Errored(Failures.Classify(Some(e), None, None).retryable, false)
  }

  /** The budget's own deadline error, raised around an attempt of a late run. */
  const LATE := Errored(true, true)

  /** How an attempt ends when the run's deadline has not passed; `used` are the calls
      charged before the attempt. */
  function AttemptEnd(reply: Reply, retryTimeouts: bool, used: Calls, cap: Calls): Attempt
    requires !reply.Dies?
  {
    match reply
    case NoReply => TimeLimit(retryTimeouts)
    case Throws(e) => ErrorEnd(e, retryTimeouts)
    case Returns(r) => if Overspends(reply, used.Plus(CallsOf(reply)), cap) then LimitHit else ResultEnd(r)
  }

  /** What the log may say about a reply: what it amounts to, a limit if it reported calls, or
      the deadline error of a late run. */
  predicate Follows(reply: Reply, retryTimeouts: bool, a: Attempt) {
    || a == LATE
    || (match reply
        case NoReply => a == TimeLimit(retryTimeouts)
        case Throws(e) => a == ErrorEnd(e, retryTimeouts)
        case Returns(r) => a == ResultEnd(r) || (a == LimitHit && CallsOf(reply) != NO_CALLS)
        case Dies => false)
  }

  /** Every closed attempt of a row follows the reply the environment gave to it. */
  predicate LogFollows(t: TaskRow, env: Env, retryTimeouts: bool) {
    forall k :: 0 <= k < |t.attempts| && !t.attempts[k].Open? ==>
      Follows(env.dispatch(t.sequence, k), retryTimeouts, t.attempts[k])
  }

  /** Every attempt of the run followed the reply the environment gave to it. */
  predicate Logged(tasks: seq<TaskRow>, env: Env, profile: Profile) {
    forall j :: 0 <= j < |tasks| ==> LogFollows(tasks[j], env, ProfileLimits(profile).3)
  }

  // --- The rows of a plan -----------------------------------------------------------

  function RowsOf(plan: seq<Plans.PlanTask>): seq<TaskRow> {
    seq(|plan|, k requires 0 <= k < |plan| =>
      TaskRow(plan[k].sequence, plan[k].agent, plan[k].dependencies, plan[k].maximumRetries,
              TaskStatus.Pending, 0, [], 0))
  }

  /** The columns create_task copies from the planned task. */
  predicate StandsFor(row: TaskRow, t: Plans.PlanTask) {
    && row.sequence == t.sequence && row.agent == t.agent && row.dependencies == t.dependencies
    && row.maximumRetries == t.maximumRetries
  }

  /** The rows are the tasks of the plan, one for one, in the order of their sequences. */
  ghost predicate CarriesPlan(rows: seq<TaskRow>, plan: seq<Plans.PlanTask>) {
    && |rows| == |plan|
    && (forall i, j :: 0 <= i < j < |rows| ==> rows[i].sequence < rows[j].sequence)
    && (forall i :: 0 <= i < |rows| ==> exists t :: t in plan && StandsFor(rows[i], t))
    && (forall t :: t in plan ==> exists i :: 0 <= i < |rows| && StandsFor(rows[i], t))
  }

  lemma RowsCarryPlan(env: Env, rows: seq<TaskRow>)
    requires EnvOk(env) && env.plan.Planned? && SameRows(rows, PlannedRows(env))
    ensures CarriesPlan(rows, env.plan.tasks)
  {
    var plan, sorted := env.plan.tasks, Plans.Sorted(env.plan.tasks);
    Plans.SortedIncreasing(plan);
    forall i | 0 <= i < |rows|
      ensures sorted[i] in plan && StandsFor(rows[i], sorted[i])
    {
      assert SamePlan(rows[i], PlannedRows(env)[i]);
      assert sorted[i] in sorted;
    }
    forall t | t in plan
      ensures exists i :: 0 <= i < |rows| && StandsFor(rows[i], t)
    {
      var i :| 0 <= i < |sorted| && sorted[i] == t;
      assert StandsFor(rows[i], t);
    }
  }

  lemma RowsOrdered(sorted: seq<Plans.PlanTask>)
    requires Plans.Increasing(sorted)
    requires forall x, d :: x in sorted && d in x.dependencies ==> d < x.sequence
    ensures Ordered(RowsOf(sorted))
  {
    var rows := RowsOf(sorted);
    forall i, d | 0 <= i < |rows| && d in rows[i].dependencies
      ensures d < rows[i].sequence
    {
      assert sorted[i] in sorted && d in sorted[i].dependencies;
    }
  }

  /** The rows the plan of this environment gives, in the order in which they are visited. */
  function PlannedRows(env: Env): seq<TaskRow> {
    if env.plan.Planned? then RowsOf(Plans.Sorted(env.plan.tasks)) else []
  }

  // --- Time -------------------------------------------------------------------------

  /** What the clock shows at a wait: every wait, for whatever it was, let time pass. */
  function Clock(env: Env, wait: nat): nat {
    if wait == 0 then 0 else Clock(env, wait - 1) + env.delay(wait)
  }

  lemma {:induction false} ClockGrows(env: Env, a: nat, b: nat)
    requires a <= b
    ensures Clock(env, a) <= Clock(env, b)
    decreases b
  {
    if a < b {
      ClockGrows(env, a, b - 1);
    }
  }

  // --- Model and tool calls ---------------------------------------------------------

  datatype Calls = Calls(llm: nat, tools: nat) {
    function Plus(more: Calls): Calls {
      Calls(llm + more.llm, tools + more.tools)
    }

    predicate Within(cap: Calls) {
      llm <= cap.llm && tools <= cap.tools
    }
  }

  const NO_CALLS := Calls(0, 0)

  function CallCap(st: Settings): Calls {
    Calls(st.maxLlmCalls, st.maxToolCalls)
  }

  function CallsOf(reply: Reply): Calls {
    if reply.Returns? then Calls(reply.result.llmCalls, reply.result.toolCalls) else NO_CALLS
  }

  /** The calls reported by the first n attempts of a task. */
  function AttemptCalls(env: Env, sequence: int, n: nat): Calls {
    if n == 0 then NO_CALLS
    else AttemptCalls(env, sequence, n - 1).Plus(CallsOf(env.dispatch(sequence, n - 1)))
  }

  /** The attempt ended with a result, so all calls it reported were charged. */
  predicate Counts(a: Attempt) {
    a.Refused? || a.Answered? || a.AskedApproval?
  }

  /** The calls of the attempts that ended with a result, and of all attempts: what is charged
      lies between them. */
  datatype Span = Span(least: Calls, most: Calls) {
    function Plus(more: Span): Span {
      Span(least.Plus(more.least), most.Plus(more.most))
    }

    /** `used` is what was charged, starting from `base`. */
    predicate Charged(base: Calls, used: Calls) {
      base.Plus(least).Within(used) && used.Within(base.Plus(most))
    }
  }

  const NOTHING := Span(NO_CALLS, NO_CALLS)

  function AttemptSpan(reply: Reply, a: Attempt): Span {
    Span(if Counts(a) then CallsOf(reply) else NO_CALLS, CallsOf(reply))
  }

  function AttemptsSpan(env: Env, sequence: int, attempts: seq<Attempt>): Span {
    if attempts == [] then NOTHING
    else
      var n := |attempts| - 1;
      AttemptsSpan(env, sequence, attempts[..n]).Plus(AttemptSpan(env.dispatch(sequence, n), attempts[n]))
  }

  function RowSpan(env: Env, t: TaskRow): Span {
    AttemptsSpan(env, t.sequence, t.attempts)
  }

  /** The same for all attempts of the rows from `from` on. */
  function RowsSpan(env: Env, tasks: seq<TaskRow>, from: nat): Span {
    if |tasks| <= from then NOTHING
    else RowsSpan(env, tasks[..|tasks| - 1], from).Plus(RowSpan(env, Last(tasks)))
  }

  /** A reply that runs into a limit: it raises one, or with it a counter is above its cap. */
  predicate Overspends(reply: Reply, counted: Calls, cap: Calls) {
    match reply
    case Throws(e) => e.kind.LimitExceededError?
    case Returns(r) => (r.llmCalls > 0 && counted.llm > cap.llm) || (r.toolCalls > 0 && counted.tools > cap.tools)
    case _ => false
  }

  lemma {:induction false} AttemptCallsGrow(env: Env, sequence: int, a: nat, b: nat)
    requires a <= b
    ensures AttemptCalls(env, sequence, a).Within(AttemptCalls(env, sequence, b))
    decreases b
  {
    if a < b {
      AttemptCallsGrow(env, sequence, a, b - 1);
    }
  }

  lemma {:induction false} AttemptsMost(env: Env, sequence: int, attempts: seq<Attempt>)
    ensures AttemptsSpan(env, sequence, attempts).most == AttemptCalls(env, sequence, |attempts|)
    decreases |attempts|
  {
    if attempts != [] {
      AttemptsMost(env, sequence, attempts[..|attempts| - 1]);
    }
  }

  lemma AttemptsSpanMore(env: Env, sequence: int, attempts: seq<Attempt>, a: Attempt)
    ensures AttemptsSpan(env, sequence, attempts + [a])
            == AttemptsSpan(env, sequence, attempts).Plus(AttemptSpan(env.dispatch(sequence, |attempts|), a))
  {
    assert (attempts + [a])[..|attempts|] == attempts;
  }

  lemma Untouched(env: Env, t: TaskRow)
    requires t.attempts == []
    ensures RowSpan(env, t) == NOTHING
  {
  }

  lemma AddNothing(span: Span, more: Span)
    requires more == NOTHING
    ensures span.Plus(more) == span
  {
  }

  lemma NothingCharged(span: Span, base: Calls, used: Calls)
    requires span == NOTHING && base == used
    ensures span.Charged(base, used)
  {
  }

  lemma RowsSpanLast(env: Env, tasks: seq<TaskRow>, from: nat)
    requires |tasks| > from
    ensures RowsSpan(env, tasks, from) == RowsSpan(env, tasks[..|tasks| - 1], from).Plus(RowSpan(env, Last(tasks)))
  {
  }

  lemma {:induction false} RowsSpanUpdate(env: Env, tasks: seq<TaskRow>, from: nat, i: nat, t: TaskRow)
    requires from <= i < |tasks| && tasks[i].attempts == [] && t.sequence == tasks[i].sequence
    ensures RowsSpan(env, tasks[i := t], from) == RowsSpan(env, tasks, from).Plus(RowSpan(env, t))
    decreases |tasks|
  {
    hide RowsSpan, AttemptsSpan;
    var updated, n := tasks[i := t], |tasks| - 1;
    RowsSpanLast(env, tasks, from);
    RowsSpanLast(env, updated, from);
    if i == n {
      assert updated[..n] == tasks[..n];
      Untouched(env, tasks[n]);
    } else {
      assert updated[..n] == tasks[..n][i := t];
      RowsSpanUpdate(env, tasks[..n], from, i, t);
    }
  }

  lemma {:induction false} RowsSpanSame(env: Env, a: seq<TaskRow>, b: seq<TaskRow>, from: nat)
    requires |a| == |b|
    requires forall j :: 0 <= j < |a| ==> a[j].sequence == b[j].sequence && a[j].attempts == b[j].attempts
    ensures RowsSpan(env, a, from) == RowsSpan(env, b, from)
    decreases |a|
  {
    hide AttemptsSpan;
    if |a| > from {
      hide RowsSpan;
      RowsSpanLast(env, a, from);
      RowsSpanLast(env, b, from);
      RowsSpanSame(env, a[..|a| - 1], b[..|b| - 1], from);
    }
  }

  lemma {:induction false} RowsSpanNone(env: Env, tasks: seq<TaskRow>, from: nat)
    requires forall j :: from <= j < |tasks| ==> tasks[j].attempts == []
    ensures RowsSpan(env, tasks, from) == NOTHING
    decreases |tasks|
  {
    hide AttemptsSpan;
    if |tasks| > from {
      hide RowsSpan;
      var front, last := tasks[..|tasks| - 1], Last(tasks);
      RowsSpanLast(env, tasks, from);
      Untouched(env, last);
      RowsSpanNone(env, front, from);
      AddNothing(RowsSpan(env, front, from), RowSpan(env, last));
    }
  }

  // --- What an exception points to --------------------------------------------------

  /** What one call into the engine starts from: its first wait, its time limit, the first row
      it works on, the calls charged before it, and the rows of the plan. */
  datatype Meter = Meter(start: nat, limit: nat, from: nat, calls: Calls, planned: seq<TaskRow>)

  /** Between the start and the wait `at` more time passed than the limit allows. */
  predicate Overdue(env: Env, m: Meter, at: nat) {
    Clock(env, at) > Clock(env, m.start) + m.limit
  }

  /** Up to the wait `at` nothing crashed and the deadline did not pass. */
  ghost predicate Smoothly(env: Env, m: Meter, at: nat) {
    !Overdue(env, m, at) && forall k :: m.start < k <= at ==> env.trouble(k) == Smooth
  }

  lemma SmoothBefore(env: Env, m: Meter, a: nat, b: nat)
    requires a <= b
    ensures Smoothly(env, m, b) ==> Smoothly(env, m, a)
    ensures Overdue(env, m, a) ==> Overdue(env, m, b)
  {
    ClockGrows(env, a, b);
  }

  /** Deadline errors stand only in the rows of a late run. */
  predicate LateRow(env: Env, m: Meter, t: TaskRow, at: nat) {
    LATE in t.attempts ==> Overdue(env, m, at)
  }

  predicate LateRows(env: Env, m: Meter, tasks: seq<TaskRow>, at: nat) {
    forall j :: m.from <= j < |tasks| ==> LateRow(env, m, tasks[j], at)
  }

  lemma LateGrows(env: Env, m: Meter, tasks: seq<TaskRow>, a: nat, b: nat)
    requires LateRows(env, m, tasks, a) && a <= b
    ensures LateRows(env, m, tasks, b)
  {
    SmoothBefore(env, m, a, b);
  }

  /** What an execution starts from. */
  function ExecutionMeter(st: Settings, env: Env, start: nat, profile: Profile): Meter {
    Meter(start, RunLimit(st, profile), 0, NO_CALLS, PlannedRows(env))
  }

  /** What a resume starts from: the granted run, and the rows behind the pause p. */
  function ResumeMeter(st: Settings, db: Db, start: nat, p: nat): Meter {
    Meter(start, ResumeLimit(st), p + 1, Calls(db.run.llmCallsUsed, db.run.toolCallsUsed), db.tasks)
  }

  predicate AsksApproval(reply: Reply) {
    reply.Returns? && reply.result.requiresApproval
  }

  /** Some attempt of the task that its retries allow is killed, or asks for approval. */
  ghost predicate MayDie(env: Env, t: TaskRow) {
    exists k: nat :: k <= t.maximumRetries && env.dispatch(t.sequence, k).Dies?
  }

  ghost predicate MayAsk(env: Env, t: TaskRow) {
    exists k: nat :: k <= t.maximumRetries && AsksApproval(env.dispatch(t.sequence, k))
  }

  ghost predicate SomeMayDie(env: Env, m: Meter) {
    exists j: nat :: m.from <= j < |m.planned| && MayDie(env, m.planned[j])
  }

  ghost predicate SomeMayAsk(env: Env, m: Meter) {
    exists j: nat :: m.from <= j < |m.planned| && MayAsk(env, m.planned[j])
  }

  /** The last attempt of the row ran into a limit, with so many calls counted by then. */
  predicate Hit(env: Env, t: TaskRow, counted: Calls, cap: Calls) {
    && t.attempts != [] && Last(t.attempts) == LimitHit
    && Overspends(env.dispatch(t.sequence, |t.attempts| - 1), counted, cap)
  }

  /** The row was still to be started, for the first time or again; a failure of the run has
      cancelled it since. */
  predicate Startable(t: TaskRow, globalRetries: nat) {
    && t.status in {TaskStatus.Pending, TaskStatus.Ready, TaskStatus.Cancelled}
    && |t.attempts| <= RetryCap(t, globalRetries)
  }

  ghost predicate Struck(env: Env, m: Meter, tasks: seq<TaskRow>, cap: Calls) {
    exists j: nat :: m.from <= j < |tasks| && Hit(env, tasks[j], m.calls.Plus(RowsSpan(env, tasks, m.from).most), cap)
  }

  ghost predicate SomeStartable(m: Meter, tasks: seq<TaskRow>, globalRetries: nat) {
    exists j: nat :: m.from <= j < |tasks| && Startable(tasks[j], globalRetries)
  }

  /** A limit was met: by the last attempt of a row, or because all steps are used although
      some row was still to be started. */
  ghost predicate Exhausted(env: Env, m: Meter, tasks: seq<TaskRow>, st: Settings) {
    || Struck(env, m, tasks, CallCap(st))
    || (Starts(tasks) == st.maxSteps && SomeStartable(m, tasks, st.maxRetries))
  }

  /** Every task was settled: it was started and came to an end, or a dependency of it did
      not succeed. */
  predicate WorkedOff(tasks: seq<TaskRow>) {
    forall j :: 0 <= j < |tasks| ==>
      if tasks[j].attempts == [] then !DepsSucceeded(tasks, j)
      else tasks[j].status in {TaskStatus.Succeeded, TaskStatus.Failed, TaskStatus.TimedOut}
  }

  /** All tasks are settled and none of them left a text. */
  predicate Silent(tasks: seq<TaskRow>) {
    WorkedOff(tasks) && !SomeoneSpoke(tasks)
  }

  /** A cancellation, a failing callback or the end of the process at the wait `at`. */
  predicate Jolted(fault: Fault, env: Env, at: nat) {
    match fault
    case Cancelled => env.cancelled(at)
    case Unexpected => env.trouble(at) == Crash
    case Killed => env.trouble(at) == Kill
    case _ => false
  }

  /** The fault comes from planning or from the review. */
  ghost predicate PlanCaused(fault: Fault, env: Env) {
    || env.plan == PlanFails(fault)
    || env.review == ReviewFails(fault)
    || (fault == SafetyBlocked && env.review.Blocked?)
  }

  /** The task was broken off from outside in the middle of an attempt. */
  predicate Died(env: Env, t: TaskRow) {
    && t.status == TaskStatus.Running && t.attempts != [] && Last(t.attempts).Open?
    && env.dispatch(t.sequence, |t.attempts| - 1).Dies?
  }

  ghost predicate SomeoneDied(env: Env, m: Meter, tasks: seq<TaskRow>) {
    exists j: nat :: m.from <= j < |tasks| && Died(env, tasks[j])
  }

  ghost predicate SomeoneAsks(m: Meter, tasks: seq<TaskRow>) {
    exists j: nat :: m.from <= j < |tasks| && tasks[j].status == TaskStatus.Running && Asked(tasks[j])
  }

  /** What an exception in the task loop points to that was raised at the wait `at`, when the
      rows stood like this; at the end of the loop a silent run raises one of two more. */
  ghost predicate Caused(fault: Fault, env: Env, m: Meter, at: nat, tasks: seq<TaskRow>, st: Settings, atEnd: bool) {
    || Jolted(fault, env, at)
    || (match fault
        case RunTimeout => Overdue(env, m, at)
        case LimitExceeded => Exhausted(env, m, tasks, st) || (atEnd && Starts(tasks) == st.maxSteps && Silent(tasks))
        case Unexpected => atEnd && Silent(tasks)
        case Killed => SomeoneDied(env, m, tasks)
        case NestedApproval => SomeoneAsks(m, tasks)
        case _ => false)
  }

  /** What a single row contributes to an exhausted budget, with so many calls charged before
      its first attempt. */
  ghost predicate RowExhausted(env: Env, t: TaskRow, base: Calls, steps: nat, st: Settings) {
    || Hit(env, t, base.Plus(RowSpan(env, t).most), CallCap(st))
    || (steps == st.maxSteps && Startable(t, st.maxRetries))
  }

  lemma RowExhausts(env: Env, m: Meter, tasks: seq<TaskRow>, i: nat, t: TaskRow, base: Calls, st: Settings)
    requires m.from <= i < |tasks| && tasks[i].attempts == [] && t.sequence == tasks[i].sequence
    requires base.Within(m.calls.Plus(RowsSpan(env, tasks, m.from).most))
    requires RowExhausted(env, t, base, Starts(tasks[i := t]), st)
    ensures Exhausted(env, m, tasks[i := t], st)
  {
    var updated := tasks[i := t];
    RowsSpanUpdate(env, tasks, m.from, i, t);
    assert updated[i] == t;
    if Hit(env, t, base.Plus(RowSpan(env, t).most), CallCap(st)) {
      assert Hit(env, updated[i], m.calls.Plus(RowsSpan(env, updated, m.from).most), CallCap(st));
    } else {
      assert Startable(updated[i], st.maxRetries);
    }
  }

  /** Cancelling the open rows changes none of these. */
  lemma SilentCancel(before: seq<TaskRow>, after: seq<TaskRow>)
    requires CancelledRows(before, after) && Silent(before)
    ensures Silent(after)
  {
    forall j | 0 <= j < |after|
      ensures DepsSucceeded(after, j) ==> DepsSucceeded(before, j)
    {
      forall d | d in before[j].dependencies
        ensures SucceededSeq(after, d) ==> SucceededSeq(before, d)
      {
        CancelKeepsSuccess(before, after, d);
      }
    }
    forall j | 0 <= j < |after|
      ensures !Spoke(after[j])
    {
      assert !Spoke(before[j]);
    }
  }

  lemma ExhaustedCancel(env: Env, m: Meter, before: seq<TaskRow>, after: seq<TaskRow>, st: Settings)
    requires CancelledRows(before, after) && Exhausted(env, m, before, st)
    ensures Exhausted(env, m, after, st)
  {
    hide Hit;
    StartsSame(before, after);
    RowsSpanSame(env, before, after, m.from);
    if Struck(env, m, before, CallCap(st)) {
      var counted := m.calls.Plus(RowsSpan(env, before, m.from).most);
      var j: nat :| m.from <= j < |before| && Hit(env, before[j], counted, CallCap(st));
      SameHit(env, before[j], after[j], counted, CallCap(st));
    } else {
      var j: nat :| m.from <= j < |before| && Startable(before[j], st.maxRetries);
      assert Startable(after[j], st.maxRetries);
    }
  }

  lemma SameHit(env: Env, a: TaskRow, b: TaskRow, counted: Calls, cap: Calls)
    requires Hit(env, a, counted, cap) && b.sequence == a.sequence && b.attempts == a.attempts
    ensures Hit(env, b, counted, cap)
  {
  }

  // --- What a call leaves behind ----------------------------------------------------

  /** The rows are in accord with the replies, no deadline error stands in them unless the run
      is late, and all calls of attempts that ended with a result are counted. */
  predicate Kept(env: Env, profile: Profile, m: Meter, at: nat, rows: seq<TaskRow>, counted: Calls) {
    && Logged(rows, env, profile) && LateRows(env, m, rows, at)
    && m.calls.Plus(RowsSpan(env, rows, m.from).least).Within(counted)
  }

  lemma {:induction false} AttemptsSpanGrow(env: Env, sequence: int, a: seq<Attempt>, b: seq<Attempt>)
    requires a <= b
    ensures AttemptsSpan(env, sequence, a).least.Within(AttemptsSpan(env, sequence, b).least)
    decreases |b|
  {
    if |a| < |b| {
      assert a <= b[..|b| - 1];
      AttemptsSpanGrow(env, sequence, a, b[..|b| - 1]);
    } else {
      assert a == b;
    }
  }

  lemma {:induction false} RowsSpanGrow(env: Env, a: seq<TaskRow>, b: seq<TaskRow>, from: nat)
    requires GrownRows(a, b)
    ensures RowsSpan(env, a, from).least.Within(RowsSpan(env, b, from).least)
    decreases |a|
  {
    hide AttemptsSpan;
    if |a| > from {
      hide RowsSpan;
      RowsSpanLast(env, a, from);
      RowsSpanLast(env, b, from);
      assert Grown(Last(a), Last(b));
      AttemptsSpanGrow(env, Last(a).sequence, Last(a).attempts, Last(b).attempts);
      RowsSpanGrow(env, a[..|a| - 1], b[..|b| - 1], from);
    }
  }

  /** What holds of the session's rows holds of the rows it started from. */
  lemma KeptBefore(env: Env, profile: Profile, m: Meter, at: nat, saved: seq<TaskRow>, rows: seq<TaskRow>,
                   counted: Calls)
    requires Kept(env, profile, m, at, rows, counted) && GrownRows(saved, rows) && Logged(saved, env, profile)
    ensures Kept(env, profile, m, at, saved, counted)
  {
    hide RowsSpan, Logged, Overdue;
    RowsSpanGrow(env, saved, rows, m.from);
    forall j | m.from <= j < |saved|
      ensures LateRow(env, m, saved[j], at)
    {
      assert Grown(saved[j], rows[j]) && LateRow(env, m, rows[j], at);
    }
  }

  lemma KeptCancel(env: Env, profile: Profile, m: Meter, a: nat, b: nat, before: seq<TaskRow>, after: seq<TaskRow>,
                   counted: Calls)
    requires Kept(env, profile, m, a, before, counted) && CancelledRows(before, after) && a <= b
    ensures Kept(env, profile, m, b, after, counted)
  {
    hide RowsSpan, Overdue, Follows;
    RowsSpanSame(env, before, after, m.from);
    LateGrows(env, m, before, a, b);
    forall j | 0 <= j < |after|
      ensures LogFollows(after[j], env, ProfileLimits(profile).3)
      ensures j >= m.from ==> LateRow(env, m, after[j], b)
    {
      assert LogFollows(before[j], env, ProfileLimits(profile).3);
      assert j >= m.from ==> LateRow(env, m, before[j], b);
    }
  }

  // --- Budgets that suffice ---------------------------------------------------------

  /** The most starts and calls the rows from `from` on can need. */
  function StepDemand(rows: seq<TaskRow>, from: nat, globalRetries: nat): nat {
    if |rows| <= from then 0
    else StepDemand(rows[..|rows| - 1], from, globalRetries) + 1 + RetryCap(Last(rows), globalRetries)
  }

  function CallDemand(env: Env, rows: seq<TaskRow>, from: nat, globalRetries: nat): Calls {
    if |rows| <= from then NO_CALLS
    else
      var last := Last(rows);
      CallDemand(env, rows[..|rows| - 1], from, globalRetries)
      .Plus(AttemptCalls(env, last.sequence, 1 + RetryCap(last, globalRetries)))
  }

  /** No attempt the retries allow raises a limit itself. */
  ghost predicate NoLimitRaised(env: Env, m: Meter, globalRetries: nat) {
    forall j: nat, k: nat ::
      m.from <= j < |m.planned| && k <= RetryCap(m.planned[j], globalRetries) ==>
        !RaisesLimit(env.dispatch(m.planned[j].sequence, k))
  }

  predicate RaisesLimit(reply: Reply) {
    reply.Throws? && reply.error.kind.LimitExceededError?
  }

  /** With so many steps used, the budgets suffice whatever is retried. */
  ghost predicate Ample(env: Env, m: Meter, steps: nat, st: Settings) {
    && steps + StepDemand(m.planned, m.from, st.maxRetries) <= st.maxSteps
    && m.calls.Plus(CallDemand(env, m.planned, m.from, st.maxRetries)).Within(CallCap(st))
    && NoLimitRaised(env, m, st.maxRetries)
  }

  /** Rows of the plan within their retry caps. */
  predicate Bounded(tasks: seq<TaskRow>, planned: seq<TaskRow>, globalRetries: nat) {
    && SameRows(tasks, planned)
    && (forall j :: 0 <= j < |tasks| ==> |tasks[j].attempts| <= 1 + RetryCap(tasks[j], globalRetries))
  }

  /** From the start to the wait `end` nothing goes wrong from outside. */
  ghost predicate Untroubled(env: Env, m: Meter, end: nat) {
    (forall k :: m.start < k <= end ==> env.trouble(k) == Smooth) && !SomeMayDie(env, m)
  }

  /** Nothing goes wrong from outside, and time and budgets suffice. */
  ghost predicate Favourable(env: Env, m: Meter, end: nat, steps: nat, st: Settings) {
    Untroubled(env, m, end) && !Overdue(env, m, end) && Ample(env, m, steps, st)
  }

  lemma BoundedFront(tasks: seq<TaskRow>, planned: seq<TaskRow>, globalRetries: nat)
    requires Bounded(tasks, planned, globalRetries) && tasks != []
    ensures Bounded(tasks[..|tasks| - 1], planned[..|planned| - 1], globalRetries)
  {
  }

  /** What the last row uses and what it may demand. */
  lemma DemandLast(env: Env, tasks: seq<TaskRow>, planned: seq<TaskRow>, from: nat, g: nat)
    requires Bounded(tasks, planned, g) && from < |tasks|
    ensures var n := |tasks| - 1;
            && |planned| == |tasks| && |tasks[n].attempts| <= 1 + RetryCap(tasks[n], g)
            && Starts(tasks) == Starts(tasks[..n]) + |tasks[n].attempts|
            && StepDemand(planned, from, g) == StepDemand(planned[..n], from, g) + 1 + RetryCap(tasks[n], g)
            && RowsSpan(env, tasks, from) == RowsSpan(env, tasks[..n], from).Plus(RowSpan(env, tasks[n]))
            && (var last := AttemptCalls(env, tasks[n].sequence, 1 + RetryCap(tasks[n], g));
                && CallDemand(env, planned, from, g) == CallDemand(env, planned[..n], from, g).Plus(last)
                && RowSpan(env, tasks[n]).most.Within(last))
  {
    var n := |tasks| - 1;
    assert SamePlan(tasks[n], planned[n]);
    AttemptsMost(env, tasks[n].sequence, tasks[n].attempts);
    AttemptCallsGrow(env, tasks[n].sequence, |tasks[n].attempts|, 1 + RetryCap(tasks[n], g));
  }

  /** How many rows from `from` on were still to be started. */
  function Spare(tasks: seq<TaskRow>, from: nat, globalRetries: nat): nat {
    if |tasks| <= from then 0
    else Spare(tasks[..|tasks| - 1], from, globalRetries) + if Startable(Last(tasks), globalRetries) then 1 else 0
  }

  lemma {:induction false} SpareRow(tasks: seq<TaskRow>, from: nat, globalRetries: nat, j: nat)
    requires from <= j < |tasks| && Startable(tasks[j], globalRetries)
    ensures Spare(tasks, from, globalRetries) > 0
    decreases |tasks|
  {
    if j < |tasks| - 1 {
      SpareRow(tasks[..|tasks| - 1], from, globalRetries, j);
    }
  }

  lemma {:induction false} DemandCovers(env: Env, tasks: seq<TaskRow>, planned: seq<TaskRow>, from: nat, g: nat)
    requires Bounded(tasks, planned, g) && from <= |tasks|
    ensures Starts(tasks) + Spare(tasks, from, g) <= Starts(tasks[..from]) + StepDemand(planned, from, g)
    ensures RowsSpan(env, tasks, from).most.Within(CallDemand(env, planned, from, g))
    decreases |tasks|
  {
    hide AttemptCalls, AttemptsSpan, SamePlan;
    if |tasks| == from {
      assert tasks[..from] == tasks;
    } else {
      hide Starts, StepDemand, RowsSpan, CallDemand, Bounded;
      BoundedFront(tasks, planned, g);
      var n := |tasks| - 1;
      DemandLast(env, tasks, planned, from, g);
      DemandCovers(env, tasks[..n], planned[..n], from, g);
      assert tasks[..n][..from] == tasks[..from];
    }
  }

  /** Ample budgets are never exhausted. */
  lemma AmpleSuffices(env: Env, m: Meter, tasks: seq<TaskRow>, steps: nat, st: Settings)
    requires Bounded(tasks, m.planned, st.maxRetries) && m.from <= |tasks|
    requires Ample(env, m, steps, st) && Starts(tasks[..m.from]) <= steps
    ensures !Exhausted(env, m, tasks, st)
  {
    DemandCovers(env, tasks, m.planned, m.from, st.maxRetries);
    forall j: nat | m.from <= j < |tasks| && Startable(tasks[j], st.maxRetries)
      ensures Starts(tasks) < st.maxSteps
    {
      SpareRow(tasks, m.from, st.maxRetries, j);
    }
    var counted := m.calls.Plus(RowsSpan(env, tasks, m.from).most);
    assert counted.Within(CallCap(st));
    forall j: nat | m.from <= j < |tasks| && tasks[j].attempts != []
      ensures !Overspends(env.dispatch(tasks[j].sequence, |tasks[j].attempts| - 1), counted, CallCap(st))
    {
      assert SamePlan(tasks[j], m.planned[j]);
      assert !RaisesLimit(env.dispatch(m.planned[j].sequence, |tasks[j].attempts| - 1));
    }
  }

  lemma DiedMay(env: Env, m: Meter, tasks: seq<TaskRow>, globalRetries: nat)
    requires Bounded(tasks, m.planned, globalRetries) && SomeoneDied(env, m, tasks)
    ensures SomeMayDie(env, m)
  {
    var j: nat :| m.from <= j < |tasks| && Died(env, tasks[j]);
    assert SamePlan(tasks[j], m.planned[j]);
    assert env.dispatch(m.planned[j].sequence, |tasks[j].attempts| - 1).Dies?;
    assert MayDie(env, m.planned[j]);
  }

  /** In a favourable environment only a cancellation, a request for approval or a silent run
      can raise an exception. */
  lemma FavourableCauses(fault: Fault, env: Env, m: Meter, at: nat, end: nat, tasks: seq<TaskRow>, steps: nat,
                         st: Settings, atEnd: bool)
    requires Favourable(env, m, end, steps, st) && m.start < at <= end
    requires Bounded(tasks, m.planned, st.maxRetries) && m.from <= |tasks| && Starts(tasks[..m.from]) <= steps
    ensures Caused(fault, env, m, at, tasks, st, atEnd) ==>
              || fault == Fault.Cancelled || (fault == NestedApproval && SomeoneAsks(m, tasks))
              || (atEnd && fault in {LimitExceeded, Unexpected} && Silent(tasks))
  {
    hide Silent, Ample, Bounded, Exhausted, SomeoneDied, SomeMayDie, SomeoneAsks;
    AmpleSuffices(env, m, tasks, steps, st);
    SmoothBefore(env, m, at, end);
    if SomeoneDied(env, m, tasks) {
      DiedMay(env, m, tasks, st.maxRetries);
    }
  }
}
