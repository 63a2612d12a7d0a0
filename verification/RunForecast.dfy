/** What a run comes to when nothing crashes, nobody cancels and the deadline does not pass: a
    function of the plan, the replies and the budgets alone, without sessions, events, clocks
    or exceptions. The engine is shown to do exactly this. */
module RunForecast {
  import opened Signals
  import opened AgentStates
  import opened RunStore
  import opened RunInvariant
  import opened RunEnvironment
  import Failures

  /** What has been used so far. */
  datatype Tally = Tally(steps: nat, calls: Calls)

  /** Why nothing follows: the end was reached, a task asks for approval, a limit was met, or
      a task was broken off from outside. */
  datatype Stop = Done | Asks | Limit | Dead

  /** What one attempt adds to the log, what is used after it, and whether another follows. */
  datatype Step = Step(ends: seq<Attempt>, tally: Tally, again: bool, stop: Stop)

  datatype TaskRun = TaskRun(attempts: seq<Attempt>, tally: Tally, stop: Stop)

  datatype Run = Run(tasks: seq<TaskRow>, handoffs: seq<Handoff>, tally: Tally, stop: Stop)

  /** The calls charged after a reply: all it reports, unless that meets a cap. */
  function CallsAfter(reply: Reply, used: Calls, cap: Calls): Calls {
    match reply
    case Returns(r) =>
      if r.llmCalls > 0 && used.llm + r.llmCalls > cap.llm then used
      else if r.toolCalls > 0 && used.tools + r.toolCalls > cap.tools then Calls(used.llm + r.llmCalls, used.tools)
      else used.Plus(CallsOf(reply))
    case _ => used
  }

  function ForetellStep(env: Env, t: TaskRow, retryTimeouts: bool, st: Settings, k: nat, tally: Tally): Step {
    if tally.steps >= st.maxSteps then Step([], tally, false, Limit)
    else
      var reply, steps := env.dispatch(t.sequence, k), tally.steps + 1;
      if reply.Dies? then Step([Open], Tally(steps, tally.calls), false, Dead)
      else
        var end := AttemptEnd(reply, retryTimeouts, tally.calls, CallCap(st));
        var next := Tally(steps, CallsAfter(reply, tally.calls, CallCap(st)));
        if end == LimitHit then Step([end], next, false, Limit)
        else if Retryable(t.agent, end) && k < RetryCap(t, st.maxRetries) then Step([end], next, true, Done)
        else Step([end], next, false, if end.AskedApproval? then Asks else Done)
  }

  /** The attempts of a task from the k-th on. */
  function ForetellTask(env: Env, t: TaskRow, retryTimeouts: bool, st: Settings, k: nat, tally: Tally): TaskRun
    requires k <= RetryCap(t, st.maxRetries)
    decreases RetryCap(t, st.maxRetries) - k
  {
    var step := ForetellStep(env, t, retryTimeouts, st, k, tally);
    if step.again then
      var rest := ForetellTask(env, t, retryTimeouts, st, k + 1, step.tally);
      TaskRun(step.ends + rest.attempts, rest.tally, rest.stop)
    else TaskRun(step.ends, step.tally, step.stop)
  }

  /** A row after these attempts: ready for another, in the middle of one, or settled. */
  function RanRow(t: TaskRow, attempts: seq<Attempt>, mark: nat, globalRetries: nat): TaskRow {
    var n := |attempts|;
    if n == 0 || (Retryable(t.agent, Last(attempts)) && n <= RetryCap(t, globalRetries)) then
      t.(status := TaskStatus.Ready, retryCount := n, attempts := attempts, handoffMark := mark)
    else
      var a := Last(attempts);
      t.(status := if a.Open? || a.AskedApproval? then TaskStatus.Running else Settled(t.agent, a),
         retryCount := n - 1, attempts := attempts, handoffMark := mark)
  }

  /** The log after the baton went to an agent. */
  function Held(handoffs: seq<Handoff>, agent: string): seq<Handoff> {
    if Holder(handoffs) == agent then handoffs else handoffs + [Handoff(Holder(handoffs), agent)]
  }

  /** All tasks from the i-th on: blocked ones are skipped, the others run. */
  function RunFrom(env: Env, tasks: seq<TaskRow>, handoffs: seq<Handoff>, i: nat, retryTimeouts: bool, st: Settings,
                   tally: Tally): Run
    requires i <= |tasks|
    decreases |tasks| - i
  {
    if i == |tasks| then Run(tasks, handoffs, tally, Done)
    else if !DepsSucceeded(tasks, i) then
      RunFrom(env, tasks[i := tasks[i].(status := TaskStatus.Skipped)], handoffs, i + 1, retryTimeouts, st, tally)
    else
      var row := ForetellTask(env, tasks[i], retryTimeouts, st, 0, tally);
      var held := Held(handoffs, tasks[i].agent);
      var after := tasks[i := RanRow(tasks[i], row.attempts, |held|, st.maxRetries)];
      if row.stop == Done then RunFrom(env, after, held, i + 1, retryTimeouts, st, row.tally)
      else Run(after, held, row.tally, row.stop)
  }

  const REVIEWED := [Handoff("coordinator", "planning"), Handoff("planning", "safety")]

  /** The run of an execution whose plan was made and reviewed. */
  function Foretell(env: Env, st: Settings, profile: Profile): Run {
    RunFrom(env, PlannedRows(env), REVIEWED, 0, ProfileLimits(profile).3, st, Tally(0, NO_CALLS))
  }

  /** The rest of a run after the approval for task p was granted. */
  function ForetellResume(env: Env, db: Db, p: nat, st: Settings): Run
    requires p < |db.tasks|
  {
    RunFrom(env, db.tasks, db.handoffs, p + 1, ProfileLimits(Fast).3, st,
            Tally(db.run.stepsUsed, Calls(db.run.llmCallsUsed, db.run.toolCallsUsed)))
  }

  predicate Counted(run: RunRow, tally: Tally) {
    run.stepsUsed == tally.steps && run.llmCallsUsed == tally.calls.llm && run.toolCallsUsed == tally.calls.tools
  }

  // --- Budgets that suffice ---------------------------------------------------------

  /** No attempt of the task its retries allow is broken off or raises a limit. */
  ghost predicate Sound(env: Env, t: TaskRow, globalRetries: nat) {
    forall k: nat :: k <= RetryCap(t, globalRetries) ==>
      !env.dispatch(t.sequence, k).Dies? && !RaisesLimit(env.dispatch(t.sequence, k))
  }

  /** No attempt of the task its retries allow asks for approval. */
  ghost predicate Unasking(env: Env, t: TaskRow, globalRetries: nat) {
    forall k: nat :: k <= RetryCap(t, globalRetries) ==> !AsksApproval(env.dispatch(t.sequence, k))
  }

  /** A step that is charged within the caps meets no limit. */
  lemma StepSuffices(env: Env, t: TaskRow, retryTimeouts: bool, st: Settings, k: nat, tally: Tally)
    requires k <= RetryCap(t, st.maxRetries) && Sound(env, t, st.maxRetries) && tally.steps < st.maxSteps
    requires tally.calls.Plus(CallsOf(env.dispatch(t.sequence, k))).Within(CallCap(st))
    ensures var step := ForetellStep(env, t, retryTimeouts, st, k, tally);
            && step.stop in {Done, Asks} && step.tally.steps == tally.steps + 1
            && step.tally.calls == tally.calls.Plus(CallsOf(env.dispatch(t.sequence, k)))
            && (step.again ==> k < RetryCap(t, st.maxRetries))
            && (step.stop == Asks ==> AsksApproval(env.dispatch(t.sequence, k)))
  {
    hide Failures.Classify;
  }

  lemma {:induction false} TaskSuffices(env: Env, t: TaskRow, retryTimeouts: bool, st: Settings, k: nat, tally: Tally,
                                        base: Calls)
    requires k <= RetryCap(t, st.maxRetries) && Sound(env, t, st.maxRetries)
    requires tally.steps + 1 + RetryCap(t, st.maxRetries) - k <= st.maxSteps
    requires tally.calls.Within(base.Plus(AttemptCalls(env, t.sequence, k)))
    requires base.Plus(AttemptCalls(env, t.sequence, 1 + RetryCap(t, st.maxRetries))).Within(CallCap(st))
    ensures var run := ForetellTask(env, t, retryTimeouts, st, k, tally);
            && run.stop in {Done, Asks} && run.tally.steps <= tally.steps + 1 + RetryCap(t, st.maxRetries) - k
            && run.tally.calls.Within(base.Plus(AttemptCalls(env, t.sequence, 1 + RetryCap(t, st.maxRetries))))
            && (Unasking(env, t, st.maxRetries) ==> run.stop == Done)
    decreases RetryCap(t, st.maxRetries) - k
  {
    hide ForetellStep, AsksApproval, RaisesLimit;
    var step := ForetellStep(env, t, retryTimeouts, st, k, tally);
    AttemptCallsGrow(env, t.sequence, k + 1, 1 + RetryCap(t, st.maxRetries));
    StepSuffices(env, t, retryTimeouts, st, k, tally);
    if step.again {
      TaskSuffices(env, t, retryTimeouts, st, k + 1, step.tally, base);
    }
  }

  /** The demand of the rows from `from` on, from its first row. */
  lemma {:induction false} DemandFirst(env: Env, rows: seq<TaskRow>, from: nat, globalRetries: nat)
    requires from < |rows|
    ensures StepDemand(rows, from, globalRetries)
            == 1 + RetryCap(rows[from], globalRetries) + StepDemand(rows, from + 1, globalRetries)
    ensures CallDemand(env, rows, from, globalRetries)
            == AttemptCalls(env, rows[from].sequence, 1 + RetryCap(rows[from], globalRetries))
               .Plus(CallDemand(env, rows, from + 1, globalRetries))
    decreases |rows|
  {
    hide AttemptCalls;
    if from < |rows| - 1 {
      DemandFirst(env, rows[..|rows| - 1], from, globalRetries);
    }
  }

  lemma SameDemand(env: Env, a: TaskRow, b: TaskRow, globalRetries: nat)
    requires SamePlan(a, b)
    ensures Sound(env, a, globalRetries) <==> Sound(env, b, globalRetries)
    ensures Unasking(env, a, globalRetries) <==> Unasking(env, b, globalRetries)
    ensures RetryCap(a, globalRetries) == RetryCap(b, globalRetries)
  {
  }

  /** When steps and calls cover the demand of the remaining tasks and none of their attempts
      is broken off or raises a limit, the run comes to its end or to a task that asks. */
  lemma {:induction false} AmpleForetold(env: Env, planned: seq<TaskRow>, tasks: seq<TaskRow>, handoffs: seq<Handoff>,
                                         i: nat, retryTimeouts: bool, st: Settings, tally: Tally)
    requires i <= |tasks| && SameRows(tasks, planned)
    requires tally.steps + StepDemand(planned, i, st.maxRetries) <= st.maxSteps
    requires tally.calls.Plus(CallDemand(env, planned, i, st.maxRetries)).Within(CallCap(st))
    requires forall j :: i <= j < |planned| ==> Sound(env, planned[j], st.maxRetries)
    ensures var run := RunFrom(env, tasks, handoffs, i, retryTimeouts, st, tally);
            && run.stop in {Done, Asks}
            && ((forall j :: i <= j < |planned| ==> Unasking(env, planned[j], st.maxRetries)) ==> run.stop == Done)
    decreases |tasks| - i
  {
    hide ForetellTask, DepsSucceeded, StepDemand, CallDemand, AttemptCalls, Sound, Unasking, RanRow, Held;
    if i < |tasks| {
      DemandFirst(env, planned, i, st.maxRetries);
      if DepsSucceeded(tasks, i) {
        SameDemand(env, tasks[i], planned[i], st.maxRetries);
        TaskSuffices(env, tasks[i], retryTimeouts, st, 0, tally, tally.calls);
        var row := ForetellTask(env, tasks[i], retryTimeouts, st, 0, tally);
        var held := Held(handoffs, tasks[i].agent);
        if row.stop == Done {
          var after := tasks[i := RanRow(tasks[i], row.attempts, |held|, st.maxRetries)];
          RanPlan(tasks[i], row.attempts, |held|, st.maxRetries);
          AmpleForetold(env, planned, after, held, i + 1, retryTimeouts, st, row.tally);
        }
      } else {
        var after := tasks[i := tasks[i].(status := TaskStatus.Skipped)];
        AmpleForetold(env, planned, after, handoffs, i + 1, retryTimeouts, st, tally);
      }
    }
  }

  lemma AmpleTasks(env: Env, m: Meter, globalRetries: nat)
    requires NoLimitRaised(env, m, globalRetries) && !SomeMayDie(env, m)
    ensures forall j :: m.from <= j < |m.planned| ==> Sound(env, m.planned[j], globalRetries)
    ensures !SomeMayAsk(env, m) ==>
              forall j :: m.from <= j < |m.planned| ==> Unasking(env, m.planned[j], globalRetries)
  {
    hide RaisesLimit, AsksApproval;
    forall j: nat, k: nat | m.from <= j < |m.planned| && k <= RetryCap(m.planned[j], globalRetries)
      ensures !env.dispatch(m.planned[j].sequence, k).Dies?
      ensures !SomeMayAsk(env, m) ==> !AsksApproval(env.dispatch(m.planned[j].sequence, k))
    {
      assert !MayDie(env, m.planned[j]);
      assert !SomeMayAsk(env, m) ==> !MayAsk(env, m.planned[j]);
    }
  }

  lemma RanPlan(t: TaskRow, attempts: seq<Attempt>, mark: nat, globalRetries: nat)
    ensures SamePlan(RanRow(t, attempts, mark, globalRetries), t)
  {
  }

  // --- A plan whose specialists all answer --------------------------------------------

  /** The first attempt of the task is answered with success. */
  predicate AnswersAtOnce(env: Env, t: TaskRow) {
    var reply := env.dispatch(t.sequence, 0);
    reply.Returns? && !reply.result.requiresApproval && MappedSuccess(reply.result)
  }

  predicate SpeaksAtOnce(env: Env, t: TaskRow) {
    var reply := env.dispatch(t.sequence, 0);
    reply.Returns? && reply.result.agentName == CONVERSATION && reply.result.hasContent
  }

  /** Every dependency is a task of the plan. */
  predicate Closed(rows: seq<TaskRow>) {
    forall i, d :: 0 <= i < |rows| && d in rows[i].dependencies ==> exists j :: 0 <= j < |rows| && rows[j].sequence == d
  }

  /** The tasks before i succeeded on their first attempt. */
  predicate AnsweredUpTo(env: Env, tasks: seq<TaskRow>, i: nat) {
    forall j :: 0 <= j < i <= |tasks| ==>
      && tasks[j].status == TaskStatus.Succeeded && |tasks[j].attempts| == 1
      && (Spoke(tasks[j]) <==> SpeaksAtOnce(env, tasks[j]))
  }

  lemma AnswerForetold(env: Env, t: TaskRow, retryTimeouts: bool, st: Settings, tally: Tally, mark: nat)
    requires AnswersAtOnce(env, t) && tally.steps < st.maxSteps
    requires tally.calls.Plus(CallsOf(env.dispatch(t.sequence, 0))).Within(CallCap(st))
    ensures var run := ForetellTask(env, t, retryTimeouts, st, 0, tally);
            var ran := RanRow(t, run.attempts, mark, st.maxRetries);
            && run.stop == Done && run.tally.steps == tally.steps + 1
            && run.tally.calls == tally.calls.Plus(CallsOf(env.dispatch(t.sequence, 0)))
            && SamePlan(ran, t) && ran.status == TaskStatus.Succeeded && |ran.attempts| == 1
            && (Spoke(ran) <==> SpeaksAtOnce(env, ran))
  {
  }

  /** The calls of the first attempts from task i on. */
  function FirstCalls(env: Env, rows: seq<TaskRow>, i: nat): Calls
    requires i <= |rows|
    decreases |rows| - i
  {
    if i == |rows| then NO_CALLS else CallsOf(env.dispatch(rows[i].sequence, 0)).Plus(FirstCalls(env, rows, i + 1))
  }

  lemma ClosedDeps(tasks: seq<TaskRow>, planned: seq<TaskRow>, env: Env, i: nat)
    requires SameRows(tasks, planned) && Ordered(planned) && Closed(planned)
    requires i < |tasks| && AnsweredUpTo(env, tasks, i)
    ensures DepsSucceeded(tasks, i)
  {
    hide Spoke, SpeaksAtOnce;
    forall d | d in tasks[i].dependencies
      ensures SucceededSeq(tasks, d)
    {
      assert SamePlan(tasks[i], planned[i]);
      var j :| 0 <= j < |planned| && planned[j].sequence == d;
      assert SamePlan(tasks[j], planned[j]) && d < planned[i].sequence;
      assert j < i;
    }
  }

  lemma AnsweredMore(env: Env, planned: seq<TaskRow>, tasks: seq<TaskRow>, i: nat, t: TaskRow)
    requires SameRows(tasks, planned) && i < |tasks| && AnsweredUpTo(env, tasks, i) && SamePlan(t, tasks[i])
    requires t.status == TaskStatus.Succeeded && |t.attempts| == 1 && (Spoke(t) <==> SpeaksAtOnce(env, t))
    ensures SameRows(tasks[i := t], planned) && AnsweredUpTo(env, tasks[i := t], i + 1)
  {
    hide Spoke, SpeaksAtOnce;
  }

  lemma {:induction false} AnswersForetold(env: Env, planned: seq<TaskRow>, tasks: seq<TaskRow>,
                                           handoffs: seq<Handoff>, i: nat, retryTimeouts: bool, st: Settings,
                                           tally: Tally)
    requires i <= |tasks| && SameRows(tasks, planned) && Ordered(planned) && Closed(planned)
    requires forall j :: i <= j < |planned| ==> AnswersAtOnce(env, planned[j])
    requires tally.steps + |tasks| - i <= st.maxSteps && AnsweredUpTo(env, tasks, i)
    requires tally.calls.Plus(FirstCalls(env, planned, i)).Within(CallCap(st))
    ensures var run := RunFrom(env, tasks, handoffs, i, retryTimeouts, st, tally);
            && run.stop == Done && SameRows(run.tasks, planned) && AnsweredUpTo(env, run.tasks, |run.tasks|)
    decreases |tasks| - i
  {
    hide ForetellTask, DepsSucceeded, RanRow, Held, AnswersAtOnce, Spoke, SpeaksAtOnce, SamePlan, AnsweredUpTo,
      Closed, Ordered;
    if i < |tasks| {
      ClosedDeps(tasks, planned, env, i);
      var row := ForetellTask(env, tasks[i], retryTimeouts, st, 0, tally);
      var held := Held(handoffs, tasks[i].agent);
      SameAnswers(env, tasks[i], planned[i]);
      AnswerForetold(env, tasks[i], retryTimeouts, st, tally, |held|);
      var ran := RanRow(tasks[i], row.attempts, |held|, st.maxRetries);
      var after := tasks[i := ran];
      AnsweredMore(env, planned, tasks, i, ran);
      AnswersForetold(env, planned, after, held, i + 1, retryTimeouts, st, row.tally);
    }
  }

  lemma SameAnswers(env: Env, a: TaskRow, b: TaskRow)
    requires SamePlan(a, b)
    ensures a.sequence == b.sequence && (AnswersAtOnce(env, a) <==> AnswersAtOnce(env, b))
    ensures SpeaksAtOnce(env, a) <==> SpeaksAtOnce(env, b)
  {
  }
}
