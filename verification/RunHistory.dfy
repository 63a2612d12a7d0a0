/** Whole runs: every history that starts with one execution and goes on with any
    approvals, rejections, cancellations and recoveries, and what holds along it. */
module RunHistory {
  import opened Signals
  import opened AgentStates
  import opened RunStore
  import opened RunInvariant
  import opened RunEnvironment
  import opened RunForecast
  import opened Coordinator
  import Approvals
  import Plans
  import Failures
  import AgentContext

  datatype Command =
    | Approve(approval: nat, overdue: bool, action: Approvals.Action, wired: bool, env: Env)
    | Reject(approval: nat, overdue: bool, env: Env)
    | Cancel
    | Recover(enabled: bool, stale: bool)

  /** A pending approval was resolved, with some answer that fits the run this leaves. */
  ghost predicate Answered(st: Settings, before: Db, after: Db, start: nat, end: nat, target: ApprovalStatus,
                           overdue: bool, action: Approvals.Action, wired: bool, env: Env) {
    && before.approvals != [] && before.approvals[0].task < |before.tasks|
    && exists response ::
         Approvals.Answer(response, st, before, after, start, end, target, overdue, action, wired, env)
  }

  /** What a command makes of a run: nothing of a terminal one. The command takes the waits
      from `start` to `end`. */
  ghost predicate Effect(c: Command, st: Settings, start: nat, end: nat, before: Db, after: Db) {
    if TerminalRun(before.run.status) then after == before
    else
      match c
      case Approve(k, overdue, action, wired, env) =>
        if k >= |before.approvals| then after == before
        else Answered(st, before, after, start, end, ApprovalStatus.Approved, overdue, action, wired, env)
      case Reject(k, overdue, env) =>
        if k >= |before.approvals| then after == before
        else
          Answered(st, before, after, start, end, ApprovalStatus.Rejected, overdue, Approvals.Applies, true, env)
      case Cancel =>
        after.run.status == RunStatus.Cancelled && CancelledRows(before.tasks, after.tasks)
      case Recover(enabled, stale) =>
        if enabled && stale && before.run.status != RunStatus.AwaitingApproval then
          after.run.status == RunStatus.Failed && CancelledRows(before.tasks, after.tasks)
        else after == before
  }

  method Obey(engine: CoordinatorEngine, c: Command)
    requires engine.Journal() && Inv(engine.repo.db, engine.settings) && engine.repo.saved == engine.repo.db
    modifies engine`waits, engine.repo
    ensures engine.Journal() && Inv(engine.repo.db, engine.settings) && engine.repo.saved == engine.repo.db
    ensures Effect(c, engine.settings, old(engine.waits), engine.waits, old(engine.repo.db), engine.repo.db)
    ensures old(engine.repo.commits) <= engine.repo.commits && old(engine.waits) <= engine.waits
    ensures GrownRows(old(engine.repo.db).tasks, engine.repo.db.tasks)
  {
    hide Inv, Base, CancelledRows, GrownRows, Approvals.Answer;
    match c {
      case Approve(k, overdue, action, wired, env) =>
        var r := Approvals.ResolveApproval(engine, k, ApprovalStatus.Approved, overdue, action, wired, env);
      case Reject(k, overdue, env) =>
        var r := Approvals.ResolveApproval(engine, k, ApprovalStatus.Rejected, overdue,
                                           Approvals.Applies, true, env);
      case Cancel =>
        var ok := Approvals.CancelRun(engine);
      case Recover(enabled, stale) =>
        var recovered := Approvals.RecoverStaleRun(engine, enabled, stale);
    }
  }

  /** Positions in the trace, in order. */
  predicate Marks(trace: seq<Db>, marks: seq<nat>) {
    && (forall k :: 0 <= k < |marks| ==> 1 <= marks[k] <= |trace|)
    && (forall k :: 0 <= k < |marks| - 1 ==> marks[k] <= marks[k + 1])
  }

  /** The rows are those of the plan, once there are any. */
  predicate OfPlan(env: Env, db: Db) {
    db.tasks == [] || SameRows(db.tasks, PlannedRows(env))
  }

  /** Every command was obeyed, from the state and the wait the one before it left. */
  ghost predicate Obeyed(trace: seq<Db>, marks: seq<nat>, clocks: seq<nat>, commands: seq<Command>, st: Settings,
                         n: nat)
    requires Marks(trace, marks) && n <= |commands| && n < |marks| == |clocks|
  {
    forall k :: 0 <= k < n ==>
      Effect(commands[k], st, clocks[k], clocks[k + 1], trace[marks[k] - 1], trace[marks[k + 1] - 1])
  }

  /** A whole run: an execution and then any commands. The trace holds every commit; marks and
      clocks say how many commits and waits there were after the execution and after each
      command. */
  method Live(settings: Settings, env: Env, profile: Profile, commands: seq<Command>)
    returns (outcome: Outcome, trace: seq<Db>, marks: seq<nat>, clocks: seq<nat>)
    requires EnvOk(env)
    ensures History(trace, settings)
    ensures forall k :: 0 <= k < |trace| && trace[k].tasks != [] ==>
              env.plan.Planned? && CarriesPlan(trace[k].tasks, env.plan.tasks)
    ensures |marks| == |clocks| == |commands| + 1 && Marks(trace, marks) && Last(marks) == |trace|
    ensures var m, left := ExecutionMeter(settings, env, 0, profile), trace[marks[0] - 1];
            && LeftBy(outcome, env, profile, m, clocks[0], left, settings)
            && (Undisturbed(env, m, clocks[0]) ==> Foretold(outcome, env, settings, profile, left))
    ensures Obeyed(trace, marks, clocks, commands, settings, |commands|)
  {
    hide Inv, History, Effect, OfPlan, GrownRows, PlannedRows, SameRows, LeftBy, Foretold, Undisturbed, CarriesPlan;
    var repo := new Repository(settings.maxSteps);
    var engine := new CoordinatorEngine(settings, repo);
    engine.CreatedInv(repo.db);
    FirstCommit(repo.db, settings);
    outcome := engine.Execute(env, profile);
    ghost var m := ExecutionMeter(settings, env, 0, profile);
    LeftOfPlan(outcome, env, profile, m, engine.waits, repo.db, settings);
    engine.JournalInv();
    trace, marks, clocks := repo.commits, [|repo.commits|], [engine.waits];
    for n := 0 to |commands|
      invariant engine.Journal() && repo.db == repo.saved && Inv(repo.db, settings)
      invariant trace == repo.commits && OfPlan(env, repo.db)
      invariant |marks| == |clocks| == n + 1 && Marks(trace, marks)
      invariant Last(marks) == |trace| && Last(clocks) == engine.waits
      invariant LeftBy(outcome, env, profile, m, clocks[0], trace[marks[0] - 1], settings)
      invariant Undisturbed(env, m, clocks[0]) ==> Foretold(outcome, env, settings, profile, trace[marks[0] - 1])
      invariant Obeyed(trace, marks, clocks, commands, settings, n)
    {
      ghost var before := repo.db;
      Obey(engine, commands[n]);
      engine.JournalInv();
      StillOfPlan(env, before, repo.db);
      ObeyedMore(trace, repo.commits, marks, clocks, engine.waits, commands, settings, n);
      trace, marks, clocks := repo.commits, marks + [|repo.commits|], clocks + [engine.waits];
    }
    AllOfPlan(env, trace, settings);
    AllCarryPlan(engine, env, trace);
  }

  lemma AllCarryPlan(engine: CoordinatorEngine, env: Env, trace: seq<Db>)
    requires EnvOk(env) && forall k :: 0 <= k < |trace| ==> OfPlan(env, trace[k])
    ensures forall k :: 0 <= k < |trace| && trace[k].tasks != [] ==>
              env.plan.Planned? && CarriesPlan(trace[k].tasks, env.plan.tasks)
  {
    hide EnvOk, PlannedRows, CarriesPlan, SameRows;
    forall k | 0 <= k < |trace|
      ensures trace[k].tasks != [] ==> env.plan.Planned? && CarriesPlan(trace[k].tasks, env.plan.tasks)
    {
      assert OfPlan(env, trace[k]);
      engine.LeftCarriesPlan(trace[k], env);
    }
  }

  lemma FirstCommit(db: Db, st: Settings)
    requires Inv(db, st) && db == Created(st)
    ensures History([db], st)
  {
  }

  lemma LeftOfPlan(outcome: Outcome, env: Env, profile: Profile, m: Meter, end: nat, db: Db, st: Settings)
    requires LeftBy(outcome, env, profile, m, end, db, st) && m.planned == PlannedRows(env)
    ensures OfPlan(env, db)
  {
    hide Logged, LateRows, PlannedRows, Accounted, BrokenOff, Kept;
  }

  lemma StillOfPlan(env: Env, before: Db, after: Db)
    requires OfPlan(env, before) && GrownRows(before.tasks, after.tasks)
    ensures OfPlan(env, after)
  {
    hide PlannedRows;
  }

  lemma ObeyedMore(trace: seq<Db>, longer: seq<Db>, marks: seq<nat>, clocks: seq<nat>, clock: nat,
                   commands: seq<Command>, st: Settings, n: nat)
    requires Marks(trace, marks) && n < |commands| && |marks| == |clocks| == n + 1 && Last(marks) == |trace|
    requires Obeyed(trace, marks, clocks, commands, st, n) && trace <= longer && trace != []
    requires Effect(commands[n], st, Last(clocks), clock, Last(trace), Last(longer))
    ensures Marks(longer, marks + [|longer|])
    ensures Obeyed(longer, marks + [|longer|], clocks + [clock], commands, st, n + 1)
  {
    hide Effect;
    var more, times := marks + [|longer|], clocks + [clock];
    forall k | 0 <= k < n + 1
      ensures Effect(commands[k], st, times[k], times[k + 1], longer[more[k] - 1], longer[more[k + 1] - 1])
    {
      assert longer[more[k] - 1] == trace[marks[k] - 1];
      if k < n {
        assert Effect(commands[k], st, clocks[k], clocks[k + 1], trace[marks[k] - 1], trace[marks[k + 1] - 1]);
      }
    }
  }

  /** Along the commits of a run nothing recorded is undone: attempts, settled rows, handoffs,
      resolved approvals and applied actions stay, however much later one looks. */
  lemma {:induction false} NothingUndone(commits: seq<Db>, st: Settings, k: nat, l: nat)
    requires History(commits, st) && k <= l < |commits|
    ensures Extends(commits[k], commits[l])
    ensures TerminalRun(commits[k].run.status) ==> commits[l] == commits[k]
    decreases l - k
  {
    hide Inv, Extends;
    if k == l {
      ExtendsSame(commits[k]);
    } else {
      NothingUndone(commits, st, k, l - 1);
      assert Succession(commits[l - 1], commits[l - 1 + 1]);
      ExtendsTransitive(commits[k], commits[l - 1], commits[l]);
    }
  }

  lemma AllOfPlan(env: Env, trace: seq<Db>, st: Settings)
    requires History(trace, st) && OfPlan(env, Last(trace))
    ensures forall k :: 0 <= k < |trace| ==> OfPlan(env, trace[k])
  {
    hide Inv, PlannedRows, Succession;
    forall k | 0 <= k < |trace|
      ensures OfPlan(env, trace[k])
    {
      NothingUndone(trace, st, k, |trace| - 1);
    }
  }

  /** Up to the wait `end` planning and review pass, nobody cancels, nothing crashes and no
      specialist dies. */
  ghost predicate Calm(env: Env, m: Meter, end: nat) {
    && env.plan.Planned? && env.review.Passed?
    && (forall k :: m.start < k <= end ==> !env.cancelled(k)) && Untroubled(env, m, end)
  }

  /** A calm execution finishes, pauses, or fails for one of three reasons: the time that
      passed is above the limit, a budget is exhausted, or every task is settled and none left
      a text. When time and budgets suffice only the last one is left. */
  ghost predicate CalmlyEnded(outcome: Outcome, env: Env, m: Meter, end: nat, db: Db, st: Settings) {
    match outcome
    case Finished => db.run.status == RunStatus.Completed && SomeoneSpoke(db.tasks)
    case WaitingForApproval => db.run.status == RunStatus.AwaitingApproval
    case Failure(f) =>
      && (f == RunTimeout ==> db.run.status == RunStatus.TimedOut)
      && (f in {LimitExceeded, Unexpected} ==> db.run.status == RunStatus.Failed)
      && (|| (f == RunTimeout && Overdue(env, m, end))
          || (f == LimitExceeded
              && (Exhausted(env, m, db.tasks, st) || (Starts(db.tasks) == st.maxSteps && Silent(db.tasks))))
          || (f == Unexpected && Silent(db.tasks)))
      && (!Overdue(env, m, end) && Ample(env, m, 0, st) ==> Silent(db.tasks))
    case Interrupted => false
  }

  /** One execution; `end` is the number of waits it took. Its rows follow the replies; a calm
      one ends in one of few ways, and one that is calm and on time ends exactly as foretold. */
  method ExecuteCalmly(settings: Settings, env: Env, profile: Profile) returns (outcome: Outcome, db: Db, end: nat)
    requires EnvOk(env)
    ensures Inv(db, settings)
    ensures db.tasks != [] ==> env.plan.Planned? && CarriesPlan(db.tasks, env.plan.tasks)
    ensures var m := ExecutionMeter(settings, env, 0, profile);
            && LeftBy(outcome, env, profile, m, end, db, settings)
            && (Calm(env, m, end) ==>
                  SameRows(db.tasks, PlannedRows(env)) && CalmlyEnded(outcome, env, m, end, db, settings))
            && (Undisturbed(env, m, end) ==> Foretold(outcome, env, settings, profile, db))
  {
    hide Base, Inv, PlannedRows, SameRows, EnvOk, CalmlyEnded, Calm, LeftBy, Foretold, Undisturbed, CarriesPlan;
    var repo := new Repository(settings.maxSteps);
    var engine := new CoordinatorEngine(settings, repo);
    engine.CreatedInv(repo.db);
    FirstCommit(repo.db, settings);
    outcome := engine.Execute(env, profile);
    db, end := repo.db, engine.waits;
    ghost var m := ExecutionMeter(settings, env, 0, profile);
    if Calm(env, m, end) {
      CalmEnd(engine, outcome, env, profile, m, end, db);
    }
  }

  lemma CalmEnd(engine: CoordinatorEngine, outcome: Outcome, env: Env, profile: Profile, m: Meter, end: nat, db: Db)
    requires EnvOk(env) && Inv(db, engine.settings) && m.from == 0 && m.planned == PlannedRows(env)
    requires LeftBy(outcome, env, profile, m, end, db, engine.settings) && Calm(env, m, end)
    ensures SameRows(db.tasks, m.planned) && CalmlyEnded(outcome, env, m, end, db, engine.settings)
  {
    hide Base, SameRows, SomeMayDie, Ample, Silent, Inv, SomeoneSpoke, Exhausted, Overdue, Logged, LateRows, Kept,
      SomeoneDied, PlannedRows, EnvOk;
    PlannedOrdered(env);
    if outcome.Failure? {
      var at :| m.start < at <= end && Accounted(outcome.fault, env, m, at, db.tasks, engine.settings);
      SmoothBefore(env, m, at, end);
      InvBase(db, engine.settings);
      engine.BoundedRows(db, m);
      if !Overdue(env, m, end) && Ample(env, m, 0, engine.settings) {
        FavourableCauses(outcome.fault, env, m, at, end, db.tasks, 0, engine.settings, true);
      }
    } else if outcome.Finished? || outcome.WaitingForApproval? {
      EndedRows(db, engine.settings);
    }
  }

  /** A completed or paused run has rows. */
  lemma EndedRows(db: Db, st: Settings)
    requires Inv(db, st) && db.run.status in {RunStatus.Completed, RunStatus.AwaitingApproval}
    ensures db.tasks != []
  {
    hide Base;
  }

  // --- What the forecast says -------------------------------------------------------

  /** When every specialist answers at once, the dependencies are tasks of the plan, and steps
      and calls cover one attempt each, the run is foretold to succeed in every task; it
      finishes exactly when some answer holds a conversation text. */
  lemma AnswersFinish(env: Env, st: Settings, profile: Profile)
    requires EnvOk(env) && env.plan.Planned? && Closed(PlannedRows(env))
    requires forall t :: t in PlannedRows(env) ==> AnswersAtOnce(env, t)
    requires |PlannedRows(env)| <= st.maxSteps && FirstCalls(env, PlannedRows(env), 0).Within(CallCap(st))
    ensures var run := Foretell(env, st, profile);
            && run.stop == Done && SameRows(run.tasks, PlannedRows(env))
            && (forall t :: t in run.tasks ==> t.status == TaskStatus.Succeeded && |t.attempts| == 1)
            && (SomeoneSpoke(run.tasks) <==> exists t :: t in PlannedRows(env) && SpeaksAtOnce(env, t))
  {
    hide RunFrom, FirstCalls, AnswersAtOnce, SpeaksAtOnce, Spoke, RowsOf, Plans.Sorted;
    var planned := PlannedRows(env);
    PlannedOrdered(env);
    AnswersForetold(env, planned, planned, REVIEWED, 0, ProfileLimits(profile).3, st, Tally(0, NO_CALLS));
    var run := Foretell(env, st, profile);
    forall j | 0 <= j < |planned|
      ensures SpeaksAtOnce(env, planned[j]) <==> Spoke(run.tasks[j])
    {
      assert SamePlan(run.tasks[j], planned[j]);
      SameAnswers(env, run.tasks[j], planned[j]);
    }
    if t :| t in planned && SpeaksAtOnce(env, t) {
      var j :| 0 <= j < |planned| && planned[j] == t;
      assert Spoke(run.tasks[j]);
    }
  }

  /** Such a run, undisturbed, ends with every task succeeded on its first attempt; it is
      finished exactly when some conversation answer holds a text. */
  lemma AnsweredOutcome(outcome: Outcome, env: Env, st: Settings, profile: Profile, db: Db)
    requires EnvOk(env) && env.plan.Planned? && Closed(PlannedRows(env))
    requires forall t :: t in PlannedRows(env) ==> AnswersAtOnce(env, t)
    requires |PlannedRows(env)| <= st.maxSteps && FirstCalls(env, PlannedRows(env), 0).Within(CallCap(st))
    requires Foretold(outcome, env, st, profile, db)
    ensures outcome == Finished <==> exists t :: t in PlannedRows(env) && SpeaksAtOnce(env, t)
    ensures outcome == Finished ==>
              && SameRows(db.tasks, PlannedRows(env))
              && (forall t :: t in db.tasks ==> t.status == TaskStatus.Succeeded && |t.attempts| == 1)
  {
    hide RunFrom, FirstCalls, AnswersAtOnce, SpeaksAtOnce, SomeoneSpoke, RowsOf, PlannedRows, EnvOk, Closed, Foretell;
    AnswersFinish(env, st, profile);
  }

  lemma PlannedOrdered(env: Env)
    requires EnvOk(env) && env.plan.Planned?
    ensures Ordered(PlannedRows(env)) && |PlannedRows(env)| == |env.plan.tasks| > 0
  {
    Plans.SortedSequenced(env.plan.tasks);
    RowsOrdered(Plans.Sorted(env.plan.tasks));
  }

  /** With ample budgets and no task that dies, the run is foretold to reach its end or the
      approval gate. */
  lemma AmpleReaches(env: Env, st: Settings, profile: Profile)
    requires var m := ExecutionMeter(st, env, 0, profile);
             Ample(env, m, 0, st) && !SomeMayDie(env, m)
    ensures var m, run := ExecutionMeter(st, env, 0, profile), Foretell(env, st, profile);
            run.stop in {Done, Asks} && (!SomeMayAsk(env, m) ==> run.stop == Done)
  {
    hide RunFrom, PlannedRows, StepDemand, CallDemand;
    var m := ExecutionMeter(st, env, 0, profile);
    AmpleTasks(env, m, st.maxRetries);
    AmpleForetold(env, m.planned, m.planned, REVIEWED, 0, ProfileLimits(profile).3, st, Tally(0, NO_CALLS));
  }

  lemma InvBase(db: Db, st: Settings)
    requires Inv(db, st)
    ensures Base(db, st.maxRetries)
  {
  }

  // --- What the invariant says about a committed state -------------------------------

  /** A terminal run has only terminal tasks, with one exception: after an expired approval
      the tasks behind the pause are still pending, never started. */
  lemma TerminalRunTasks(db: Db, st: Settings)
    requires Inv(db, st) && TerminalRun(db.run.status)
    ensures !AllTerminal(db.tasks) <==>
              Lapsed(db) && db.run.status == RunStatus.TimedOut && db.approvals[0].task + 1 < |db.tasks|
    ensures forall j :: 0 <= j < |db.tasks| && !TerminalTask(db.tasks[j].status) ==>
              && db.tasks[j].status == TaskStatus.Pending && db.tasks[j].attempts == []
              && j > db.approvals[0].task
  {
    hide Base, StampsOk, CountersOk, SomeoneSpoke, NoneCancelled, Starts, Holder, SettledOk;
    forall j | 0 <= j < |db.tasks|
      ensures RowOk(db.tasks[j], st.maxRetries)
    {
      RowFacts(db, j, st.maxRetries);
    }
    if Lapsed(db) && db.approvals[0].task + 1 < |db.tasks| {
      assert db.tasks[db.approvals[0].task + 1].status == TaskStatus.Pending;
    }
  }

  /** Nothing passes the approval gate unseen: a task whose last attempt asked is the task of
      the run's approval, resolved as the task's status says, or it has not ended; and in a
      completed run it was granted or rejected. */
  lemma ApprovalGate(db: Db, st: Settings, i: nat)
    requires Inv(db, st) && i < |db.tasks| && Asked(db.tasks[i])
    ensures match db.tasks[i].status
            case Succeeded => db.approvals == [Approval(i, ApprovalStatus.Approved)]
            case Skipped => db.approvals == [Approval(i, ApprovalStatus.Rejected)]
            case TimedOut => db.approvals == [Approval(i, ApprovalStatus.Expired)]
            case _ => db.tasks[i].status in {TaskStatus.Running, TaskStatus.AwaitingApproval, TaskStatus.Cancelled}
    ensures db.run.status == RunStatus.Completed ==>
              || db.approvals == [Approval(i, ApprovalStatus.Approved)]
              || db.approvals == [Approval(i, ApprovalStatus.Rejected)]
  {
    hide Base, StampsOk, CountersOk, SomeoneSpoke, Starts, Holder;
    RowFacts(db, i, st.maxRetries);
  }

  const ASKS := Returns(Result(true, true, None, false, "memory", false, 0, 0))
  const ASKING_PLAN: seq<Plans.PlanTask> :=
    [Plans.PlanTask(1, "memory", "Remember it", [], [], 0), Plans.PlanTask(2, CONVERSATION, "Answer", [1], [], 0)]

  /** Two tasks, every reply asks for approval, and nothing else happens. */
  function AskingEnv(): Env {
    Env(Planned(ASKING_PLAN), Passed, (sequence, attempt) => ASKS, k => 0, k => false, k => Smooth,
        k => AgentContext.Envelope("", None, [], [], [], [], AgentContext.Limits(0, 0, 0, 0, 0)))
  }

  lemma {:induction false} TimeStands(wait: nat)
    ensures Clock(AskingEnv(), wait) == 0
    decreases wait
  {
    if wait > 0 {
      TimeStands(wait - 1);
    }
  }

  lemma AskingForetold(st: Settings)
    requires st.maxSteps > 0
    ensures EnvOk(AskingEnv()) && forall start: nat, end: nat ::
              Undisturbed(AskingEnv(), ExecutionMeter(st, AskingEnv(), start, Fast), end)
    ensures var run := Foretell(AskingEnv(), st, Fast);
            && run.stop == Asks && |run.tasks| == 2
            && run.tasks[0].status == TaskStatus.Running && run.tasks[1].status == TaskStatus.Pending
  {
    forall start: nat, end: nat
      ensures !Overdue(AskingEnv(), ExecutionMeter(st, AskingEnv(), start, Fast), end)
    {
      TimeStands(start);
      TimeStands(end);
    }
    assert ASKING_PLAN[1..][1..] == [];
    assert Plans.Sorted(ASKING_PLAN[1..]) == [ASKING_PLAN[1]];
    assert Plans.Sorted(ASKING_PLAN) == ASKING_PLAN;
    var rows := PlannedRows(AskingEnv());
    assert DepsSucceeded(rows, 0);
    assert ForetellTask(AskingEnv(), rows[0], false, st, 0, Tally(0, NO_CALLS)).attempts == [AskedApproval];
  }

  /** The expired approval, from an execution and a resolution that comes too late: the run has
      timed out, and the task behind the pause is still pending. */
  method PendingBehindExpiry(st: Settings) returns (trace: seq<Db>)
    requires st.maxSteps > 0
    ensures History(trace, st) && Last(trace).run.status == RunStatus.TimedOut && !AllTerminal(Last(trace).tasks)
  {
    hide Inv, Base, EnvOk, Foretell, LeftBy, Undisturbed, AskingEnv, CarriesPlan, Approvals.GrantAnswer, GrownRows,
      RowsSpan, LateRows, Logged;
    var repo := new Repository(st.maxSteps);
    var engine := new CoordinatorEngine(st, repo);
    engine.CreatedInv(repo.db);
    FirstCommit(repo.db, st);
    AskingForetold(st);
    var outcome := engine.Execute(AskingEnv(), Fast);
    ghost var asked := repo.db;
    assert asked.tasks[1].status == TaskStatus.Pending && asked.approvals == [Approval(0, ApprovalStatus.Pending)];
    PausedRun(asked, st);
    var response := Approvals.ResolveApproval(engine, 0, ApprovalStatus.Approved, true, Approvals.Applies, true,
                                              AskingEnv());
    assert repo.db.tasks[1] == asked.tasks[1];
    engine.JournalInv();
    trace := repo.commits;
  }

  lemma PausedRun(db: Db, st: Settings)
    requires Inv(db, st) && |db.approvals| == 1 && db.approvals[0].status == ApprovalStatus.Pending
    ensures db.run.status == RunStatus.AwaitingApproval
  {
    hide Base;
  }

  /** A task that was ever started depends on succeeded tasks only. */
  lemma StartedAfterDependencies(db: Db, st: Settings, i: nat, d: int)
    requires Inv(db, st) && i < |db.tasks| && db.tasks[i].attempts != [] && d in db.tasks[i].dependencies
    ensures exists j :: 0 <= j < i && db.tasks[j].sequence == d && db.tasks[j].status == TaskStatus.Succeeded
  {
    assert DepsSucceeded(db.tasks, i);
    var j :| 0 <= j < |db.tasks| && db.tasks[j].sequence == d && db.tasks[j].status == TaskStatus.Succeeded;
    assert d < db.tasks[i].sequence;
    assert j < i;
  }

  /** Attempts, retries and steps are bounded by their caps. */
  lemma AttemptsBounded(db: Db, st: Settings, i: nat)
    requires Inv(db, st) && i < |db.tasks|
    ensures |db.tasks[i].attempts| <= 1 + Min(db.tasks[i].maximumRetries, st.maxRetries)
    ensures db.tasks[i].retryCount <= Min(db.tasks[i].maximumRetries, st.maxRetries)
    ensures db.tasks[i].retryCount <= |db.tasks[i].attempts| <= db.tasks[i].retryCount + 1
    ensures Starts(db.tasks) <= st.maxSteps && db.run.stepsUsed <= st.maxSteps
    ensures db.run.llmCallsUsed <= st.maxLlmCalls && db.run.toolCallsUsed <= st.maxToolCalls
  {
    assert RowOk(db.tasks[i], st.maxRetries);
  }

  /** At most one approval, at most one applied action, and the action stands exactly when
      the approval was granted, on a completed run whose paused task succeeded. */
  lemma ActionAtMostOnce(db: Db, st: Settings)
    requires Inv(db, st)
    ensures |db.approvals| <= 1 && db.actions <= 1
    ensures db.actions == 1 <==>
              exists k :: 0 <= k < |db.approvals| && db.approvals[k].status == ApprovalStatus.Approved
    ensures db.actions == 1 ==>
              && db.run.status == RunStatus.Completed && db.approvals[0].task < |db.tasks|
              && db.tasks[db.approvals[0].task].status == TaskStatus.Succeeded
  {
    hide Base, StampsOk, CountersOk, Shape, SomeoneSpoke, AllTerminal, NoneCancelled, Starts, Holder;
    if Granted(db) {
      assert db.approvals[0].status == ApprovalStatus.Approved;
    }
  }

  /** The handoff log is one chain from the coordinator, and every started task belongs to
      the agent some handoff of the log names. */
  lemma HandoffChain(db: Db, st: Settings)
    requires Inv(db, st)
    ensures db.handoffs != [] ==> db.handoffs[0].source == "coordinator"
    ensures forall k :: 0 < k < |db.handoffs| ==> db.handoffs[k].source == db.handoffs[k - 1].target
    ensures forall k :: 0 <= k < |db.handoffs| ==> db.handoffs[k].source != db.handoffs[k].target
    ensures forall i :: 0 <= i < |db.tasks| && db.tasks[i].attempts != [] ==>
              && 0 < db.tasks[i].handoffMark <= |db.handoffs|
              && db.handoffs[db.tasks[i].handoffMark - 1].target == db.tasks[i].agent
  {
    hide RowOk, SettledOk, StatusOk, StampsOk, DepsSucceeded, CountersOk, Shape;
    forall i | 0 <= i < |db.tasks| && db.tasks[i].attempts != []
      ensures 0 < db.tasks[i].handoffMark <= |db.handoffs|
      ensures db.handoffs[db.tasks[i].handoffMark - 1].target == db.tasks[i].agent
    {
      assert MarkOk(db.tasks[i], db.handoffs);
    }
  }

  /** Exactly one time stamp on a terminal run and none before. */
  lemma OneStamp(db: Db, st: Settings)
    requires Inv(db, st)
    ensures var r := db.run;
            var stamps := (if r.completedAt then 1 else 0) + (if r.failedAt then 1 else 0)
                       + (if r.cancelledAt then 1 else 0);
            stamps == if TerminalRun(r.status) then 1 else 0
    ensures db.run.completedAt <==> db.run.status == RunStatus.Completed
    ensures db.run.failedAt <==> db.run.status == RunStatus.Failed || db.run.status == RunStatus.TimedOut
    ensures db.run.cancelledAt <==> db.run.status == RunStatus.Cancelled
  {
    match db.run.status
    case Pending | Planning | Running | AwaitingApproval =>
    case Completed | Failed | Cancelled | TimedOut =>
  }

  // --- Failures skip exactly their descendants ----------------------------------------

  /** The task failed on its own account. */
  predicate Broken(t: TaskRow) {
    t.status in {TaskStatus.Failed, TaskStatus.TimedOut}
  }

  /** A dependency that no task of the plan carries. */
  predicate Dangling(tasks: seq<TaskRow>, i: nat)
    requires i < |tasks|
  {
    exists d :: d in tasks[i].dependencies && forall j :: 0 <= j < |tasks| ==> tasks[j].sequence != d
  }

  /** A path through the dependency graph: each row depends on the next one. */
  predicate Path(tasks: seq<TaskRow>, p: seq<nat>) {
    && p != [] && (forall k :: 0 <= k < |p| ==> p[k] < |tasks|)
    && (forall k :: 0 <= k < |p| - 1 ==> tasks[p[k + 1]].sequence in tasks[p[k]].dependencies)
  }

  /** The path leads from i to a broken task or a dangling dependency. */
  predicate LeadsToBreak(tasks: seq<TaskRow>, i: nat, p: seq<nat>) {
    && Path(tasks, p) && p[0] == i
    && ((|p| > 1 && Broken(tasks[Last(p)])) || Dangling(tasks, Last(p)))
  }

  predicate CompletedUnrejected(db: Db) {
    db.run.status == RunStatus.Completed && !WasRejected(db)
  }

  /** In a completed, unrejected run a task is skipped exactly when some dependency did
      not succeed; every other task was started. */
  lemma SkippedIffDependencyFailed(db: Db, st: Settings, i: nat)
    requires Inv(db, st) && CompletedUnrejected(db) && i < |db.tasks|
    ensures db.tasks[i].status == TaskStatus.Skipped <==> !DepsSucceeded(db.tasks, i)
    ensures db.tasks[i].status in {TaskStatus.Skipped, TaskStatus.Succeeded} || Broken(db.tasks[i])
  {
    var t := db.tasks[i];
    assert RowOk(t, st.maxRetries) && TerminalTask(t.status);
    assert t.status != TaskStatus.Cancelled;
    if t.status == TaskStatus.Skipped && t.attempts != [] {
      SkippedNeverAsked(db, st, i);
    }
  }

  /** Only a rejection skips a task that had asked for approval. */
  lemma SkippedNeverAsked(db: Db, st: Settings, i: nat)
    requires Inv(db, st) && CompletedUnrejected(db) && i < |db.tasks|
    ensures db.tasks[i].status == TaskStatus.Skipped ==> db.tasks[i].attempts == []
  {
  }

  /** The rule the previous lemma states for every row. */
  ghost predicate SkipRule(tasks: seq<TaskRow>) {
    && Ordered(tasks)
    && (forall i :: 0 <= i < |tasks| ==>
          && (tasks[i].status == TaskStatus.Skipped <==> !DepsSucceeded(tasks, i))
          && (tasks[i].status in {TaskStatus.Skipped, TaskStatus.Succeeded} || Broken(tasks[i])))
  }

  lemma PathPrepend(tasks: seq<TaskRow>, i: nat, rest: seq<nat>)
    requires Path(tasks, rest) && i < |tasks| && tasks[rest[0]].sequence in tasks[i].dependencies
    ensures Path(tasks, [i] + rest) && Last([i] + rest) == Last(rest)
  {
    var p := [i] + rest;
    forall k | 0 <= k < |p| - 1
      ensures tasks[p[k + 1]].sequence in tasks[p[k]].dependencies
    {
      if k > 0 {
        assert p[k] == rest[k - 1] && p[k + 1] == rest[k];
      }
    }
  }

  lemma PathTail(tasks: seq<TaskRow>, p: seq<nat>)
    requires Path(tasks, p) && |p| > 1
    ensures Path(tasks, p[1..]) && Last(p[1..]) == Last(p)
    ensures tasks[p[1]].sequence in tasks[p[0]].dependencies
  {
    var rest := p[1..];
    forall k | 0 <= k < |rest| - 1
      ensures tasks[rest[k + 1]].sequence in tasks[rest[k]].dependencies
    {
      assert rest[k] == p[k + 1] && rest[k + 1] == p[k + 2];
    }
    assert p[0 + 1] == p[1];
  }

  lemma {:induction false} SkippedHasBreak(tasks: seq<TaskRow>, i: nat) returns (p: seq<nat>)
    requires SkipRule(tasks) && i < |tasks| && tasks[i].status == TaskStatus.Skipped
    ensures LeadsToBreak(tasks, i, p)
    decreases i
  {
    var d :| d in tasks[i].dependencies && !SucceededSeq(tasks, d);
    if j :| 0 <= j < |tasks| && tasks[j].sequence == d {
      assert d < tasks[i].sequence;
      assert j < i;
      if Broken(tasks[j]) {
        p := [i, j];
      } else {
        var rest := SkippedHasBreak(tasks, j);
        PathPrepend(tasks, i, rest);
        p := [i] + rest;
      }
    } else {
      p := [i];
    }
  }

  lemma {:induction false} BreakSkips(tasks: seq<TaskRow>, i: nat, p: seq<nat>)
    requires SkipRule(tasks) && i < |tasks| && LeadsToBreak(tasks, i, p)
    ensures tasks[i].status == TaskStatus.Skipped
    decreases |p|
  {
    if |p| == 1 {
      var d :| d in tasks[i].dependencies && forall j :: 0 <= j < |tasks| ==> tasks[j].sequence != d;
      assert !SucceededSeq(tasks, d);
    } else {
      PathTail(tasks, p);
      if |p| > 2 || Dangling(tasks, Last(p)) {
        BreakSkips(tasks, p[1], p[1..]);
      }
      SucceededAt(tasks, p[1]);
    }
  }

  /** Failures skip exactly their descendants: a task is skipped if and only if some chain
      of dependencies leads from it to a broken task (or out of the plan). */
  lemma SkippedExactlyDescendants(db: Db, st: Settings, i: nat)
    requires Inv(db, st) && CompletedUnrejected(db) && i < |db.tasks|
    ensures db.tasks[i].status == TaskStatus.Skipped <==> exists p :: LeadsToBreak(db.tasks, i, p)
  {
    forall j | 0 <= j < |db.tasks|
      ensures db.tasks[j].status == TaskStatus.Skipped <==> !DepsSucceeded(db.tasks, j)
      ensures db.tasks[j].status in {TaskStatus.Skipped, TaskStatus.Succeeded} || Broken(db.tasks[j])
    {
      SkippedIffDependencyFailed(db, st, j);
    }
    if db.tasks[i].status == TaskStatus.Skipped {
      var p := SkippedHasBreak(db.tasks, i);
    }
    if p :| LeadsToBreak(db.tasks, i, p) {
      BreakSkips(db.tasks, i, p);
    }
  }
}
