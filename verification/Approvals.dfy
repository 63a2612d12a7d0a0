/** The operations that reach a run from outside the engine: the approval transaction of
    backend/app/agents/api.py, the cancel route of backend/app/api/routes/agents.py and the
    stale-run recovery of backend/app/agents/repository.py. */
module Approvals {
  import opened Signals
  import opened AgentStates
  import opened RunStore
  import opened RunInvariant
  import opened RunEnvironment
  import opened RunForecast
  import opened Coordinator

  /** What the caller of resolve_approval sees. */
  datatype Response =
    | NotFound
    | Resolved          // committed, or already resolved this way
    | RunIsTerminal     // 409 agent_run_terminal
    | Conflict          // 409 agent_approval_conflict: already resolved otherwise, or expired
    | RolledBack(why: Setback)  // 409: nothing happened

  /** Why a grant was rolled back: the action failed, nobody can resume the run, or the
      resume raised an exception. */
  datatype Setback = ActionFailed | Unavailable | ResumeFailed(fault: Fault)

  /** Whether the approved action can be applied; the two failures are an AppError and
      any other exception. */
  datatype Action = Applies | ActionRejects | ActionCrashes

  // --- Pure steps -----------------------------------------------------------------

  /** The rows after a grant or a refusal of the pending approval of task p. */
  function ResolvedDb(db: Db, p: nat, status: ApprovalStatus, taskStatus: TaskStatus, run: RunStatus): Db
    requires p < |db.tasks|
  {
    db.(approvals := [Approval(p, status)],
        tasks := db.tasks[p := db.tasks[p].(status := taskStatus)],
        run := Moved(db.run, run),
        actions := if status == ApprovalStatus.Approved then db.actions + 1 else db.actions)
  }

  lemma PausedFacts(db: Db, st: Settings)
    requires Inv(db, st)
    requires db.run.status == RunStatus.AwaitingApproval || (db.approvals != [] && !TerminalRun(db.run.status))
    ensures db.run.status == RunStatus.AwaitingApproval && Paused(db) && db.handoffs != []
    ensures StampsOk(db.run) && CountersOk(db, st)
    ensures db.approvals == [Approval(db.approvals[0].task, ApprovalStatus.Pending)] && db.actions == 0
    ensures Base(db, st.maxRetries)
  {
    var p := db.approvals[0].task;
    assert RowOk(db.tasks[p], st.maxRetries) && MarkOk(db.tasks[p], db.handoffs);
  }

  /** A paused row may be granted, refused or let expire. */
  lemma ResolvableRow(t: TaskRow, taskStatus: TaskStatus, globalRetries: nat)
    requires RowOk(t, globalRetries) && t.status == TaskStatus.AwaitingApproval
    requires taskStatus in {TaskStatus.Succeeded, TaskStatus.Skipped, TaskStatus.TimedOut}
    ensures RowOk(t.(status := taskStatus), globalRetries) && t.attempts != []
    ensures TerminalTask(taskStatus)
  {
  }

  /** What becomes of the paused task when its approval is resolved like this. */
  predicate Decides(status: ApprovalStatus, taskStatus: TaskStatus) {
    match taskStatus
    case Succeeded => status == ApprovalStatus.Approved
    case Skipped => status == ApprovalStatus.Rejected
    case TimedOut => status == ApprovalStatus.Expired
    case _ => false
  }

  /** Changing row p of a paused run to a terminal status its history allows. */
  lemma ResolveRow(db: Db, st: Settings, status: ApprovalStatus, taskStatus: TaskStatus, run: RunStatus)
    requires Inv(db, st) && db.run.status == RunStatus.AwaitingApproval
    requires Decides(status, taskStatus)
    ensures var p := db.approvals[0].task;
            var after := ResolvedDb(db, p, status, taskStatus, run);
            && Base(after, st.maxRetries) && Shape(after.tasks, p) && Starts(after.tasks) == Starts(db.tasks)
            && TerminalTask(after.tasks[p].status) && NoneCancelled(after.tasks)
  {
    hide Base, RowOk, Inv;
    PausedFacts(db, st);
    NotRejected(db);
    var p := db.approvals[0].task;
    var t := db.tasks[p].(status := taskStatus);
    RowFacts(db, p, st.maxRetries);
    ResolvableRow(db.tasks[p], taskStatus, st.maxRetries);
    var after := ResolvedDb(db, p, status, taskStatus, run);
    var moved := db.(approvals := after.approvals, run := after.run, actions := after.actions);
    SameTasksBase(db, moved, st.maxRetries);
    assert status == ApprovalStatus.Rejected ==> moved.approvals[0].status == ApprovalStatus.Rejected;
    BaseUpdate(moved, p, t, st.maxRetries);
    StartsUpdate(db.tasks, p, t);
    assert WithRow(moved, p, t) == after;
  }

  /** Resolving the approval keeps all work recorded so far. */
  lemma ResolvedExtends(db: Db, st: Settings, status: ApprovalStatus, taskStatus: TaskStatus, run: RunStatus)
    requires Inv(db, st) && db.run.status == RunStatus.AwaitingApproval
    ensures Extends(db, ResolvedDb(db, db.approvals[0].task, status, taskStatus, run))
  {
    hide Base;
    PausedFacts(db, st);
  }

  lemma NotRejected(db: Db)
    requires |db.approvals| == 1 && db.approvals[0].status == ApprovalStatus.Pending
    ensures !WasRejected(db)
  {
  }

  /** A granted approval leaves exactly the state the resume expects. */
  lemma GrantResumable(engine: CoordinatorEngine, db: Db)
    requires Inv(db, engine.settings) && db.run.status == RunStatus.AwaitingApproval
    ensures var p := db.approvals[0].task;
            engine.Resumable(ResolvedDb(db, p, ApprovalStatus.Approved, TaskStatus.Succeeded, RunStatus.Running), p)
  {
    PausedFacts(db, engine.settings);
    ResolveRow(db, engine.settings, ApprovalStatus.Approved, TaskStatus.Succeeded, RunStatus.Running);
  }

  /** An expired approval leaves the tasks after the pause untouched and pending. */
  lemma ExpiredInv(db: Db, st: Settings)
    requires Inv(db, st) && db.run.status == RunStatus.AwaitingApproval
    ensures var p := db.approvals[0].task;
            Inv(ResolvedDb(db, p, ApprovalStatus.Expired, TaskStatus.TimedOut, RunStatus.TimedOut), st)
  {
    hide Base, RowOk, Starts, Holder;
    PausedFacts(db, st);
    ResolveRow(db, st, ApprovalStatus.Expired, TaskStatus.TimedOut, RunStatus.TimedOut);
  }

  /** A refused approval: row p skipped, and every row after it skipped in the loop. */
  lemma RefusedInv(refused: Db, done: Db, p: nat, st: Settings)
    requires Base(refused, st.maxRetries) && AllTerminal(refused.tasks) && NoneCancelled(refused.tasks)
    requires p < |refused.tasks| && refused.approvals == [Approval(p, ApprovalStatus.Rejected)]
    requires refused.tasks[p].status == TaskStatus.Skipped && refused.actions == 0
    requires Starts(refused.tasks) == refused.run.stepsUsed && CountersOk(refused, st)
    requires StampsOk(refused.run) && refused.run.status == RunStatus.Running
    requires done == refused.(run := Moved(refused.run, RunStatus.Completed))
    ensures Inv(done, st)
  {
    SameTasksBase(refused, done, st.maxRetries);
  }

  /** The row skipped by a refusal: pending rows become skipped, others stay. */
  function SkippedRow(t: TaskRow): TaskRow {
    if t.status == TaskStatus.Pending then t.(status := TaskStatus.Skipped) else t
  }

  /** The skipping loop has passed the rows before i. */
  predicate SkippedUpTo(start: seq<TaskRow>, now: seq<TaskRow>, i: nat) {
    && i <= |start| == |now|
    && (forall j :: 0 <= j < i ==> now[j] == SkippedRow(start[j]))
    && (forall j :: i <= j < |now| ==> now[j] == start[j])
  }

  /** The loop over run.tasks after a refusal. */
  method SkipUnstarted(repo: Repository, ghost p: nat, globalRetries: nat)
    requires Base(repo.db, globalRetries) && WasRejected(repo.db)
    requires Shape(repo.db.tasks, p) && p < |repo.db.tasks| && TerminalTask(repo.db.tasks[p].status)
    modifies repo`db
    ensures repo.db == old(repo.db).(tasks := repo.db.tasks)
    ensures SkippedUpTo(old(repo.db).tasks, repo.db.tasks, |repo.db.tasks|)
    ensures Base(repo.db, globalRetries) && Starts(repo.db.tasks) == Starts(old(repo.db.tasks))
  {
    hide Base, Shape, WasRejected;
    ghost var start := repo.db;
    var i := 0;
    while i < |repo.db.tasks|
      invariant repo.db == start.(tasks := repo.db.tasks)
      invariant SkippedUpTo(start.tasks, repo.db.tasks, i)
      invariant Base(repo.db, globalRetries) && WasRejected(repo.db)
      invariant Starts(repo.db.tasks) == Starts(start.tasks)
    {
      SkipRow(start, repo.db, i, p, globalRetries);
      if repo.db.tasks[i].status in {TaskStatus.Pending, TaskStatus.Ready} {
        var moved := repo.TransitionTask(i, TaskStatus.Skipped, false);
        assert moved.Fine?;
      }
      i := i + 1;
    }
  }

  lemma SkipRow(start: Db, db: Db, i: nat, p: nat, globalRetries: nat)
    requires Base(db, globalRetries) && i < |db.tasks| && WasRejected(db)
    requires Shape(start.tasks, p) && p < |start.tasks| && TerminalTask(start.tasks[p].status)
    requires SkippedUpTo(start.tasks, db.tasks, i)
    ensures db.tasks[i].status in {TaskStatus.Pending, TaskStatus.Ready} ==> db.tasks[i].status == TaskStatus.Pending
    ensures db.tasks[i].status == TaskStatus.Pending ==>
              var next := WithRow(db, i, MovedTask(db.tasks[i], TaskStatus.Skipped, false));
              Base(next, globalRetries) && Starts(next.tasks) == Starts(db.tasks) && WasRejected(next)
  {
    hide RowOk, Base;
    if db.tasks[i].status == TaskStatus.Pending {
      var t := MovedTask(db.tasks[i], TaskStatus.Skipped, false);
      RowFacts(db, i, globalRetries);
      assert RowOk(t, globalRetries) by {
        PendingSkipped(db.tasks[i], globalRetries);
      }
      BaseUpdate(db, i, t, globalRetries);
      StartsUpdate(db.tasks, i, t);
    }
  }

  lemma PendingSkipped(t: TaskRow, globalRetries: nat)
    requires RowOk(t, globalRetries) && t.status == TaskStatus.Pending
    ensures RowOk(MovedTask(t, TaskStatus.Skipped, false), globalRetries) && t.attempts == []
  {
  }

  lemma SkippedAll(start: seq<TaskRow>, now: seq<TaskRow>, p: nat)
    requires SkippedUpTo(start, now, |start|) && Shape(start, p) && p < |start|
    requires TerminalTask(start[p].status) && NoneCancelled(start)
    ensures AllTerminal(now) && NoneCancelled(now)
  {
  }

  // --- The transaction ------------------------------------------------------------

  /** What a refusal leaves: the paused task and everything after it skipped. */
  predicate RefusedTasks(before: Db, after: Db, p: nat) {
    && p < |before.tasks| == |after.tasks|
    && (forall j :: 0 <= j < p ==> after.tasks[j] == before.tasks[j])
    && after.tasks[p] == before.tasks[p].(status := TaskStatus.Skipped)
    && (forall j :: p < j < |after.tasks| ==> after.tasks[j] == before.tasks[j].(status := TaskStatus.Skipped))
  }

  lemma RefusedExtends(before: Db, after: Db, p: nat, st: Settings)
    requires Inv(before, st) && before.run.status == RunStatus.AwaitingApproval && p == before.approvals[0].task
    requires RefusedTasks(before, after, p) && after.handoffs == before.handoffs
    requires after.approvals == [Approval(p, ApprovalStatus.Rejected)] && after.actions == before.actions
    ensures Extends(before, after)
  {
    hide Base;
    PausedFacts(before, st);
  }

  /** The refusal branch: skip the paused task and everything behind it, complete the run. */
  method Refuse(engine: CoordinatorEngine, p: nat, ghost paused: Db)
    requires Inv(paused, engine.settings) && paused.run.status == RunStatus.AwaitingApproval
    requires p == paused.approvals[0].task
    requires engine.repo.db == paused.(approvals := [Approval(p, ApprovalStatus.Rejected)])
    modifies engine.repo`db
    ensures Inv(engine.repo.db, engine.settings) && engine.repo.db.run.status == RunStatus.Completed
    ensures RefusedTasks(paused, engine.repo.db, p)
    ensures engine.repo.db.approvals == [Approval(p, ApprovalStatus.Rejected)]
    ensures engine.repo.db.actions == paused.actions && engine.repo.db.handoffs == paused.handoffs
  {
    hide Base, Inv, RefusedTasks;
    PausedFacts(paused, engine.settings);
    var skipped := engine.repo.TransitionTask(p, TaskStatus.Skipped, false);
    assert skipped.Fine?;
    var moved := engine.repo.TransitionRun(RunStatus.Running);
    assert moved.Fine?;
    FinishRefusal(engine, p, paused);
  }

  method FinishRefusal(engine: CoordinatorEngine, ghost p: nat, ghost paused: Db)
    requires Inv(paused, engine.settings) && paused.run.status == RunStatus.AwaitingApproval
    requires p == paused.approvals[0].task
    requires engine.repo.db == ResolvedDb(paused, p, ApprovalStatus.Rejected, TaskStatus.Skipped, RunStatus.Running)
    modifies engine.repo`db
    ensures Inv(engine.repo.db, engine.settings) && engine.repo.db.run.status == RunStatus.Completed
    ensures RefusedTasks(paused, engine.repo.db, p)
    ensures engine.repo.db.approvals == [Approval(p, ApprovalStatus.Rejected)]
    ensures engine.repo.db.actions == paused.actions && engine.repo.db.handoffs == paused.handoffs
  {
    hide Base, Inv, Starts, ChainOk, Holder;
    PausedFacts(paused, engine.settings);
    ResolveRow(paused, engine.settings, ApprovalStatus.Rejected, TaskStatus.Skipped, RunStatus.Running);
    ghost var start := engine.repo.db;
    assert start.approvals[0].status == ApprovalStatus.Rejected;
    SkipUnstarted(engine.repo, p, engine.settings.maxRetries);
    ghost var refused := engine.repo.db;
    SkippedAll(start.tasks, refused.tasks, p);
    var moved := engine.repo.TransitionRun(RunStatus.Completed);
    assert moved.Fine?;
    RefusedInv(refused, engine.repo.db, p, engine.settings);
  }

  /** The run as a grant leaves it for the resume, and what that starts from. */
  function GrantedDb(db: Db): Db
    requires db.approvals != [] && db.approvals[0].task < |db.tasks|
  {
    ResolvedDb(db, db.approvals[0].task, ApprovalStatus.Approved, TaskStatus.Succeeded, RunStatus.Running)
  }

  function GrantMeter(st: Settings, db: Db, start: nat): Meter
    requires db.approvals != [] && db.approvals[0].task < |db.tasks|
  {
    ResumeMeter(st, GrantedDb(db), start, db.approvals[0].task)
  }

  function ForetellGrant(env: Env, db: Db, st: Settings): Run
    requires db.approvals != [] && db.approvals[0].task < |db.tasks|
  {
    ForetellResume(env, GrantedDb(db), db.approvals[0].task, st)
  }

  /** What a resume that is foretold to stop like this is answered with. */
  function GrantResponse(stop: Stop): Response {
    var s := ResumeEnd(stop);
    if s.Fine? then Resolved else RolledBack(ResumeFailed(s.fault))
  }

  /** A grant goes through when time and the budget left suffice for the tasks behind the pause
      and none of their attempts dies, raises a limit or asks for approval again. */
  lemma GrantGoesThrough(env: Env, st: Settings, db: Db, start: nat)
    requires db.approvals != [] && db.approvals[0].task < |db.tasks|
    requires var m := GrantMeter(st, db, start);
             Ample(env, m, db.run.stepsUsed, st) && !SomeMayDie(env, m) && !SomeMayAsk(env, m)
    ensures GrantResponse(ForetellGrant(env, db, st).stop) == Resolved
  {
    hide RunFrom, StepDemand, CallDemand;
    var m, granted := GrantMeter(st, db, start), GrantedDb(db);
    AmpleTasks(env, m, st.maxRetries);
    AmpleForetold(env, granted.tasks, granted.tasks, granted.handoffs, m.from, ProfileLimits(Fast).3, st,
                  Tally(granted.run.stepsUsed, m.calls));
  }

  /** A grant whose action applied: the run is completed with everything recorded before kept,
      the tasks behind the pause in accord with their replies; or nothing happened, and the
      exception that broke the resume shows its cause in the rows it reached. A smooth resume
      ends as foretold. */
  ghost predicate GrantAnswer(response: Response, st: Settings, before: Db, after: Db, start: nat, end: nat, env: Env)
    requires before.approvals != [] && before.approvals[0].task < |before.tasks|
  {
    var p, m, granted := before.approvals[0].task, GrantMeter(st, before, start), GrantedDb(before);
    var run := ForetellGrant(env, before, st);
    && (match response
        case Resolved =>
          && after.run.status == RunStatus.Completed && ResumeKept(env, m, end, granted, after, st.maxRetries)
          && RowsSpan(env, after.tasks, m.from).Charged(m.calls, Calls(after.run.llmCallsUsed, after.run.toolCallsUsed))
          && after.tasks[..p] == before.tasks[..p]
          && after.tasks[p] == before.tasks[p].(status := TaskStatus.Succeeded)
        case RolledBack(ResumeFailed(fault)) =>
          after == before && exists db :: ResumeBroke(fault, env, m, end, granted, db, st)
        case _ => false)
    && (Smoothly(env, m, end) ==>
          && response == GrantResponse(run.stop)
          && (run.stop == Done ==>
                after.tasks == run.tasks && after.handoffs == run.handoffs && Counted(after.run, run.tally)))
  }

  /** The answer to the call and the run it leaves, given that the run is paused and the
      approval pending; the call takes the waits from `start` to `end`. */
  ghost predicate Answer(response: Response, st: Settings, before: Db, after: Db, start: nat, end: nat,
                         target: ApprovalStatus, overdue: bool, action: Action, wired: bool, env: Env)
    requires before.approvals != [] && before.approvals[0].task < |before.tasks|
  {
    var p := before.approvals[0].task;
    if overdue then
      response == Conflict
      && after == ResolvedDb(before, p, ApprovalStatus.Expired, TaskStatus.TimedOut, RunStatus.TimedOut)
    else if target == ApprovalStatus.Rejected then
      && response == Resolved && after.run.status == RunStatus.Completed
      && after.approvals == [Approval(p, ApprovalStatus.Rejected)] && after.actions == before.actions
      && RefusedTasks(before, after, p)
    else if action != Applies then response == RolledBack(ActionFailed) && after == before
    else if !wired then response == RolledBack(Unavailable) && after == before
    else GrantAnswer(response, st, before, after, start, end, env)
  }

  /** resolve_approval, called by the approve and reject routes on approval k. */
  method ResolveApproval(engine: CoordinatorEngine, k: nat, target: ApprovalStatus, overdue: bool,
                         action: Action, coordinatorWired: bool, env: Env)
    returns (response: Response)
    requires target in {ApprovalStatus.Approved, ApprovalStatus.Rejected}
    requires engine.Journal() && Inv(engine.repo.db, engine.settings) && engine.repo.saved == engine.repo.db
    modifies engine`waits, engine.repo
    ensures engine.Journal() && engine.repo.db == engine.repo.saved && Inv(engine.repo.db, engine.settings)
    ensures old(engine.repo.commits) <= engine.repo.commits && old(engine.waits) <= engine.waits
    ensures GrownRows(old(engine.repo.db).tasks, engine.repo.db.tasks)
    ensures response in {NotFound, RunIsTerminal} || response.RolledBack? ==>
              engine.repo.db == old(engine.repo.db) && engine.repo.commits == old(engine.repo.commits)
    ensures TerminalRun(old(engine.repo.db).run.status) ==> engine.repo.db == old(engine.repo.db)
    ensures var before := old(engine.repo.db);
            if k >= |before.approvals| then response == NotFound
            else if TerminalRun(before.run.status) then
              response == if before.approvals[k].status == target then Resolved else RunIsTerminal
            else
              && before.run.status == RunStatus.AwaitingApproval && before.approvals[0].task < |before.tasks|
              && Answer(response, engine.settings, before, engine.repo.db, old(engine.waits), engine.waits, target,
                        overdue, action, coordinatorWired, env)
  {
    hide Base, Inv, Extends, GrantAnswer, GrownRows, Shape, NoneCancelled, Starts, StampsOk, CountersOk, Holder;
    var repo := engine.repo;
    ghost var before, start := repo.db, engine.waits;
    GrownSame(before.tasks);
    if k >= |repo.db.approvals| {
      return NotFound;
    }
    if TerminalRun(repo.db.run.status) {
      return if repo.db.approvals[k].status == target then Resolved else RunIsTerminal;
    }
    PausedFacts(repo.db, engine.settings);
    var p := repo.db.approvals[k].task;
    var s := repo.ResolveApproval(k, target, overdue);
    if s.Raised? {
      assert repo.db.approvals == [Approval(p, ApprovalStatus.Expired)];
      Expire(engine, k, p, before);
      ResolvedExtends(before, engine.settings, ApprovalStatus.Expired, TaskStatus.TimedOut, RunStatus.TimedOut);
      ExtendsRows(before, repo.db);
      engine.Checkpoint();
      return Conflict;
    }
    assert repo.db.approvals == [Approval(p, target)];
    if target == ApprovalStatus.Approved {
      var setback := Grant(engine, p, before, action, coordinatorWired, env);
      if setback.Some? {
        repo.Rollback();
        return RolledBack(setback.value);
      }
    } else {
      Refuse(engine, p, before);
      RefusedExtends(before, repo.db, p, engine.settings);
    }
    ExtendsRows(before, repo.db);
    engine.Checkpoint();
    return Resolved;
  }

  /** The grant branch: apply the action, mark the task succeeded, resume the run. */
  method Grant(engine: CoordinatorEngine, p: nat, ghost paused: Db, action: Action, wired: bool, env: Env)
    returns (setback: Option<Setback>)
    requires Inv(paused, engine.settings) && paused.run.status == RunStatus.AwaitingApproval
    requires p == paused.approvals[0].task
    requires engine.repo.db == paused.(approvals := [Approval(p, ApprovalStatus.Approved)])
    modifies engine`waits, engine.repo`db
    ensures old(engine.waits) <= engine.waits
    ensures if action != Applies then setback == Some(ActionFailed)
            else if !wired then setback == Some(Unavailable)
            else
              var now, st := engine.waits, engine.settings;
              if setback.None? then GrantAnswer(Resolved, st, paused, engine.repo.db, old(engine.waits), now, env)
              else GrantAnswer(RolledBack(setback.value), st, paused, paused, old(engine.waits), now, env)
    ensures setback.None? ==>
              && Inv(engine.repo.db, engine.settings) && engine.repo.db.run.status == RunStatus.Completed
              && Extends(paused, engine.repo.db)
  {
    hide Base, Inv, Extends, GrantAnswer;
    if action != Applies {
      return Some(ActionFailed);
    }
    PausedFacts(paused, engine.settings);
    var repo := engine.repo;
    repo.db := repo.db.(actions := repo.db.actions + 1);
    var granted := repo.TransitionTask(p, TaskStatus.Succeeded, false);
    assert granted.Fine?;
    var moved := repo.TransitionRun(RunStatus.Running);
    assert moved.Fine?;
    if !wired {
      return Some(Unavailable);
    }
    var s := ResumeGranted(engine, p, paused, env);
    return if s.Raised? then Some(ResumeFailed(s.fault)) else None;
  }

  /** The resume of a granted run. */
  method ResumeGranted(engine: CoordinatorEngine, p: nat, ghost paused: Db, env: Env) returns (s: Signal)
    requires Inv(paused, engine.settings) && paused.run.status == RunStatus.AwaitingApproval
    requires p == paused.approvals[0].task && engine.repo.db == GrantedDb(paused)
    modifies engine`waits, engine.repo`db
    ensures old(engine.waits) <= engine.waits
    ensures GrantAnswer(if s.Fine? then Resolved else RolledBack(ResumeFailed(s.fault)), engine.settings, paused,
                        if s.Fine? then engine.repo.db else paused, old(engine.waits), engine.waits, env)
    ensures s.Fine? ==>
              && Inv(engine.repo.db, engine.settings) && engine.repo.db.run.status == RunStatus.Completed
              && Extends(paused, engine.repo.db)
  {
    hide Base, Inv, Extends, ResumeBroke, RunFrom, Smoothly, RowsSpan, Starts, Holder, StampsOk, CountersOk;
    ghost var granted, start := engine.repo.db, engine.waits;
    PausedFacts(paused, engine.settings);
    GrantResumable(engine, paused);
    ResolvedExtends(paused, engine.settings, ApprovalStatus.Approved, TaskStatus.Succeeded, RunStatus.Running);
    s := engine.ResumeAfterApproval(env, p);
    if s.Fine? {
      ExtendsTransitive(paused, granted, engine.repo.db);
      KeptPrefix(paused.tasks, granted, engine.repo.db, p);
    } else {
      ghost var m := GrantMeter(engine.settings, paused, start);
      assert ResumeBroke(s.fault, env, m, engine.waits, granted, engine.repo.db, engine.settings);
    }
  }

  lemma ExtendsRows(before: Db, after: Db)
    requires Extends(before, after) && before.tasks != []
    ensures GrownRows(before.tasks, after.tasks)
  {
  }

  lemma KeptPrefix(before: seq<TaskRow>, granted: Db, after: Db, p: nat)
    requires p < |before| && Shape(before, p) && Extends(granted, after)
    requires granted.tasks == before[p := before[p].(status := TaskStatus.Succeeded)]
    ensures |after.tasks| == |before| && after.tasks[..p] == before[..p] && after.tasks[p] == granted.tasks[p]
  {
    forall j | 0 <= j <= p
      ensures after.tasks[j] == granted.tasks[j]
    {
      assert Grown(granted.tasks[j], after.tasks[j]);
    }
  }

  /** The expiry branch: the paused task and the run time out; later tasks are not touched. */
  method Expire(engine: CoordinatorEngine, k: nat, p: nat, ghost before: Db)
    requires Inv(before, engine.settings) && before.run.status == RunStatus.AwaitingApproval
    requires k == 0 && p == before.approvals[0].task
    requires engine.repo.db == before.(approvals := [Approval(p, ApprovalStatus.Expired)])
    requires p < |before.tasks| && before.tasks[p].status == TaskStatus.AwaitingApproval
    modifies engine.repo`db
    ensures engine.repo.db == ResolvedDb(before, p, ApprovalStatus.Expired, TaskStatus.TimedOut, RunStatus.TimedOut)
    ensures var db := engine.repo.db;
            && db.run.status == RunStatus.TimedOut && db.approvals == [Approval(p, ApprovalStatus.Expired)]
            && |db.tasks| == |before.tasks| && db.tasks[p].status == TaskStatus.TimedOut
            && (forall j :: 0 <= j < |db.tasks| && j != p ==> db.tasks[j] == before.tasks[j])
            && db.actions == before.actions && db.handoffs == before.handoffs
    ensures Inv(engine.repo.db, engine.settings)
  {
    hide Base, Inv;
    var repo := engine.repo;
    if repo.db.approvals[k].status == ApprovalStatus.Expired {
      if repo.db.tasks[p].status == TaskStatus.AwaitingApproval {
        var timed := repo.TransitionTask(p, TaskStatus.TimedOut, false);
        assert timed.Fine?;
      }
      if repo.db.run.status == RunStatus.AwaitingApproval {
        var moved := repo.TransitionRun(RunStatus.TimedOut);
        assert moved.Fine?;
      }
    }
    ExpiredInv(before, engine.settings);
  }

  // --- Cancellation and recovery ----------------------------------------------------

  /** cancel_run: refused on other terminal runs, a no-op on a cancelled one. */
  method CancelRun(engine: CoordinatorEngine) returns (ok: bool)
    requires engine.Journal() && Inv(engine.repo.db, engine.settings) && engine.repo.saved == engine.repo.db
    modifies engine.repo
    ensures engine.Journal() && engine.repo.db == engine.repo.saved && Inv(engine.repo.db, engine.settings)
    ensures old(engine.repo.commits) <= engine.repo.commits
    ensures GrownRows(old(engine.repo.db).tasks, engine.repo.db.tasks)
    ensures TerminalRun(old(engine.repo.db).run.status) ==> engine.repo.db == old(engine.repo.db)
    ensures ok <==> old(engine.repo.db).run.status == RunStatus.Cancelled
                    || !TerminalRun(old(engine.repo.db).run.status)
    ensures ok ==> engine.repo.db.run.status == RunStatus.Cancelled
    ensures ok && !TerminalRun(old(engine.repo.db).run.status) ==>
              CancelledRows(old(engine.repo.db).tasks, engine.repo.db.tasks)
  {
    hide Base, Inv, Extends;
    var repo := engine.repo;
    ghost var before := repo.db;
    GrownSame(before.tasks);
    if repo.db.run.status == RunStatus.Cancelled {
      return true;
    }
    if TerminalRun(repo.db.run.status) {
      return false;
    }
    var n := repo.CancelQueuedTasks();
    var moved := repo.TransitionRun(RunStatus.Cancelled);
    assert moved.Fine?;
    if repo.db.approvals != [] {
      PausedFacts(before, engine.settings);
    } else {
      NoApproval(before, engine.settings);
    }
    var k := 0;
    while k < |repo.db.approvals|
      invariant k <= |repo.db.approvals| == |before.approvals| <= 1
      invariant repo.db == before.(tasks := repo.db.tasks, run := Moved(before.run, RunStatus.Cancelled),
                                   approvals := repo.db.approvals)
      invariant CancelledRows(before.tasks, repo.db.tasks)
      invariant engine.Journal() && repo.saved == before && repo.commits == old(repo.commits)
      invariant k == 0 ==> repo.db.approvals == before.approvals
      invariant k == 1 ==> repo.db.approvals == [Approval(before.approvals[0].task, ApprovalStatus.Cancelled)]
    {
      if repo.db.approvals[k].status == ApprovalStatus.Pending {
        var resolved := repo.ResolveApproval(k, ApprovalStatus.Cancelled, false);
        assert resolved.Fine?;
      }
      k := k + 1;
    }
    CancelledInv(before, repo.db, engine.settings);
    GrownCancel(before.tasks, repo.db.tasks);
    engine.Checkpoint();
    return true;
  }

  lemma NoApproval(db: Db, st: Settings)
    requires Inv(db, st) && db.approvals == []
    ensures db.actions == 0
  {
  }

  lemma CancelledInv(before: Db, after: Db, st: Settings)
    requires Inv(before, st) && !TerminalRun(before.run.status)
    requires after == before.(tasks := after.tasks, run := Moved(before.run, RunStatus.Cancelled),
                              approvals := after.approvals)
    requires CancelledRows(before.tasks, after.tasks)
    requires before.approvals == [] ==> after.approvals == []
    requires before.approvals != [] ==>
               after.approvals == [Approval(before.approvals[0].task, ApprovalStatus.Cancelled)]
    ensures Inv(after, st) && Extends(before, after)
  {
    hide Base, RowOk;
    var cancelled := before.(tasks := after.tasks);
    BaseOf(before, st);
    BaseCancel(before, cancelled, st.maxRetries);
    if before.approvals != [] {
      PausedFacts(before, st);
      NotRejected(before);
      var p := before.approvals[0].task;
      assert after.tasks[p] == CancelledRow(before.tasks[p]);
    }
    assert !WasRejected(before);
    SameTasksBase(cancelled, after, st.maxRetries);
  }

  lemma BaseOf(db: Db, st: Settings)
    requires Inv(db, st)
    ensures Base(db, st.maxRetries)
  {
  }

  /** recover_stale_runs on one run, `stale` if it was updated before the cutoff: stale
      interrupted runs fail, pauses and terminal runs survive. */
  method RecoverStaleRun(engine: CoordinatorEngine, enabled: bool, stale: bool) returns (recovered: bool)
    requires engine.Journal() && Inv(engine.repo.db, engine.settings) && engine.repo.saved == engine.repo.db
    modifies engine.repo
    ensures engine.Journal() && engine.repo.db == engine.repo.saved && Inv(engine.repo.db, engine.settings)
    ensures old(engine.repo.commits) <= engine.repo.commits
    ensures GrownRows(old(engine.repo.db).tasks, engine.repo.db.tasks)
    ensures recovered <==>
              && enabled && stale
              && old(engine.repo.db).run.status in {RunStatus.Pending, RunStatus.Planning, RunStatus.Running}
    ensures !recovered ==> engine.repo.db == old(engine.repo.db)
    ensures recovered ==> engine.repo.db.run.status == RunStatus.Failed
                          && CancelledRows(old(engine.repo.db).tasks, engine.repo.db.tasks)
  {
    hide Base, Inv;
    var repo := engine.repo;
    GrownSame(repo.db.tasks);
    if !enabled || !stale || repo.db.run.status !in {RunStatus.Pending, RunStatus.Planning, RunStatus.Running} {
      return false;
    }
    ghost var before := repo.db;
    var n := repo.CancelQueuedTasks();
    var moved := repo.TransitionRun(RunStatus.Failed);
    assert moved.Fine?;
    InterruptedFailable(engine, before);
    engine.EndedInv(before, repo.db, RunStatus.Failed);
    ExtendsCancel(before, repo.db);
    GrownCancel(before.tasks, repo.db.tasks);
    engine.Checkpoint();
    return true;
  }

  lemma InterruptedFailable(engine: CoordinatorEngine, db: Db)
    requires Inv(db, engine.settings)
    requires db.run.status in {RunStatus.Pending, RunStatus.Planning, RunStatus.Running}
    ensures engine.Failable(db) && CountersOk(db, engine.settings)
  {
  }
}
