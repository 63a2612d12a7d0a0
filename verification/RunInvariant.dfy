/** What every committed state of a run satisfies, whatever happened to it. */
module RunInvariant {
  import opened Signals
  import opened AgentStates
  import opened RunStore

  datatype Settings = Settings(
    maxSteps: nat, maxLlmCalls: nat, maxToolCalls: nat, maxRetries: nat,
    contextMaxCharacters: nat, runTimeout: nat, taskTimeout: nat, synthesisTimeout: nat,
    interactiveFastMode: bool)

  /** Starts of tasks and the persisted counters stay within their caps. */
  predicate CountersOk(db: Db, st: Settings) {
    && db.run.maximumSteps == st.maxSteps
    && Starts(db.tasks) <= st.maxSteps
    && db.run.stepsUsed <= st.maxSteps
    && db.run.llmCallsUsed <= st.maxLlmCalls
    && db.run.toolCallsUsed <= st.maxToolCalls
  }

  predicate NoneCancelled(tasks: seq<TaskRow>) {
    forall j :: 0 <= j < |tasks| ==> tasks[j].status != TaskStatus.Cancelled
  }

  /** The task left a conversation text behind. */
  predicate Spoke(t: TaskRow) {
    t.attempts != [] && Speaks(t.agent, Last(t.attempts))
  }

  predicate SomeoneSpoke(tasks: seq<TaskRow>) {
    exists j :: 0 <= j < |tasks| && Spoke(tasks[j])
  }

  /** The durable pause: one pending approval on the front task, which holds the baton. */
  predicate Paused(db: Db) {
    && |db.approvals| == 1 && db.approvals[0].status == ApprovalStatus.Pending
    && var p := db.approvals[0].task;
    && p < |db.tasks| && db.tasks[p].status == TaskStatus.AwaitingApproval
    && Shape(db.tasks, p) && NoneCancelled(db.tasks)
    && Holder(db.handoffs) == db.tasks[p].agent
    && Starts(db.tasks) == db.run.stepsUsed
  }

  /** What is left behind when the approval expired: the paused task timed out, the
      tasks after it were never touched. */
  predicate Lapsed(db: Db) {
    && |db.approvals| == 1 && db.approvals[0].status == ApprovalStatus.Expired
    && var p := db.approvals[0].task;
    && p < |db.tasks| && db.tasks[p].status == TaskStatus.TimedOut && Shape(db.tasks, p)
  }

  /** The only approval of a run that reached its end. */
  predicate ResolvedAs(db: Db, status: ApprovalStatus, taskStatus: TaskStatus) {
    && |db.approvals| == 1 && db.approvals[0].status == status
    && db.approvals[0].task < |db.tasks|
    && db.tasks[db.approvals[0].task].status == taskStatus
  }

  predicate StatusOk(db: Db) {
    match db.run.status
    case Pending => db.tasks == [] && db.approvals == []
    case Planning => db.tasks == [] && db.approvals == []
    case Running => db.approvals == []
    case AwaitingApproval => Paused(db)
    case Completed =>
      && AllTerminal(db.tasks) && NoneCancelled(db.tasks)
      && Starts(db.tasks) == db.run.stepsUsed
      && (|| (db.approvals == [] && SomeoneSpoke(db.tasks))
          || ResolvedAs(db, ApprovalStatus.Approved, TaskStatus.Succeeded)
          || ResolvedAs(db, ApprovalStatus.Rejected, TaskStatus.Skipped))
    case Failed => AllTerminal(db.tasks) && db.approvals == []
    case Cancelled =>
      && AllTerminal(db.tasks)
      && (db.approvals == [] || ResolvedAs(db, ApprovalStatus.Cancelled, TaskStatus.Cancelled))
    case TimedOut => (AllTerminal(db.tasks) && db.approvals == []) || Lapsed(db)
  }

  predicate Granted(db: Db) {
    |db.approvals| == 1 && db.approvals[0].status == ApprovalStatus.Approved
  }

  ghost predicate Inv(db: Db, st: Settings) {
    && Base(db, st.maxRetries)
    && StampsOk(db.run)
    && CountersOk(db, st)
    && StatusOk(db)
    && db.actions == (if Granted(db) then 1 else 0)
  }

  /** From one commit to the next no work is undone, and a terminal state is final. */
  predicate Succession(a: Db, b: Db) {
    Extends(a, b) && (TerminalRun(a.run.status) ==> b == a)
  }

  /** A run as create_run and the start checkpoint leave it. */
  function Created(st: Settings): Db {
    Db(RunRow(RunStatus.Pending, st.maxSteps, 0, 0, 0, false, false, false), [], [], [], 0)
  }

  /** The commits of a run in their order. */
  ghost predicate History(commits: seq<Db>, st: Settings) {
    && commits != [] && commits[0] == Created(st)
    && (forall k :: 0 <= k < |commits| ==> Inv(commits[k], st))
    && (forall k :: 0 <= k < |commits| - 1 ==> Succession(commits[k], commits[k + 1]))
  }

  lemma HistoryMore(commits: seq<Db>, db: Db, st: Settings)
    requires History(commits, st) && Inv(db, st) && Succession(Last(commits), db)
    ensures History(commits + [db], st)
  {
    hide Inv, Succession;
    var longer := commits + [db];
    forall k | 0 <= k < |longer| - 1
      ensures Succession(longer[k], longer[k + 1])
    {
      if k == |commits| - 1 {
        assert longer[k] == Last(commits);
      }
    }
  }
}
