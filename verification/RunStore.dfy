/** The persisted run and its repository: backend/app/agents/repository.py. A `Db` value is
    what one database session sees of one run; commit and rollback copy it to and from
    the value that survives the session. */
module RunStore {
  import opened Signals
  import opened AgentStates
  import Plans

  /** One start of a task and how it ended: the model's record of the events
      task_started, task_retrying, task_failed and task_completed. */
  datatype Attempt =
    | Open                                 // started, not ended
    | TimeLimit(retry: bool)               // the task timed out; may the policy retry it?
    | LimitHit                             // AgentLimitExceededError
    | Errored(retry: bool, late: bool)     // any other exception; is it retryable? is it the
                                           // budget's own, because the run is past its deadline?
    | Refused(retry: bool, speaks: bool)   // a result without success
    | Answered(speaks: bool)               // a successful result; does it hold the final text?
    | AskedApproval                        // a result that asks for the user's approval

  /** `handoffMark` is the length of the handoff log when the task was started. */
  datatype TaskRow = TaskRow(
    sequence: int, agent: string, dependencies: seq<int>, maximumRetries: nat,
    status: TaskStatus, retryCount: nat, attempts: seq<Attempt>, handoffMark: nat)

  /** The three time stamps are modelled as set or not set. */
  datatype RunRow = RunRow(
    status: RunStatus, maximumSteps: nat, stepsUsed: nat, llmCallsUsed: nat, toolCallsUsed: nat,
    completedAt: bool, failedAt: bool, cancelledAt: bool)

  datatype Approval = Approval(task: nat, status: ApprovalStatus)

  datatype Handoff = Handoff(source: string, target: string)

  /** Task rows are kept in sequence order, the order in which every loop visits them;
      `actions` counts the approved actions applied in this session's view. */
  datatype Db = Db(
    run: RunRow, tasks: seq<TaskRow>, approvals: seq<Approval>, handoffs: seq<Handoff>,
    actions: nat)

  const CONVERSATION := "conversation"

  /** The coordinator tries again after an attempt that ended like this. */
  predicate Retryable(agent: string, a: Attempt) {
    match a
    case TimeLimit(r) => r && agent != CONVERSATION
    case Errored(r, _) => r && agent != CONVERSATION
    case Refused(r, _) => r
    case _ => false
  }

  /** The status a task takes after its last attempt; the conversation agent degrades
      to its deterministic fallback instead of failing. */
  function Settled(agent: string, a: Attempt): TaskStatus {
    match a
    case TimeLimit(_) => if agent == CONVERSATION then TaskStatus.Succeeded else TaskStatus.TimedOut
    case Errored(_, _) => if agent == CONVERSATION then TaskStatus.Succeeded else TaskStatus.Failed
    case Answered(_) => TaskStatus.Succeeded
    case _ => TaskStatus.Failed
  }

  /** The attempt leaves a conversation text behind. */
  predicate Speaks(agent: string, a: Attempt) {
    match a
    case TimeLimit(_) => agent == CONVERSATION
    case Errored(_, _) => agent == CONVERSATION
    case Refused(_, s) => s
    case Answered(s) => s
    case _ => false
  }

  function Last<T>(s: seq<T>): T
    requires s != []
  {
    s[|s| - 1]
  }

  function RetryCap(t: TaskRow, globalRetries: nat): nat {
    Min(t.maximumRetries, globalRetries)
  }

  /** One row agrees with its own history: every attempt but the last was retried, the
      retry counter counts them and stays within its cap, and the status is the one the
      last attempt calls for. */
  predicate RowOk(t: TaskRow, globalRetries: nat) {
    var n := |t.attempts|;
    && t.retryCount <= RetryCap(t, globalRetries)
    && (forall k :: 0 <= k < n - 1 ==> Retryable(t.agent, t.attempts[k]))
    && (match t.status
        case Pending => n == 0 && t.retryCount == 0
        case Ready => n == t.retryCount && (n > 0 ==> Retryable(t.agent, Last(t.attempts)))
        case Running =>
          n == t.retryCount + 1 && (Last(t.attempts).Open? || Last(t.attempts).AskedApproval?)
        case AwaitingApproval => n == t.retryCount + 1 && Last(t.attempts).AskedApproval?
        case Skipped =>
          (n == 0 && t.retryCount == 0) || (n == t.retryCount + 1 && Last(t.attempts).AskedApproval?)
        case Cancelled => t.retryCount <= n <= t.retryCount + 1
        case _ => n == t.retryCount + 1 && SettledOk(t, globalRetries))
  }

  /** A succeeded, failed or timed-out row: its last attempt was the last one allowed or
      one that is never retried, or it was an approval the user granted or let expire. */
  predicate SettledOk(t: TaskRow, globalRetries: nat)
    requires t.attempts != []
  {
    var a := Last(t.attempts);
    && !a.Open?
    && (if a.AskedApproval? then t.status != TaskStatus.Failed
        else
          && t.status == Settled(t.agent, a)
          && (Retryable(t.agent, a) ==> t.retryCount == RetryCap(t, globalRetries)))
  }

  /** The last attempt asked for the user's approval. */
  predicate Asked(t: TaskRow) {
    t.attempts != [] && Last(t.attempts).AskedApproval?
  }

  /** The approval gate: a task that asked and has succeeded, been skipped or timed out is the
      task of the run's approval, and that was granted, rejected or left to expire. */
  predicate GateRow(t: TaskRow, i: nat, approvals: seq<Approval>) {
    Asked(t) ==>
      match t.status
      case Succeeded => approvals == [Approval(i, ApprovalStatus.Approved)]
      case Skipped => approvals == [Approval(i, ApprovalStatus.Rejected)]
      case TimedOut => approvals == [Approval(i, ApprovalStatus.Expired)]
      case _ => true
  }

  lemma PendingUntouched(t: TaskRow, globalRetries: nat)
    requires RowOk(t, globalRetries) && t.status == TaskStatus.Pending
    ensures t.attempts == [] && t.retryCount == 0
  {
  }

  /** Rows are in strict sequence order and depend on earlier sequences only, as
      validate_plan demands. */
  predicate Ordered(tasks: seq<TaskRow>) {
    && (forall i, j :: 0 <= i < j < |tasks| ==> tasks[i].sequence < tasks[j].sequence)
    && (forall i, d :: 0 <= i < |tasks| && d in tasks[i].dependencies ==> d < tasks[i].sequence)
  }

  predicate SucceededSeq(tasks: seq<TaskRow>, sequence: int) {
    exists j :: 0 <= j < |tasks| && tasks[j].sequence == sequence
                && tasks[j].status == TaskStatus.Succeeded
  }

  predicate DepsSucceeded(tasks: seq<TaskRow>, i: nat)
    requires i < |tasks|
  {
    forall d :: d in tasks[i].dependencies ==> SucceededSeq(tasks, d)
  }

  /** Rows before `front` are terminal and rows after it untouched. */
  predicate Shape(tasks: seq<TaskRow>, front: nat) {
    && front <= |tasks|
    && (forall j :: 0 <= j < front ==> TerminalTask(tasks[j].status))
    && (forall j :: front < j < |tasks| ==> tasks[j].status == TaskStatus.Pending)
  }

  predicate AllTerminal(tasks: seq<TaskRow>) {
    forall j :: 0 <= j < |tasks| ==> TerminalTask(tasks[j].status)
  }

  function Starts(tasks: seq<TaskRow>): nat {
    if tasks == [] then 0 else Starts(tasks[..|tasks| - 1]) + |Last(tasks).attempts|
  }

  /** The agent that holds the baton. */
  function Holder(handoffs: seq<Handoff>): string {
    if handoffs == [] then "coordinator" else Last(handoffs).target
  }

  /** One connected chain from the coordinator, without self-handoffs. */
  predicate ChainOk(handoffs: seq<Handoff>) {
    forall k :: 0 <= k < |handoffs| ==>
      handoffs[k].source == Holder(handoffs[..k]) && handoffs[k].source != handoffs[k].target
  }

  /** A started task belongs to the agent that held the baton when it was started. */
  predicate MarkOk(t: TaskRow, handoffs: seq<Handoff>) {
    t.attempts != [] ==>
      0 < t.handoffMark <= |handoffs| && handoffs[t.handoffMark - 1].target == t.agent
  }

  predicate WasRejected(db: Db) {
    exists k :: 0 <= k < |db.approvals| && db.approvals[k].status == ApprovalStatus.Rejected
  }

  /** The part of the invariant every session state satisfies, in and between steps. */
  ghost predicate Base(db: Db, globalRetries: nat) {
    && Ordered(db.tasks)
    && (forall i :: 0 <= i < |db.tasks| ==> RowOk(db.tasks[i], globalRetries))
    && (forall i :: 0 <= i < |db.tasks| && db.tasks[i].attempts != [] ==> DepsSucceeded(db.tasks, i))
    && (forall i :: 0 <= i < |db.tasks| && db.tasks[i].status == TaskStatus.Skipped && !WasRejected(db) ==>
          db.tasks[i].attempts == [] && !DepsSucceeded(db.tasks, i))
    && ChainOk(db.handoffs)
    && (forall i :: 0 <= i < |db.tasks| ==> MarkOk(db.tasks[i], db.handoffs))
    && (forall i :: 0 <= i < |db.tasks| ==> GateRow(db.tasks[i], i, db.approvals))
  }

  lemma RowFacts(db: Db, i: nat, globalRetries: nat)
    requires Base(db, globalRetries) && i < |db.tasks|
    ensures RowOk(db.tasks[i], globalRetries) && MarkOk(db.tasks[i], db.handoffs)
    ensures GateRow(db.tasks[i], i, db.approvals)
    ensures db.tasks[i].attempts != [] ==> DepsSucceeded(db.tasks, i)
  {
  }

  /** The time stamp of a terminal run is the one its status names, and no other is set. */
  predicate StampsOk(r: RunRow) {
    && (r.completedAt <==> r.status == RunStatus.Completed)
    && (r.failedAt <==> r.status in {RunStatus.Failed, RunStatus.TimedOut})
    && (r.cancelledAt <==> r.status == RunStatus.Cancelled)
  }

  /** The run row after transition_run accepted a move. */
  function Moved(r: RunRow, target: RunStatus): RunRow {
    r.(status := target,
       completedAt := r.completedAt || target == RunStatus.Completed,
       failedAt := r.failedAt || target in {RunStatus.Failed, RunStatus.TimedOut},
       cancelledAt := r.cancelledAt || target == RunStatus.Cancelled)
  }

  /** The task row after transition_task accepted a move; every move to running opens an
      attempt. */
  function MovedTask(t: TaskRow, target: TaskStatus, incrementRetry: bool): TaskRow {
    t.(status := target,
       retryCount := t.retryCount + (if incrementRetry then 1 else 0),
       attempts := if target == TaskStatus.Running then t.attempts + [Open] else t.attempts)
  }

  function WithRow(db: Db, i: nat, t: TaskRow): Db
    requires i < |db.tasks|
  {
    db.(tasks := db.tasks[i := t])
  }

  /** Row i is the only thing that may differ. */
  predicate OnlyRow(before: Db, after: Db, i: nat) {
    && i < |before.tasks| == |after.tasks|
    && after == WithRow(before, i, after.tasks[i])
  }

  function CancelledRow(t: TaskRow): TaskRow {
    if TerminalTask(t.status) then t else t.(status := TaskStatus.Cancelled)
  }

  // --- Lemmas about replacing one row -------------------------------------------

  lemma {:induction false} StartsUpdate(tasks: seq<TaskRow>, i: nat, t: TaskRow)
    requires i < |tasks|
    ensures Starts(tasks[i := t]) == Starts(tasks) - |tasks[i].attempts| + |t.attempts|
    decreases |tasks|
  {
    var updated, n := tasks[i := t], |tasks| - 1;
    if i == n {
      assert updated[..n] == tasks[..n];
    } else {
      assert updated[..n] == tasks[..n][i := t];
      StartsUpdate(tasks[..n], i, t);
    }
  }

  lemma {:induction false} StartsNone(tasks: seq<TaskRow>)
    requires forall j :: 0 <= j < |tasks| ==> tasks[j].attempts == []
    ensures Starts(tasks) == 0
    decreases |tasks|
  {
    if tasks != [] {
      StartsNone(tasks[..|tasks| - 1]);
    }
  }

  lemma {:induction false} StartsSame(a: seq<TaskRow>, b: seq<TaskRow>)
    requires |a| == |b| && forall j :: 0 <= j < |a| ==> a[j].attempts == b[j].attempts
    ensures Starts(a) == Starts(b)
    decreases |a|
  {
    if a != [] {
      StartsSame(a[..|a| - 1], b[..|b| - 1]);
    }
  }

  /** The columns of a row that no step ever writes. */
  predicate SamePlan(a: TaskRow, b: TaskRow) {
    && a.sequence == b.sequence && a.agent == b.agent && a.dependencies == b.dependencies
    && a.maximumRetries == b.maximumRetries
  }

  predicate SameRows(a: seq<TaskRow>, b: seq<TaskRow>) {
    |a| == |b| && forall j :: 0 <= j < |a| ==> SamePlan(a[j], b[j])
  }

  /** Nothing a row records is undone: it keeps its plan columns and its attempts, and once it
      is settled it stays as it is. */
  predicate Grown(a: TaskRow, b: TaskRow) {
    SamePlan(a, b) && a.attempts <= b.attempts && (TerminalTask(a.status) ==> b == a)
  }

  predicate GrownRows(a: seq<TaskRow>, b: seq<TaskRow>) {
    |a| == |b| && forall j :: 0 <= j < |a| ==> Grown(a[j], b[j])
  }

  lemma GrownSame(a: seq<TaskRow>)
    ensures GrownRows(a, a)
  {
  }

  lemma GrownCancel(a: seq<TaskRow>, b: seq<TaskRow>)
    requires CancelledRows(a, b)
    ensures GrownRows(a, b)
  {
  }

  /** A pending approval may be resolved, a resolved one stays as it is. */
  predicate GrownApprovals(a: seq<Approval>, b: seq<Approval>) {
    && |a| <= |b|
    && (forall k :: 0 <= k < |a| ==>
          b[k].task == a[k].task && (a[k].status != ApprovalStatus.Pending ==> b[k] == a[k]))
  }

  /** State b keeps all work state a records. */
  predicate Extends(a: Db, b: Db) {
    && (a.tasks == [] || GrownRows(a.tasks, b.tasks))
    && a.handoffs <= b.handoffs && GrownApprovals(a.approvals, b.approvals) && a.actions <= b.actions
  }

  lemma ExtendsSame(a: Db)
    ensures Extends(a, a)
  {
  }

  lemma ExtendsTransitive(a: Db, b: Db, c: Db)
    requires Extends(a, b) && Extends(b, c)
    ensures Extends(a, c)
  {
    forall j | 0 <= j < |a.tasks|
      ensures Grown(a.tasks[j], c.tasks[j])
    {
      assert Grown(a.tasks[j], b.tasks[j]) && Grown(b.tasks[j], c.tasks[j]);
    }
  }

  /** Work on a row that was never started keeps whatever was recorded before. */
  lemma ExtendsRow(a: Db, b: Db, c: Db, i: nat)
    requires Extends(a, b) && i < |b.tasks| && |c.tasks| == |b.tasks| && c.tasks == b.tasks[i := c.tasks[i]]
    requires !TerminalTask(b.tasks[i].status) && b.tasks[i].attempts == [] && SamePlan(b.tasks[i], c.tasks[i])
    requires b.handoffs <= c.handoffs && c.approvals == b.approvals && c.actions == b.actions
    ensures Extends(a, c)
  {
    forall j | 0 <= j < |a.tasks|
      ensures Grown(a.tasks[j], c.tasks[j])
    {
      assert Grown(a.tasks[j], b.tasks[j]);
    }
  }

  lemma ExtendsCancel(a: Db, b: Db)
    requires CancelledRows(a.tasks, b.tasks) && b.handoffs == a.handoffs
    requires b.approvals == a.approvals && b.actions == a.actions
    ensures Extends(a, b)
  {
  }

  /** Successes other than row i's are unaffected by replacing row i; and since rows
      depend on earlier rows only, rows up to i do not see the change at all. */
  lemma DepsUpdate(tasks: seq<TaskRow>, i: nat, t: TaskRow, j: nat)
    requires Ordered(tasks) && i < |tasks| && j < |tasks| && SamePlan(tasks[i], t)
    ensures tasks[i].status != TaskStatus.Succeeded && DepsSucceeded(tasks, j) ==>
              DepsSucceeded(tasks[i := t], j)
    ensures j <= i ==> (DepsSucceeded(tasks, j) <==> DepsSucceeded(tasks[i := t], j))
  {
    var updated := tasks[i := t];
    forall d | d in tasks[j].dependencies
      ensures tasks[i].status != TaskStatus.Succeeded && SucceededSeq(tasks, d) ==> SucceededSeq(updated, d)
      ensures j <= i ==> (SucceededSeq(tasks, d) <==> SucceededSeq(updated, d))
    {
      if SucceededSeq(tasks, d) {
        var k :| 0 <= k < |tasks| && tasks[k].sequence == d && tasks[k].status == TaskStatus.Succeeded;
        if k != i {
          assert updated[k].sequence == d && updated[k].status == TaskStatus.Succeeded;
        }
      }
      if SucceededSeq(updated, d) {
        var k :| 0 <= k < |updated| && updated[k].sequence == d && updated[k].status == TaskStatus.Succeeded;
        if k != i {
          assert tasks[k].sequence == d && tasks[k].status == TaskStatus.Succeeded;
        }
      }
    }
  }

  /** Replacing the front row keeps the base invariant when the new row is sound. */
  lemma BaseUpdate(db: Db, i: nat, t: TaskRow, globalRetries: nat)
    requires Base(db, globalRetries) && i < |db.tasks| && Shape(db.tasks, i)
    requires SamePlan(db.tasks[i], t) && db.tasks[i].status != TaskStatus.Succeeded
    requires RowOk(t, globalRetries) && MarkOk(t, db.handoffs) && GateRow(t, i, db.approvals)
    requires t.attempts != [] ==> DepsSucceeded(db.tasks, i)
    requires t.status == TaskStatus.Skipped && !WasRejected(db) ==>
               t.attempts == [] && !DepsSucceeded(db.tasks, i)
    ensures Base(WithRow(db, i, t), globalRetries) && Shape(db.tasks[i := t], i)
  {
    hide RowOk, MarkOk, GateRow;
    var updated := db.tasks[i := t];
    forall j | 0 <= j < |updated|
      ensures updated[j].attempts != [] ==> DepsSucceeded(updated, j)
      ensures updated[j].status == TaskStatus.Skipped && !WasRejected(db) ==>
                updated[j].attempts == [] && !DepsSucceeded(updated, j)
    {
      DepsUpdate(db.tasks, i, t, j);
      if j > i {
        PendingUntouched(db.tasks[j], globalRetries);
      }
    }
    assert Ordered(updated) by {
      forall k, d | 0 <= k < |updated| && d in updated[k].dependencies ensures d < updated[k].sequence {
        assert d in db.tasks[k].dependencies;
      }
    }
  }

  ghost predicate CancelledRows(before: seq<TaskRow>, after: seq<TaskRow>) {
    && |after| == |before|
    && (forall j :: 0 <= j < |before| ==> after[j] == CancelledRow(before[j]))
  }

  lemma CancelKeepsSuccess(before: seq<TaskRow>, after: seq<TaskRow>, d: int)
    requires CancelledRows(before, after)
    ensures SucceededSeq(before, d) <==> SucceededSeq(after, d)
  {
    if SucceededSeq(before, d) {
      var k :| 0 <= k < |before| && before[k].sequence == d && before[k].status == TaskStatus.Succeeded;
      assert after[k] == before[k];
    }
  }

  lemma CancelKeepsRow(before: seq<TaskRow>, after: seq<TaskRow>, j: nat, globalRetries: nat)
    requires CancelledRows(before, after) && j < |before| && RowOk(before[j], globalRetries)
    ensures RowOk(after[j], globalRetries) && TerminalTask(after[j].status)
    ensures DepsSucceeded(before, j) <==> DepsSucceeded(after, j)
    ensures SamePlan(before[j], after[j]) && after[j].attempts == before[j].attempts
    ensures after[j].handoffMark == before[j].handoffMark
    ensures after[j].status == TaskStatus.Skipped ==> after[j] == before[j]
  {
    forall d | d in before[j].dependencies
      ensures SucceededSeq(before, d) <==> SucceededSeq(after, d)
    {
      CancelKeepsSuccess(before, after, d);
    }
  }

  lemma OrderedSame(before: seq<TaskRow>, after: seq<TaskRow>)
    requires Ordered(before) && |after| == |before|
    requires forall j :: 0 <= j < |before| ==> SamePlan(before[j], after[j])
    ensures Ordered(after)
  {
    forall i, d | 0 <= i < |after| && d in after[i].dependencies
      ensures d < after[i].sequence
    {
      assert SamePlan(before[i], after[i]);
    }
    forall i, j | 0 <= i < j < |after|
      ensures after[i].sequence < after[j].sequence
    {
      assert SamePlan(before[i], after[i]) && SamePlan(before[j], after[j]);
    }
  }

  /** Cancelling whatever is not terminal keeps the base invariant and leaves no task open. */
  lemma BaseCancel(db: Db, cancelled: Db, globalRetries: nat)
    requires Base(db, globalRetries)
    requires cancelled == db.(tasks := cancelled.tasks) && CancelledRows(db.tasks, cancelled.tasks)
    ensures Base(cancelled, globalRetries) && AllTerminal(cancelled.tasks)
    ensures Starts(cancelled.tasks) == Starts(db.tasks)
  {
    hide RowOk, ChainOk, SucceededSeq, Starts;
    assert WasRejected(cancelled) <==> WasRejected(db);
    forall j | 0 <= j < |db.tasks|
      ensures SamePlan(db.tasks[j], cancelled.tasks[j])
      ensures RowOk(cancelled.tasks[j], globalRetries) && TerminalTask(cancelled.tasks[j].status)
      ensures db.tasks[j].attempts == cancelled.tasks[j].attempts
      ensures cancelled.tasks[j].attempts != [] ==> DepsSucceeded(cancelled.tasks, j)
      ensures cancelled.tasks[j].status == TaskStatus.Skipped && !WasRejected(db) ==>
                cancelled.tasks[j].attempts == [] && !DepsSucceeded(cancelled.tasks, j)
      ensures MarkOk(cancelled.tasks[j], cancelled.handoffs)
      ensures GateRow(cancelled.tasks[j], j, cancelled.approvals)
    {
      CancelKeepsRow(db.tasks, cancelled.tasks, j, globalRetries);
      assert MarkOk(db.tasks[j], db.handoffs) && GateRow(db.tasks[j], j, db.approvals);
    }
    OrderedSame(db.tasks, cancelled.tasks);
    StartsSame(db.tasks, cancelled.tasks);
  }

  lemma ChainExtend(handoffs: seq<Handoff>, target: string)
    requires ChainOk(handoffs) && target != Holder(handoffs)
    ensures ChainOk(handoffs + [Handoff(Holder(handoffs), target)])
    ensures Holder(handoffs + [Handoff(Holder(handoffs), target)]) == target
  {
    var longer := handoffs + [Handoff(Holder(handoffs), target)];
    forall k | 0 <= k < |longer|
      ensures longer[k].source == Holder(longer[..k]) && longer[k].source != longer[k].target
    {
      assert longer[..k] == handoffs[..k];
      if k == |handoffs| {
        assert handoffs[..k] == handoffs;
      }
    }
  }

  /** Marks point into the past, so a longer log does not disturb them. */
  lemma BaseHandoff(db: Db, target: string, globalRetries: nat)
    requires Base(db, globalRetries) && target != Holder(db.handoffs)
    ensures Base(db.(handoffs := db.handoffs + [Handoff(Holder(db.handoffs), target)]), globalRetries)
  {
    ChainExtend(db.handoffs, target);
    var longer := db.(handoffs := db.handoffs + [Handoff(Holder(db.handoffs), target)]);
    forall i | 0 <= i < |longer.tasks|
      ensures MarkOk(longer.tasks[i], longer.handoffs) && GateRow(longer.tasks[i], i, longer.approvals)
    {
      assert MarkOk(db.tasks[i], db.handoffs) && GateRow(db.tasks[i], i, db.approvals);
    }
    assert WasRejected(longer) <==> WasRejected(db);
  }

  predicate NoneResolved(approvals: seq<Approval>) {
    forall k :: 0 <= k < |approvals| ==> approvals[k].status == ApprovalStatus.Pending
  }

  /** Until an approval is resolved no task has passed the gate. */
  lemma NothingGated(db: Db, i: nat, approvals: seq<Approval>)
    requires i < |db.tasks| && GateRow(db.tasks[i], i, db.approvals) && NoneResolved(db.approvals)
    ensures GateRow(db.tasks[i], i, approvals)
  {
    assert db.approvals != [] ==> db.approvals[0].status == ApprovalStatus.Pending;
  }

  /** The base invariant looks at tasks and handoffs, at rejections only to excuse, and at
      approvals only for the tasks that passed the gate. */
  lemma SameTasksBase(a: Db, b: Db, globalRetries: nat)
    requires Base(a, globalRetries) && b.tasks == a.tasks && b.handoffs == a.handoffs
    requires WasRejected(a) ==> WasRejected(b)
    requires b.approvals == a.approvals || NoneResolved(a.approvals)
    ensures Base(b, globalRetries)
  {
    hide GateRow;
    forall i | 0 <= i < |b.tasks|
      ensures GateRow(b.tasks[i], i, b.approvals)
    {
      if b.approvals != a.approvals {
        NothingGated(a, i, b.approvals);
      }
    }
  }

  // --- The repository -------------------------------------------------------------

  class Repository {
    var db: Db     // what the session sees
    var saved: Db  // what is committed
    var commits: seq<Db>  // the model's record of all commits

    constructor (maximumSteps: nat)
      ensures db == saved && commits == [saved]
      ensures db == Db(RunRow(RunStatus.Pending, maximumSteps, 0, 0, 0, false, false, false), [], [], [], 0)
    {
      var created := Db(RunRow(RunStatus.Pending, maximumSteps, 0, 0, 0, false, false, false), [], [], [], 0);
      db, saved, commits := created, created, [created];
    }

    method Commit()
      modifies this`saved, this`commits
      ensures saved == db && commits == old(commits) + [db]
    {
      saved, commits := db, commits + [db];
    }

    method Rollback()
      modifies this`db
      ensures db == saved
    {
      db := saved;
    }

    method TransitionRun(target: RunStatus) returns (s: Signal)
      modifies this`db
      ensures s == if RunMoveAllowed(old(db.run.status), target) then Fine else Raised(BadTransition)
      ensures s.Raised? || (old(db.run.status) == target && TerminalRun(target)) ==> db == old(db)
      ensures s.Fine? && !(old(db.run.status) == target && TerminalRun(target)) ==>
                db == old(db).(run := Moved(old(db.run), target))
    {
      if db.run.status == target && TerminalRun(target) {
        return Fine;
      }
      if !RunMoveAllowed(db.run.status, target) {
        return Raised(BadTransition);
      }
      var run := db.run;
      if target == RunStatus.Completed {
        run := run.(completedAt := true);
      } else if target == RunStatus.Failed {
        run := run.(failedAt := true);
      } else if target == RunStatus.Cancelled {
        run := run.(cancelledAt := true);
      } else if target == RunStatus.TimedOut {
        run := run.(failedAt := true);
      }
      db := db.(run := run.(status := target));
      return Fine;
    }

    method TransitionTask(i: nat, target: TaskStatus, incrementRetry: bool) returns (s: Signal)
      requires i < |db.tasks|
      modifies this`db
      ensures s == if TaskMoveAllowed(old(db.tasks[i].status), target) then Fine else Raised(BadTransition)
      ensures s.Raised? || (old(db.tasks[i].status) == target && TerminalTask(target)) ==> db == old(db)
      ensures s.Fine? && !(old(db.tasks[i].status) == target && TerminalTask(target)) ==>
                db == WithRow(old(db), i, MovedTask(old(db.tasks[i]), target, incrementRetry))
    {
      var t := db.tasks[i];
      if t.status == target && TerminalTask(target) {
        return Fine;
      }
      if !TaskMoveAllowed(t.status, target) {
        return Raised(BadTransition);
      }
      if target == TaskStatus.Running {
        t := t.(attempts := t.attempts + [Open]);
      }
      if incrementRetry {
        t := t.(retryCount := t.retryCount + 1);
      }
      db := db.(tasks := db.tasks[i := t.(status := target)]);
      return Fine;
    }

    /** Record how the open attempt of row i ended. */
    method CloseAttempt(i: nat, a: Attempt)
      requires i < |db.tasks| && db.tasks[i].attempts != []
      modifies this`db
      ensures db == WithRow(old(db), i, old(db.tasks[i]).(
                attempts := old(db.tasks[i].attempts)[|old(db.tasks[i].attempts)| - 1 := a]))
    {
      var t := db.tasks[i];
      db := db.(tasks := db.tasks[i := t.(attempts := t.attempts[|t.attempts| - 1 := a])]);
    }

    method MarkTask(i: nat)
      requires i < |db.tasks|
      modifies this`db
      ensures db == WithRow(old(db), i, old(db.tasks[i]).(handoffMark := |old(db.handoffs)|))
    {
      db := db.(tasks := db.tasks[i := db.tasks[i].(handoffMark := |db.handoffs|)]);
    }

    method AddHandoff(source: string, target: string)
      modifies this`db
      ensures db == old(db).(handoffs := old(db.handoffs) + [Handoff(source, target)])
    {
      db := db.(handoffs := db.handoffs + [Handoff(source, target)]);
    }

    /** create_tasks_from_plan: a pending row for every planned task. */
    method CreateTasks(plan: seq<Plans.PlanTask>)
      modifies this`db
      ensures db == old(db).(tasks := db.tasks) && |db.tasks| == |old(db).tasks| + |plan|
      ensures db.tasks[..|old(db).tasks|] == old(db).tasks
      ensures forall i :: 0 <= i < |plan| ==>
                var row := db.tasks[|old(db).tasks| + i];
                && row.sequence == plan[i].sequence && row.agent == plan[i].agent
                && row.dependencies == plan[i].dependencies && row.maximumRetries == plan[i].maximumRetries
                && row.status == TaskStatus.Pending && row.retryCount == 0
                && row.attempts == [] && row.handoffMark == 0
    {
      ghost var before := db;
      for i := 0 to |plan|
        invariant db == before.(tasks := db.tasks) && |db.tasks| == |before.tasks| + i
        invariant db.tasks[..|before.tasks|] == before.tasks
        invariant forall j :: 0 <= j < i ==>
                    db.tasks[|before.tasks| + j]
                    == TaskRow(plan[j].sequence, plan[j].agent, plan[j].dependencies, plan[j].maximumRetries,
                               TaskStatus.Pending, 0, [], 0)
      {
        var t := plan[i];
        var row := TaskRow(t.sequence, t.agent, t.dependencies, t.maximumRetries, TaskStatus.Pending, 0, [], 0);
        db := db.(tasks := db.tasks + [row]);
      }
    }

    method CreateApproval(task: nat)
      modifies this`db
      ensures db == old(db).(approvals := old(db.approvals) + [Approval(task, ApprovalStatus.Pending)])
    {
      db := db.(approvals := db.approvals + [Approval(task, ApprovalStatus.Pending)]);
    }

    /** repository.resolve_approval on approval k; `overdue` says expires_at has passed. */
    method ResolveApproval(k: nat, target: ApprovalStatus, overdue: bool) returns (s: Signal)
      requires k < |db.approvals|
      modifies this`db
      ensures var was := old(db.approvals[k]);
              if was.status != ApprovalStatus.Pending then
                db == old(db) && s == if was.status == target then Fine else Raised(BadTransition)
              else if target == ApprovalStatus.Pending then
                db == old(db) && s == Raised(BadTransition)
              else if overdue && target in {ApprovalStatus.Approved, ApprovalStatus.Rejected} then
                s == Raised(BadTransition)
                && db == old(db).(approvals := old(db.approvals)[k := was.(status := ApprovalStatus.Expired)])
              else
                s == Fine && db == old(db).(approvals := old(db.approvals)[k := was.(status := target)])
    {
      var a := db.approvals[k];
      if a.status == target && a.status != ApprovalStatus.Pending {
        return Fine;
      }
      if a.status != ApprovalStatus.Pending && target != a.status {
        return Raised(BadTransition);
      }
      if !ApprovalMoveAllowed(a.status, target) {
        return Raised(BadTransition);
      }
      if overdue && target in {ApprovalStatus.Approved, ApprovalStatus.Rejected} {
        db := db.(approvals := db.approvals[k := a.(status := ApprovalStatus.Expired)]);
        return Raised(BadTransition);
      }
      db := db.(approvals := db.approvals[k := a.(status := target)]);
      return Fine;
    }

    /** Every row that is not terminal becomes cancelled; no transition is refused. */
    method CancelQueuedTasks() returns (cancelled: nat)
      modifies this`db
      ensures db == old(db).(tasks := db.tasks) && CancelledRows(old(db.tasks), db.tasks)
    {
      cancelled := 0;
      var i := 0;
      while i < |db.tasks|
        invariant i <= |db.tasks| == |old(db.tasks)|
        invariant db == old(db).(tasks := db.tasks)
        invariant forall j :: 0 <= j < i ==> db.tasks[j] == CancelledRow(old(db.tasks)[j])
        invariant forall j :: i <= j < |db.tasks| ==> db.tasks[j] == old(db.tasks)[j]
      {
        ghost var rows := db.tasks;
        if db.tasks[i].status in {TaskStatus.Pending, TaskStatus.Ready, TaskStatus.Running,
                                  TaskStatus.AwaitingApproval} {
          var moved := TransitionTask(i, TaskStatus.Cancelled, false);
          assert moved.Fine?;
          cancelled := cancelled + 1;
        }
        TaskStatusSplit(rows[i].status);
        assert db.tasks == rows[i := CancelledRow(rows[i])];
        i := i + 1;
      }
    }
  }
}
