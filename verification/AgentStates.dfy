/** The three transition tables of backend/app/agents/state_machine.py. */
module AgentStates {

  datatype RunStatus =
    | Pending | Planning | Running | AwaitingApproval
    | Completed | Failed | Cancelled | TimedOut

  datatype TaskStatus =
    | Pending | Ready | Running | AwaitingApproval
    | Succeeded | Failed | Skipped | Cancelled | TimedOut

  datatype ApprovalStatus = Pending | Approved | Rejected | Expired | Cancelled

  function RunTargets(s: RunStatus): set<RunStatus> {
    match s
    case Pending =>
      {RunStatus.Planning, RunStatus.Running, RunStatus.Failed, RunStatus.Cancelled}
    case Planning =>
      {RunStatus.Running, RunStatus.Failed, RunStatus.Cancelled, RunStatus.TimedOut}
    case Running =>
      {RunStatus.AwaitingApproval, RunStatus.Completed, RunStatus.Failed,
       RunStatus.Cancelled, RunStatus.TimedOut}
    case AwaitingApproval =>
      {RunStatus.Running, RunStatus.Cancelled, RunStatus.Failed, RunStatus.TimedOut}
    case _ => {}
  }

  function TaskTargets(s: TaskStatus): set<TaskStatus> {
    match s
    case Pending =>
      {TaskStatus.Ready, TaskStatus.Running, TaskStatus.Skipped, TaskStatus.Cancelled,
       TaskStatus.Failed}
    case Ready =>
      {TaskStatus.Running, TaskStatus.AwaitingApproval, TaskStatus.Skipped,
       TaskStatus.Cancelled, TaskStatus.Failed}
    case Running =>
      {TaskStatus.AwaitingApproval, TaskStatus.Succeeded, TaskStatus.Failed,
       TaskStatus.Skipped, TaskStatus.Cancelled, TaskStatus.TimedOut, TaskStatus.Ready}
    case AwaitingApproval =>
      {TaskStatus.Running, TaskStatus.Succeeded, TaskStatus.Skipped, TaskStatus.Cancelled,
       TaskStatus.Failed, TaskStatus.TimedOut}
    case _ => {}
  }

  function ApprovalTargets(s: ApprovalStatus): set<ApprovalStatus> {
    match s
    case Pending =>
      {ApprovalStatus.Approved, ApprovalStatus.Rejected, ApprovalStatus.Expired,
       ApprovalStatus.Cancelled}
    case _ => {}
  }

  predicate TerminalRun(s: RunStatus) {
    s in {RunStatus.Completed, RunStatus.Failed, RunStatus.Cancelled, RunStatus.TimedOut}
  }

  predicate TerminalTask(s: TaskStatus) {
    s in {TaskStatus.Succeeded, TaskStatus.Failed, TaskStatus.Skipped, TaskStatus.Cancelled,
          TaskStatus.TimedOut}
  }

  /** cancel_queued_tasks names the four open statuses; they are exactly the others. */
  lemma TaskStatusSplit(s: TaskStatus)
    ensures TerminalTask(s) <==>
              s !in {TaskStatus.Pending, TaskStatus.Ready, TaskStatus.Running,
                     TaskStatus.AwaitingApproval}
  {
    match s
    case Pending | Ready | Running | AwaitingApproval =>
    case Succeeded | Failed | Skipped | Cancelled | TimedOut =>
  }

  /** Accepted by validate_run_transition: listed in the table, or a terminal self-loop. */
  predicate RunMoveAllowed(current: RunStatus, target: RunStatus) {
    (current == target && TerminalRun(current)) || target in RunTargets(current)
  }

  predicate TaskMoveAllowed(current: TaskStatus, target: TaskStatus) {
    (current == target && TerminalTask(current)) || target in TaskTargets(current)
  }

  predicate ApprovalMoveAllowed(current: ApprovalStatus, target: ApprovalStatus) {
    (current == target && current != ApprovalStatus.Pending) || target in ApprovalTargets(current)
  }

  /** The run table, read from its targets: how each status is reached. */
  lemma RunReachedFrom(current: RunStatus, target: RunStatus)
    requires current != target
    ensures RunMoveAllowed(current, target) <==>
              match target
              case Pending => false
              case Planning => current == RunStatus.Pending
              case Running => current.Pending? || current.Planning? || current.AwaitingApproval?
              case AwaitingApproval => current.Running?
              case Completed => current.Running?
              case TimedOut => current.Planning? || current.Running? || current.AwaitingApproval?
              case Failed => !TerminalRun(current)
              case Cancelled => !TerminalRun(current)
    ensures TerminalRun(current) <==> forall t :: RunMoveAllowed(current, t) ==> t == current
    ensures RunMoveAllowed(current, current) <==> TerminalRun(current)
  {
    hide TerminalRun;
    RunStatusSplit(current);
    match target
    case Pending | Planning | Running | AwaitingApproval | Completed | TimedOut | Failed | Cancelled =>
    if !TerminalRun(current) {
      assert RunMoveAllowed(current, RunStatus.Failed);
    }
  }

  lemma RunStatusSplit(s: RunStatus)
    ensures TerminalRun(s) <==>
              s !in {RunStatus.Pending, RunStatus.Planning, RunStatus.Running, RunStatus.AwaitingApproval}
  {
    match s
    case Pending | Planning | Running | AwaitingApproval =>
    case Completed | Failed | Cancelled | TimedOut =>
  }

  /** The task table likewise: a task that is running may also become ready again. */
  lemma TaskReachedFrom(current: TaskStatus, target: TaskStatus)
    requires current != target
    ensures TaskMoveAllowed(current, target) <==>
              match target
              case Pending => false
              case Ready => current.Pending? || current.Running?
              case Running => current.Pending? || current.Ready? || current.AwaitingApproval?
              case AwaitingApproval => current.Ready? || current.Running?
              case Succeeded => current.Running? || current.AwaitingApproval?
              case TimedOut => current.Running? || current.AwaitingApproval?
              case Failed => !TerminalTask(current)
              case Skipped => !TerminalTask(current)
              case Cancelled => !TerminalTask(current)
    ensures TaskMoveAllowed(current, current) <==> TerminalTask(current)
  {
    hide TerminalTask;
    TaskStatusSplit(current);
    match target
    case Pending | Ready | Running | AwaitingApproval =>
    case Succeeded | Failed | Skipped | Cancelled | TimedOut =>
  }

  /** An approval is resolved once; resolving it again the same way is accepted. */
  lemma ApprovalReachedFrom(current: ApprovalStatus, target: ApprovalStatus)
    ensures ApprovalMoveAllowed(current, target) <==>
              if current.Pending? then target != ApprovalStatus.Pending else target == current
  {
    match target
    case Pending | Approved | Rejected | Expired | Cancelled =>
  }

  /** A walk through a transition table. */
  predicate RunWalk(w: seq<RunStatus>) {
    forall k :: 0 <= k < |w| - 1 ==> RunMoveAllowed(w[k], w[k + 1])
  }

  predicate TaskWalk(w: seq<TaskStatus>) {
    forall k :: 0 <= k < |w| - 1 ==> TaskMoveAllowed(w[k], w[k + 1])
  }

  /** Terminal states are absorbing on walks of every length: once a run is
      terminal, every later status is that same status. */
  lemma {:induction false} RunTerminalAbsorbs(w: seq<RunStatus>, i: nat, j: nat)
    requires RunWalk(w) && i <= j < |w| && TerminalRun(w[i])
    ensures w[j] == w[i]
    decreases j - i
  {
    if i < j {
      assert RunMoveAllowed(w[i], w[i + 1]);
      RunTerminalAbsorbs(w, i + 1, j);
    }
  }

  lemma {:induction false} TaskTerminalAbsorbs(w: seq<TaskStatus>, i: nat, j: nat)
    requires TaskWalk(w) && i <= j < |w| && TerminalTask(w[i])
    ensures w[j] == w[i]
    decreases j - i
  {
    if i < j {
      assert TaskMoveAllowed(w[i], w[i + 1]);
      TaskTerminalAbsorbs(w, i + 1, j);
    }
  }

  /** A run cannot be completed before it was running, however long the walk. */
  lemma {:induction false} CompletedOnlyAfterRunning(w: seq<RunStatus>, j: nat)
    requires RunWalk(w) && j < |w| && w[0] == RunStatus.Pending && w[j] == RunStatus.Completed
    ensures exists k :: 0 <= k < j && w[k] == RunStatus.Running
    decreases j
  {
    assert j > 0;
    assert RunMoveAllowed(w[j - 1], w[j]);
    if w[j - 1] != RunStatus.Running {
      CompletedOnlyAfterRunning(w, j - 1);
    }
  }
}
