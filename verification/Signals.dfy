/** How a call in the agent engine ends: normally, or with one of the exceptions
    the engine tells apart. `Signal` is failure-compatible, so `:-` plays the part
    of an exception propagating out of the caller. */
module Signals {

  datatype Fault =
    | BadTransition   // AgentStateTransitionError from a transition table
    | NestedApproval  // AgentStateTransitionError: a resumed task asked for approval again
    | Cancelled       // AgentCancelledError
    | RunTimeout      // AgentTimeoutError
    | LimitExceeded   // AgentLimitExceededError
    | SafetyBlocked   // AgentSafetyError
    | PlanRejected    // AgentPlanValidationError
    | AgentFault      // any other AgentError
    | Unexpected      // an exception outside the AgentError family
    | Killed          // asyncio.CancelledError or the death of the process: no handler runs

  datatype Signal = Fine | Raised(fault: Fault) {
    predicate IsFailure() {
      Raised?
    }

    function PropagateFailure(): Signal
      requires Raised?
    {
      this
    }
  }

  datatype Option<+T> = None | Some(value: T)

  function Min(a: int, b: int): (r: int)
    ensures r <= a && r <= b && (r == a || r == b)
  {
    if a <= b then a else b
  }

  function Max(a: int, b: int): (r: int)
    ensures r >= a && r >= b && (r == a || r == b)
  {
    if a >= b then a else b
  }
}
