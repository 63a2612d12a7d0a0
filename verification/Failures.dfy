/** Failure classification and retry policy: backend/app/agents/failures.py. */
module Failures {
  import opened Signals

  datatype Category =
    | Transient | Permanent | Validation | Policy | Cancellation | Timeout | Limit | Internal

  /** The stable error codes the tables name, the four class names the alias table
      rewrites, and every other string. */
  datatype Code =
    | LlmRequestTimeout | LlmProviderUnavailable | ProviderUnavailable
    | KnowledgeRetrievalFailed | MemoryRetrievalFailed | RetrievalError | ToolTimeout
    | ExecutionTimeout | ConnectionError | ServiceUnavailable | RateLimited
    | AgentTaskTimedOut | AgentTimedOut
    | AgentPlanInvalid | InvalidArguments | LlmInvalidResponse | MemoryInvalid
    | UnsupportedDocumentType | DocumentTooLarge | EmptyDocument
    | AgentSafetyRejected | PermissionDenied | ToolDisabled | AgentDisabled
    | ConfirmationRequired | MemorySensitiveContent
    | AgentLimitExceeded | MemoryLimitExceeded | ResultTooLarge
    | AgentCancelled
    | AgentNotFound | ToolNotFound | DocumentNotFound | MemoryNotFound
    | LlmModelUnavailable | DependencyFailed
    | ClassLlmRequestTimeout | ClassLlmProviderUnavailable | ClassLlmModelUnavailable
    | ClassTimeoutError
    | OtherCode(text: string)

  /** The exception classes the classifier tells apart. */
  datatype ErrorKind =
    | CancelledError | AgentTimeoutError | BuiltinTimeoutError | SafetyError
    | PlanValidationError | StateTransitionError | LimitExceededError | OtherError

  /** An exception: its class, the class name as a code, and its own code attribute. */
  datatype Error = Error(kind: ErrorKind, className: Code, code: Option<Code>)

  datatype Decision = Decision(category: Category, code: Code, retryable: bool)

  const EMPTY_CODE := OtherCode("")
  const DEFAULT_CODE := OtherCode("agent_task_execution_failed")

  const TRANSIENT_CODES: set<Code> :=
    {LlmRequestTimeout, LlmProviderUnavailable, ProviderUnavailable, KnowledgeRetrievalFailed,
     MemoryRetrievalFailed, RetrievalError, ToolTimeout, ExecutionTimeout, ConnectionError,
     ServiceUnavailable, RateLimited}
  const TIMEOUT_CODES: set<Code> :=
    {AgentTaskTimedOut, AgentTimedOut, LlmRequestTimeout, ToolTimeout, ExecutionTimeout}
  const VALIDATION_CODES: set<Code> :=
    {AgentPlanInvalid, InvalidArguments, LlmInvalidResponse, MemoryInvalid,
     UnsupportedDocumentType, DocumentTooLarge, EmptyDocument}
  const POLICY_CODES: set<Code> :=
    {AgentSafetyRejected, PermissionDenied, ToolDisabled, AgentDisabled, ConfirmationRequired,
     MemorySensitiveContent}
  const LIMIT_CODES: set<Code> := {AgentLimitExceeded, MemoryLimitExceeded, ResultTooLarge}
  const CANCELLATION_CODES: set<Code> := {AgentCancelled}
  const PERMANENT_CODES: set<Code> :=
    {AgentNotFound, ToolNotFound, DocumentNotFound, MemoryNotFound, LlmModelUnavailable,
     DependencyFailed}

  function Alias(raw: Code): Code {
    match raw
    case ClassLlmRequestTimeout => LlmRequestTimeout
    case ClassLlmProviderUnavailable => LlmProviderUnavailable
    case ClassLlmModelUnavailable => LlmModelUnavailable
    case ClassTimeoutError => AgentTaskTimedOut
    case _ => raw
  }

  /** An absent or empty code falls through to the next source. */
  predicate Given(code: Option<Code>) {
    code.Some? && code.value != EMPTY_CODE
  }

  function NormaliseCode(error: Option<Error>, errorCode: Option<Code>): Code {
    if Given(errorCode) then Alias(errorCode.value)
    else if error.Some? && Given(error.value.code) then Alias(error.value.code.value)
    else if error.Some? then Alias(error.value.className)
    else DEFAULT_CODE
  }

  predicate IsA(error: Option<Error>, kinds: set<ErrorKind>) {
    error.Some? && error.value.kind in kinds
  }

  function Classify(error: Option<Error>, errorCode: Option<Code>, hint: Option<bool>): Decision {
    var code := NormaliseCode(error, errorCode);
    if IsA(error, {CancelledError}) || code in CANCELLATION_CODES then
      Decision(Cancellation, code, false)
    else if IsA(error, {AgentTimeoutError, BuiltinTimeoutError}) || code in TIMEOUT_CODES then
      Decision(Timeout, code, true)
    else if IsA(error, {SafetyError}) || code in POLICY_CODES then
      Decision(Policy, code, false)
    else if IsA(error, {PlanValidationError, StateTransitionError}) || code in VALIDATION_CODES then
      Decision(Validation, code, false)
    else if IsA(error, {LimitExceededError}) || code in LIMIT_CODES then
      Decision(Limit, code, false)
    else if code in PERMANENT_CODES then
      Decision(Permanent, code, false)
    else if hint == Some(true) || code in TRANSIENT_CODES then
      Decision(Transient, code, true)
    else if hint == Some(false) then
      Decision(Permanent, code, false)
    else
      Decision(Internal, code, false)
  }

  /** Codes that stop a retry whatever the specialist hints. */
  const STOP_CODES: set<Code> :=
    CANCELLATION_CODES + POLICY_CODES + VALIDATION_CODES + LIMIT_CODES + PERMANENT_CODES

  /** The codes that allow a retry. */
  lemma RetryCodes(c: Code)
    ensures c in TIMEOUT_CODES || c in TRANSIENT_CODES <==>
              || c.AgentTaskTimedOut? || c.AgentTimedOut? || c.LlmRequestTimeout? || c.ToolTimeout?
              || c.ExecutionTimeout? || c.LlmProviderUnavailable? || c.ProviderUnavailable?
              || c.KnowledgeRetrievalFailed? || c.MemoryRetrievalFailed? || c.RetrievalError?
              || c.ConnectionError? || c.ServiceUnavailable? || c.RateLimited?
  {
  }

  /** The codes that forbid one: all other named ones but the class names. */
  lemma StopCodes(c: Code)
    ensures c in STOP_CODES <==>
              && c !in TIMEOUT_CODES && c !in TRANSIENT_CODES && !c.OtherCode?
              && !c.ClassLlmRequestTimeout? && !c.ClassLlmProviderUnavailable? && !c.ClassLlmModelUnavailable?
              && !c.ClassTimeoutError?
  {
    hide TIMEOUT_CODES, TRANSIENT_CODES;
    RetryCodes(c);
  }

  /** No code is in a table that stops and in one that retries, so the order in which
      the tables are consulted never decides between stopping and retrying. */
  lemma CodeTablesDisjoint(c: Code)
    requires c in STOP_CODES
    ensures c !in TIMEOUT_CODES && c !in TRANSIENT_CODES
  {
    hide TIMEOUT_CODES, TRANSIENT_CODES;
    if c in TIMEOUT_CODES || c in TRANSIENT_CODES {
      RetryCodes(c);
    }
  }

  /** Which task results are retried. A result carries a code and a boolean hint and
      no exception: it is retried exactly when its code is a timeout or transient
      code, or the specialist asked for it and no table forbids it. */
  lemma ResultRetryable(code: Code, hint: bool)
    requires code != EMPTY_CODE
    ensures var c := Alias(code);
            Classify(None, Some(code), Some(hint)).retryable <==>
              c in TIMEOUT_CODES || c in TRANSIENT_CODES || (hint && c !in STOP_CODES)
  {
    hide TIMEOUT_CODES, TRANSIENT_CODES, CANCELLATION_CODES, POLICY_CODES, VALIDATION_CODES, LIMIT_CODES,
      PERMANENT_CODES;
    if Alias(code) in STOP_CODES {
      CodeTablesDisjoint(Alias(code));
    }
  }

  /** Which exceptions are retried: timeouts by class unless their code says
      cancelled, and otherwise retryable codes on classes no rule stops. */
  lemma ExceptionRetryable(e: Error)
    ensures var c := NormaliseCode(Some(e), None);
            Classify(Some(e), None, None).retryable <==>
              && e.kind != CancelledError
              && c !in CANCELLATION_CODES
              && (e.kind in {AgentTimeoutError, BuiltinTimeoutError} || c in TIMEOUT_CODES
                  || (c in TRANSIENT_CODES && e.kind == OtherError))
  {
    hide TIMEOUT_CODES, TRANSIENT_CODES, CANCELLATION_CODES, POLICY_CODES, VALIDATION_CODES, LIMIT_CODES,
      PERMANENT_CODES;
    var c := NormaliseCode(Some(e), None);
    if c in STOP_CODES {
      CodeTablesDisjoint(c);
    }
  }

  /** What asyncio.wait_for raises, and what a budget past its deadline raises. */
  const TASK_TIMEOUT := Error(BuiltinTimeoutError, ClassTimeoutError, None)
  const DEADLINE := Error(AgentTimeoutError, OtherCode("AgentTimeoutError"), Some(AgentTimedOut))

  /** Both qualify for a retry, and so does a TimeoutError a specialist raises itself; only
      the profile can forbid it. */
  lemma TimeoutsRetryable(e: Error)
    requires e.kind == BuiltinTimeoutError
    ensures Classify(Some(e), Some(AgentTaskTimedOut), None).retryable
    ensures Classify(Some(DEADLINE), None, None).retryable
  {
    hide POLICY_CODES, VALIDATION_CODES, LIMIT_CODES, PERMANENT_CODES, TRANSIENT_CODES;
  }

  /** An exception without a code of its own is judged by its class name: the request timeout,
      the unavailable provider and Python's TimeoutError are repeated, the missing model is not,
      and a class name that is no code says nothing. */
  lemma ClassNamesRetry(e: Error)
    requires e.kind == OtherError && !Given(e.code)
    ensures Classify(Some(e), None, None).retryable <==>
              || e.className.ClassLlmRequestTimeout? || e.className.ClassLlmProviderUnavailable?
              || e.className.ClassTimeoutError?
              || e.className in TIMEOUT_CODES || e.className in TRANSIENT_CODES
    ensures e.className.ClassLlmRequestTimeout? || e.className.ClassTimeoutError? ==>
              Classify(Some(e), None, None).category == Timeout
    ensures e.className.ClassLlmProviderUnavailable? ==> Classify(Some(e), None, None).category == Transient
    ensures e.className.ClassLlmModelUnavailable? ==> Classify(Some(e), None, None).category == Permanent
  {
    ClassCategories(e);
    hide CANCELLATION_CODES, POLICY_CODES, VALIDATION_CODES, LIMIT_CODES, PERMANENT_CODES, Classify;
    ExceptionRetryable(e);
    RetryCodes(Alias(e.className));
    RetryCodes(e.className);
    Cancels(Alias(e.className));
  }

  lemma ClassCategories(e: Error)
    requires e.kind == OtherError && !Given(e.code)
    ensures e.className.ClassLlmRequestTimeout? || e.className.ClassTimeoutError? ==>
              Classify(Some(e), None, None).category == Timeout
    ensures e.className.ClassLlmProviderUnavailable? ==> Classify(Some(e), None, None).category == Transient
    ensures e.className.ClassLlmModelUnavailable? ==> Classify(Some(e), None, None).category == Permanent
  {
  }

  lemma Cancels(c: Code)
    ensures c in CANCELLATION_CODES <==> c.AgentCancelled?
  {
  }

  /** A code no table knows is judged by the specialist alone: what it calls retryable is
      transient, what it calls final permanent, and otherwise the failure is internal. */
  lemma UnknownCode(code: Code, hint: Option<bool>)
    requires Alias(code) !in STOP_CODES && Alias(code) !in TIMEOUT_CODES && Alias(code) !in TRANSIENT_CODES
    requires code != OtherCode("")
    ensures Classify(None, Some(code), hint)
            == Decision(match hint case Some(true) => Transient case Some(false) => Permanent case None => Internal,
                        Alias(code), hint == Some(true))
  {
    hide TIMEOUT_CODES, TRANSIENT_CODES, CANCELLATION_CODES, POLICY_CODES, VALIDATION_CODES, LIMIT_CODES,
      PERMANENT_CODES;
  }

  /** Its own code, unless that is empty, comes before the class name; a code given by the
      caller comes before both. */
  lemma CodeChosen(e: Error, errorCode: Option<Code>)
    ensures errorCode.Some? && errorCode.value != OtherCode("") ==>
              NormaliseCode(Some(e), errorCode) == Alias(errorCode.value)
    ensures (errorCode == None || errorCode == Some(OtherCode(""))) && e.code.Some? && e.code.value != OtherCode("") ==>
              NormaliseCode(Some(e), errorCode) == Alias(e.code.value)
    ensures (errorCode == None || errorCode == Some(OtherCode("")))
            && (e.code == None || e.code == Some(OtherCode(""))) ==>
              NormaliseCode(Some(e), errorCode) == Alias(e.className)
  {
  }

  /** Retry and category agree: exactly the timeout and transient categories retry. */
  lemma RetryFollowsCategory(error: Option<Error>, errorCode: Option<Code>, hint: Option<bool>)
    ensures var d := Classify(error, errorCode, hint);
            d.retryable <==> d.category in {Timeout, Transient}
  {
  }
}
