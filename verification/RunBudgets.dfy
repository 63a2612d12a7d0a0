/** Run-level budget accounting: backend/app/agents/budgets.py. The monotonic clock is an
    input: every look at it is handed the time it shows. */
module RunBudgets {
  import opened Signals

  /** Milliseconds; the smallest timeout handed to a specialist. */
  const FLOOR_TIMEOUT := 100

  class RunBudget {
    const maximumSteps: nat
    const maxLlmCalls: nat
    const maxToolCalls: nat
    const maxContextCharacters: nat
    const runTimeout: nat
    const started: nat
    var stepsUsed: nat
    var llmCallsUsed: nat
    var toolCallsUsed: nat
    var contextCharacters: nat

    /** No counter is above its cap. */
    ghost predicate WithinCaps()
      reads this
    {
      stepsUsed <= maximumSteps && llmCallsUsed <= maxLlmCalls && toolCallsUsed <= maxToolCalls
    }

    constructor (maximumSteps: nat, maxLlmCalls: nat, maxToolCalls: nat,
                 maxContextCharacters: nat, runTimeout: nat, started: nat,
                 stepsUsed: nat, llmCallsUsed: nat, toolCallsUsed: nat)
      ensures this.maximumSteps == maximumSteps && this.maxLlmCalls == maxLlmCalls
      ensures this.maxToolCalls == maxToolCalls && this.runTimeout == runTimeout && this.started == started
      ensures this.maxContextCharacters == maxContextCharacters
      ensures this.stepsUsed == stepsUsed && this.llmCallsUsed == llmCallsUsed
      ensures this.toolCallsUsed == toolCallsUsed && contextCharacters == 0
    {
      this.maximumSteps, this.maxLlmCalls, this.maxToolCalls := maximumSteps, maxLlmCalls, maxToolCalls;
      this.maxContextCharacters, this.runTimeout, this.started := maxContextCharacters, runTimeout, started;
      this.stepsUsed, this.llmCallsUsed, this.toolCallsUsed := stepsUsed, llmCallsUsed, toolCallsUsed;
      contextCharacters := 0;
    }

    function Elapsed(now: nat): nat {
      Max(0, now - started)
    }

    /** The deadline has passed when the clock shows `now`. */
    predicate Late(now: nat) {
      now > started + runTimeout
    }

    method CheckRunTimeout(now: nat) returns (s: Signal)
      ensures s == if Late(now) then Raised(RunTimeout) else Fine
    {
      if Elapsed(now) > runTimeout {
        return Raised(RunTimeout);
      }
      return Fine;
    }

    /** A timeout for one call that cannot outlive the run's deadline by more than the floor. */
    method BoundedTimeout(requested: nat, now: nat) returns (s: Signal, timeout: nat)
      ensures s == if Late(now) then Raised(RunTimeout) else Fine
      ensures s.Fine? ==> FLOOR_TIMEOUT <= timeout && timeout <= Max(FLOOR_TIMEOUT, requested)
      ensures s.Fine? && timeout > FLOOR_TIMEOUT ==> now + timeout <= started + runTimeout
      ensures s.Fine? && Elapsed(now) + requested <= runTimeout ==> timeout == Max(FLOOR_TIMEOUT, requested)
      ensures s.Fine? && now >= started && Elapsed(now) + requested > runTimeout ==>
                timeout == Max(100, started + runTimeout - now)
    {
      timeout := 0;
      :- CheckRunTimeout(now);
      return Fine, Max(FLOOR_TIMEOUT, Min(requested, Max(0, runTimeout - Elapsed(now))));
    }

    method ConsumeStep(now: nat) returns (s: Signal)
      modifies this`stepsUsed
      ensures s.Raised? ==> s.fault in {RunTimeout, LimitExceeded} && stepsUsed == old(stepsUsed)
      ensures s.Fine? <==> !Late(now) && old(stepsUsed) < maximumSteps
      ensures s.Fine? ==> stepsUsed == old(stepsUsed) + 1
      ensures s == Raised(RunTimeout) <==> Late(now)
    {
      var late := CheckRunTimeout(now);
      if late.Raised? {
        return late;
      }
      if stepsUsed >= maximumSteps {
        return Raised(LimitExceeded);
      }
      stepsUsed := stepsUsed + 1;
      return Fine;
    }

    method ConsumeLlm(count: nat, now: nat) returns (s: Signal)
      modifies this`llmCallsUsed
      ensures s.Raised? ==> s.fault in {RunTimeout, LimitExceeded} && llmCallsUsed == old(llmCallsUsed)
      ensures s.Fine? <==> !Late(now) && old(llmCallsUsed) + count <= maxLlmCalls
      ensures s.Fine? ==> llmCallsUsed == old(llmCallsUsed) + count
      ensures s == Raised(RunTimeout) <==> Late(now)
    {
      var late := CheckRunTimeout(now);
      if late.Raised? {
        return late;
      }
      if llmCallsUsed + count > maxLlmCalls {
        return Raised(LimitExceeded);
      }
      llmCallsUsed := llmCallsUsed + count;
      return Fine;
    }

    method ConsumeTools(count: nat, now: nat) returns (s: Signal)
      modifies this`toolCallsUsed
      ensures s.Raised? ==> s.fault in {RunTimeout, LimitExceeded} && toolCallsUsed == old(toolCallsUsed)
      ensures s.Fine? <==> !Late(now) && old(toolCallsUsed) + count <= maxToolCalls
      ensures s.Fine? ==> toolCallsUsed == old(toolCallsUsed) + count
      ensures s == Raised(RunTimeout) <==> Late(now)
    {
      var late := CheckRunTimeout(now);
      if late.Raised? {
        return late;
      }
      if toolCallsUsed + count > maxToolCalls {
        return Raised(LimitExceeded);
      }
      toolCallsUsed := toolCallsUsed + count;
      return Fine;
    }

    method ObserveContext(characters: nat) returns (s: Signal)
      modifies this`contextCharacters
      ensures contextCharacters == Max(old(contextCharacters), characters)
      ensures s == if characters > maxContextCharacters then Raised(LimitExceeded) else Fine
    {
      contextCharacters := Max(contextCharacters, characters);
      if characters > maxContextCharacters {
        return Raised(LimitExceeded);
      }
      return Fine;
    }
  }
}
