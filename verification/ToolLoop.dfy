/** The loop between the language model and its tools
    (backend/app/agents/orchestrator.py). The replies of the model, the tools and the
    cancellation checks are arbitrary inputs collected in `Env`. */
module ToolLoop {
  import opened Signals
  import opened Texts

  const KNOWN_TOOLS: set<string> :=
    {"calculator", "current_datetime", "knowledge_search", "memory_list", "memory_search", "conversation_summary"}

  const OUT_OF_STEPS: string :=
    "I reached the maximum number of tool steps for this turn. Please refine your request or continue in a new message."

  const MAX_CHUNK: nat := 24

  // --- Progressive pieces ----------------------------------------------------------------

  /** `text.rfind(" ", 0, limit)`. */
  function LastSpace(text: string, limit: nat): (r: int)
    requires limit <= |text|
    ensures -1 <= r < limit
    ensures r >= 0 ==> text[r] == ' '
    ensures forall k :: r < k < limit ==> text[k] != ' '
  {
    if limit == 0 then -1 else if text[limit - 1] == ' ' then limit - 1 else LastSpace(text, limit - 1)
  }

  /** A piece that something follows ends in front of a space, or is cut at the limit. */
  predicate CutOk(piece: string, next: string, maxChunk: nat) {
    |piece| == maxChunk || (next != "" && next[0] == ' ')
  }

  predicate WellCut(chunks: seq<string>, maxChunk: nat) {
    && (forall k :: 0 <= k < |chunks| ==> 0 < |chunks[k]| <= maxChunk)
    && (forall k :: 0 <= k < |chunks| - 1 ==> CutOk(chunks[k], chunks[k + 1], maxChunk))
  }

  /** The next piece of a text goes up to the last space among its first maxChunk + 1
      characters, or is maxChunk long when there is none behind the first character. */
  predicate BestCut(text: string, at: nat, maxChunk: nat) {
    if |text| <= maxChunk then at == |text|
    else
      && 0 < at <= maxChunk && (forall j :: at < j <= maxChunk ==> text[j] != ' ')
      && (text[at] == ' ' || (at == maxChunk && forall j :: 0 < j <= maxChunk ==> text[j] != ' '))
  }

  /** Every piece is the best cut of what the pieces before it left. */
  predicate BestCuts(text: string, chunks: seq<string>, maxChunk: nat) {
    forall k :: 0 <= k < |chunks| ==>
      var from := |Concat(chunks[..k])|;
      from <= |text| && BestCut(text[from..], |chunks[k]|, maxChunk)
  }

  lemma BestMore(text: string, chunks: seq<string>, remaining: string, at: nat, maxChunk: nat)
    requires Concat(chunks) + remaining == text && BestCuts(text, chunks, maxChunk)
    requires at <= |remaining| && BestCut(remaining, at, maxChunk)
    ensures BestCuts(text, chunks + [remaining[..at]], maxChunk)
  {
    hide BestCut, Concat;
    var more := chunks + [remaining[..at]];
    assert text[|Concat(chunks)|..] == remaining;
    forall k | 0 <= k < |more|
      ensures |Concat(more[..k])| <= |text| && BestCut(text[|Concat(more[..k])|..], |more[k]|, maxChunk)
    {
      assert more[..k] == chunks[..k];
      if k == |chunks| {
        assert chunks[..k] == chunks;
      }
    }
  }

  lemma CutMore(chunks: seq<string>, piece: string, maxChunk: nat)
    requires WellCut(chunks, maxChunk) && 0 < |piece| <= maxChunk
    requires chunks != [] ==> CutOk(chunks[|chunks| - 1], piece, maxChunk)
    ensures WellCut(chunks + [piece], maxChunk) && Concat(chunks + [piece]) == Concat(chunks) + piece
  {
    ConcatMore(chunks, piece);
  }

  method NextCut(remaining: string, maxChunk: nat) returns (at: nat)
    requires 0 < maxChunk < |remaining|
    ensures 0 < at <= maxChunk && CutOk(remaining[..at], remaining[at..], maxChunk)
    ensures BestCut(remaining, at, maxChunk)
  {
    var space := LastSpace(remaining, maxChunk + 1);
    at := if space <= 0 then maxChunk else space;
  }

  /** _progressive_chunks: the pieces are not empty, at most maxChunk long, cut as late as
      possible in front of a space, and give the text back. */
  method ProgressiveChunks(text: string, maxChunk: nat) returns (chunks: seq<string>)
    requires maxChunk > 0
    ensures Concat(chunks) == text && WellCut(chunks, maxChunk) && BestCuts(text, chunks, maxChunk)
  {
    hide Concat, CutOk, WellCut, BestCuts;
    chunks := [];
    NoPieces(maxChunk);
    var remaining := text;
    while remaining != ""
      invariant Concat(chunks) + remaining == text && WellCut(chunks, maxChunk) && BestCuts(text, chunks, maxChunk)
      invariant chunks != [] && remaining != "" ==> CutOk(chunks[|chunks| - 1], remaining, maxChunk)
      decreases |remaining|
    {
      if |remaining| <= maxChunk {
        CutMore(chunks, remaining, maxChunk);
        BestMore(text, chunks, remaining, |remaining|, maxChunk);
        assert remaining[..|remaining|] == remaining;
        chunks := chunks + [remaining];
        return;
      }
      var at := NextCut(remaining, maxChunk);
      CutPrefix(chunks, remaining, at, maxChunk);
      CutMore(chunks, remaining[..at], maxChunk);
      BestMore(text, chunks, remaining, at, maxChunk);
      assert Concat(chunks) + remaining[..at] + remaining[at..] == Concat(chunks) + remaining;
      chunks := chunks + [remaining[..at]];
      remaining := remaining[at..];
    }
  }

  lemma CutPrefix(chunks: seq<string>, remaining: string, at: nat, maxChunk: nat)
    requires 0 < at <= |remaining| && (chunks != [] ==> CutOk(chunks[|chunks| - 1], remaining, maxChunk))
    ensures chunks != [] ==> CutOk(chunks[|chunks| - 1], remaining[..at], maxChunk)
  {
  }

  lemma NoPieces(maxChunk: nat)
    ensures Concat([]) == "" && WellCut([], maxChunk) && forall text :: BestCuts(text, [], maxChunk)
  {
  }

  // --- Selection -------------------------------------------------------------------------

  /** The known and registered candidates, each once, in order. */
  method SelectNames(candidates: seq<string>, registered: set<string>) returns (selected: seq<string>)
    ensures forall name :: name in selected <==> name in candidates && name in KNOWN_TOOLS && name in registered
    ensures forall i, j :: 0 <= i < j < |selected| ==> selected[i] != selected[j]
  {
    selected := [];
    for i := 0 to |candidates|
      invariant forall name :: name in selected <==>
                  name in candidates[..i] && name in KNOWN_TOOLS && name in registered
      invariant forall a, b :: 0 <= a < b < |selected| ==> selected[a] != selected[b]
    {
      var name := candidates[i];
      assert candidates[..i + 1] == candidates[..i] + [name];
      if name !in KNOWN_TOOLS || name !in registered {
        continue;
      }
      if name !in selected {
        selected := selected + [name];
      }
    }
    assert candidates[..|candidates|] == candidates;
  }

  // --- The conversation with the model ---------------------------------------------------

  datatype Call = Call(id: string, name: string)

  datatype Generation = Fails | Says(content: string, calls: seq<Call>)

  datatype Execution = Crashes | Runs(recorded: bool, success: bool)

  /** What the provider's stream yields: text, a start or complete event, an error event, or
      an exception. */
  datatype StreamItem = Text(text: string) | Notice | Trouble | Breaks

  /** Answers indexed by iteration, by iteration and call, and by the number of the check. */
  datatype Env = Env(
    generate: nat -> Generation, execute: (nat, nat) -> Execution, available: string -> bool,
    cancelled: nat -> bool, stream: seq<StreamItem>)

  /** Nobody cancels and nothing breaks. */
  ghost predicate Calm(env: Env) {
    && (forall k :: !env.cancelled(k)) && (forall n :: env.generate(n).Says?)
    && (forall n, i :: env.execute(n, i).Runs?)
    && (forall item :: item in env.stream ==> item.Text? || item.Notice?)
  }

  /** The n-th reply asks for tools, allowed ones or not. */
  predicate AsksTools(env: Env, n: nat) {
    env.generate(n).Says? && env.generate(n).calls != []
  }

  datatype Answer = Refused | Unavailable | Result(success: bool)

  datatype Message =
    | Given(content: string)
    | Asks(content: string, calls: seq<Call>)
    | Answers(callId: string, name: string, answer: Answer)

  datatype Event =
    | Delta(text: string)
    | ToolEvent(name: string)
    | AssistantCompleted(content: string)
    | StreamError
    | AgentCompleted
    | AgentFailed(cancelled: bool)

  datatype End = GoesOn | IsCancelled | IsBroken | StreamFailed

  predicate Authorized(name: string, selected: seq<string>) {
    name in selected && name in KNOWN_TOOLS
  }

  function Allowed(calls: seq<Call>, selected: seq<string>): (r: seq<Call>)
    ensures forall c :: c in r <==> c in calls && Authorized(c.name, selected)
  {
    if calls == [] then []
    else
      Allowed(calls[..|calls| - 1], selected)
      + if Authorized(calls[|calls| - 1].name, selected) then [calls[|calls| - 1]] else []
  }

  function Refusals(calls: seq<Call>, selected: seq<string>): seq<Message> {
    if calls == [] then []
    else
      var last := calls[|calls| - 1];
      Refusals(calls[..|calls| - 1], selected)
      + if Authorized(last.name, selected) then [] else [Answers(last.id, last.name, Refused)]
  }

  function AnswerTo(env: Env, iteration: nat, index: nat, call: Call): Message {
    Answers(
      call.id, call.name,
      if !env.available(call.name) then Unavailable
      else match env.execute(iteration, index)
        case Crashes => Unavailable
        case Runs(_, success) => Result(success))
  }

  /** One answer for each of the first n calls, in order. */
  function AnswersTo(env: Env, iteration: nat, calls: seq<Call>, n: nat): seq<Message>
    requires n <= |calls|
  {
    if n == 0 then []
    else AnswersTo(env, iteration, calls, n - 1) + [AnswerTo(env, iteration, n - 1, calls[n - 1])]
  }

  /** What an iteration adds to the conversation when it runs to its end. */
  function RoundOf(env: Env, selected: seq<string>, iteration: nat): seq<Message> {
    match env.generate(iteration)
    case Fails => []
    case Says(content, calls) =>
      var allowed := Allowed(calls, selected);
      Refusals(calls, selected)
      + if allowed == [] then [] else [Asks(content, allowed)] + AnswersTo(env, iteration, allowed, |allowed|)
  }

  /** What the first n iterations add. */
  function Transcript(env: Env, selected: seq<string>, n: nat): seq<Message> {
    if n == 0 then [] else Transcript(env, selected, n - 1) + RoundOf(env, selected, n)
  }

  /** The tools that the first n of the calls run. */
  function ExecutedIn(env: Env, calls: seq<Call>, n: nat): seq<string>
    requires n <= |calls|
  {
    if n == 0 then []
    else ExecutedIn(env, calls, n - 1) + if env.available(calls[n - 1].name) then [calls[n - 1].name] else []
  }

  predicate IsRecorded(env: Env, iteration: nat, index: nat, call: Call) {
    env.available(call.name) && env.execute(iteration, index).Runs? && env.execute(iteration, index).recorded
  }

  /** How many of the first n calls leave an execution record. */
  function RecordedIn(env: Env, iteration: nat, calls: seq<Call>, n: nat): nat
    requires n <= |calls|
  {
    if n == 0 then 0
    else RecordedIn(env, iteration, calls, n - 1) + if IsRecorded(env, iteration, n - 1, calls[n - 1]) then 1 else 0
  }

  function AllowedOf(env: Env, selected: seq<string>, iteration: nat): seq<Call> {
    match env.generate(iteration)
    case Fails => []
    case Says(_, calls) => Allowed(calls, selected)
  }

  /** The tools that the first n iterations run, in order. */
  function ExecutedBy(env: Env, selected: seq<string>, n: nat): seq<string> {
    if n == 0 then []
    else
      var calls := AllowedOf(env, selected, n);
      ExecutedBy(env, selected, n - 1) + ExecutedIn(env, calls, |calls|)
  }

  function RecordedBy(env: Env, selected: seq<string>, n: nat): nat {
    if n == 0 then 0
    else
      var calls := AllowedOf(env, selected, n);
      RecordedBy(env, selected, n - 1) + RecordedIn(env, n, calls, |calls|)
  }

  /** The text of the first n items of the provider's stream. */
  function StreamText(items: seq<StreamItem>, n: nat): string
    requires n <= |items|
  {
    if n == 0 then "" else StreamText(items, n - 1) + if items[n - 1].Text? then items[n - 1].text else ""
  }

  function TextOf(events: seq<Event>): string {
    if events == [] then ""
    else
      TextOf(events[..|events| - 1])
      + if events[|events| - 1].Delta? then events[|events| - 1].text else ""
  }

  lemma TextMore(events: seq<Event>, e: Event)
    ensures TextOf(events + [e]) == TextOf(events) + if e.Delta? then e.text else ""
  {
    assert (events + [e])[..|events|] == events;
  }

  /** The events that decide a turn. */
  predicate Final(e: Event) {
    e.AssistantCompleted? || e.AgentCompleted? || e.AgentFailed? || e.StreamError?
  }

  function Finals(events: seq<Event>): seq<Event> {
    if events == [] then []
    else
      Finals(events[..|events| - 1])
      + if Final(events[|events| - 1]) then [events[|events| - 1]] else []
  }

  lemma FinalsMore(events: seq<Event>, e: Event)
    ensures Finals(events + [e]) == Finals(events) + if Final(e) then [e] else []
  {
    assert (events + [e])[..|events|] == events;
  }

  class Orchestrator {
    const env: Env
    const given: seq<Message>
    const selected: seq<string>
    const maxIterations: int

    var working: seq<Message>
    var events: seq<Event>
    var executed: seq<string>
    var recorded: nat
    var iterations: nat
    var streams: nat
    var polls: nat
    var finalContent: string

    constructor (env: Env, given: seq<Message>, selected: seq<string>, maxIterations: int)
      ensures this.env == env && this.given == given && this.selected == selected
      ensures this.maxIterations == maxIterations && Initial()
    {
      this.env, this.given, this.selected, this.maxIterations := env, given, selected, maxIterations;
      working, events, executed := given, [], [];
      recorded, iterations, streams, polls, finalContent := 0, 0, 0, 0, "";
    }

    predicate Initial()
      reads this
    {
      && working == given && events == [] && executed == []
      && recorded == 0 && iterations == 0 && streams == 0 && finalContent == ""
    }

    /** Only selected, known and available tools have run. */
    ghost predicate OnlyAllowed()
      reads `executed
    {
      forall name :: name in executed ==> name in selected && name in KNOWN_TOOLS && env.available(name)
    }

    method Emit(e: Event)
      modifies `events
      ensures TextOf(events) == TextOf(old(events)) + if e.Delta? then e.text else ""
      ensures Finals(events) == Finals(old(events)) + if Final(e) then [e] else []
    {
      TextMore(events, e);
      FinalsMore(events, e);
      events := events + [e];
    }

    method Cancelled() returns (c: bool)
      modifies `polls
      ensures polls == old(polls) + 1 && c == env.cancelled(old(polls))
    {
      c := env.cancelled(polls);
      polls := polls + 1;
    }

    /** Nothing shown and nothing decided yet. */
    predicate Quiet()
      reads `events
    {
      TextOf(events) == "" && Finals(events) == []
    }

    /** Unauthorised calls are refused at once. */
    method Screen(calls: seq<Call>) returns (allowed: seq<Call>)
      requires Quiet()
      modifies `working, `events
      ensures allowed == Allowed(calls, selected) && working == old(working) + Refusals(calls, selected)
      ensures Quiet()
    {
      hide Finals, TextOf;
      allowed := [];
      for i := 0 to |calls|
        invariant allowed == Allowed(calls[..i], selected)
        invariant working == old(working) + Refusals(calls[..i], selected)
        invariant Quiet()
      {
        var call := calls[i];
        assert calls[..i + 1][..i] == calls[..i];
        if call.name !in selected || call.name !in KNOWN_TOOLS {
          Emit(ToolEvent(call.name));
          working := working + [Answers(call.id, call.name, Refused)];
          continue;
        }
        allowed := allowed + [call];
      }
      assert calls[..|calls|] == calls;
    }

    /** One authorised call: checked for cancellation, executed if available, answered. */
    method AnswerCall(index: nat, call: Call) returns (end: End)
      requires OnlyAllowed() && Quiet() && Authorized(call.name, selected)
      modifies `working, `events, `executed, `recorded, `polls
      ensures end.GoesOn? || end.IsCancelled? || end.IsBroken?
      ensures Calm(env) ==> end.GoesOn?
      ensures working == old(working) + if end.GoesOn? then [AnswerTo(env, iterations, index, call)] else []
      ensures OnlyAllowed() && Quiet()
      ensures end.GoesOn? ==>
                && executed == old(executed) + (if env.available(call.name) then [call.name] else [])
                && recorded == old(recorded) + (if IsRecorded(env, iterations, index, call) then 1 else 0)
    {
      hide Finals, TextOf;
      var stop := Cancelled();
      if stop {
        return IsCancelled;
      }
      Emit(ToolEvent(call.name));
      if !env.available(call.name) {
        Emit(ToolEvent(call.name));
        working := working + [Answers(call.id, call.name, Unavailable)];
        return GoesOn;
      }
      executed := executed + [call.name];
      var result := env.execute(iterations, index);
      if result.Crashes? {
        return IsBroken;
      }
      if result.recorded {
        recorded := recorded + 1;
      }
      Emit(ToolEvent(call.name));
      working := working + [Answers(call.id, call.name, Result(result.success))];
      return GoesOn;
    }

    /** One answer for each call, in order, until the turn is cancelled or a tool breaks. */
    method AnswerCalls(calls: seq<Call>) returns (end: End, ghost answered: nat)
      requires OnlyAllowed() && Quiet() && forall c :: c in calls ==> Authorized(c.name, selected)
      modifies `working, `events, `executed, `recorded, `polls
      ensures answered <= |calls| && working == old(working) + AnswersTo(env, iterations, calls, answered)
      ensures end.GoesOn? || end.IsCancelled? || end.IsBroken?
      ensures end.GoesOn? <==> answered == |calls|
      ensures Calm(env) ==> end.GoesOn?
      ensures OnlyAllowed() && Quiet()
      ensures end.GoesOn? ==>
                && executed == old(executed) + ExecutedIn(env, calls, |calls|)
                && recorded == old(recorded) + RecordedIn(env, iterations, calls, |calls|)
    {
      hide AnswerTo, Authorized, Calm, IsRecorded, OnlyAllowed, Quiet;
      answered := 0;
      end := GoesOn;
      for i := 0 to |calls|
        invariant end.GoesOn? && answered == i && working == old(working) + AnswersTo(env, iterations, calls, i)
        invariant OnlyAllowed() && Quiet()
        invariant executed == old(executed) + ExecutedIn(env, calls, i)
        invariant recorded == old(recorded) + RecordedIn(env, iterations, calls, i)
      {
        end := AnswerCall(i, calls[i]);
        if !end.GoesOn? {
          return;
        }
        answered := i + 1;
      }
    }

    /** The authorised calls of a reply: the assistant message that asks for them, then their
        answers. */
    method RunCalls(content: string, calls: seq<Call>, allowed: seq<Call>) returns (end: End)
      requires OnlyAllowed() && Quiet() && iterations > 0 && env.generate(iterations) == Says(content, calls)
      requires allowed == Allowed(calls, selected) && allowed != []
      requires executed == ExecutedBy(env, selected, iterations - 1)
      requires recorded == RecordedBy(env, selected, iterations - 1)
      requires working == given + Transcript(env, selected, iterations - 1) + Refusals(calls, selected)
      modifies `working, `events, `executed, `recorded, `polls
      ensures OnlyAllowed() && Quiet()
      ensures end.GoesOn? || end.IsCancelled? || end.IsBroken?
      ensures working <= given + Transcript(env, selected, iterations)
      ensures end.GoesOn? ==> Played()
      ensures Calm(env) ==> end.GoesOn?
    {
      hide Calm, Allowed, OnlyAllowed, Quiet, Transcript, Refusals, AnswersTo, ExecutedIn, RecordedIn;
      working := working + [Asks(content, allowed)];
      ghost var answered;
      end, answered := AnswerCalls(allowed);
      PartialRound(env, selected, given, iterations, content, calls, answered);
    }

    /** A reply without calls: shown in pieces, unless it is blank although tools ran; then
        the answer is still to be streamed. */
    method PlainAnswer(content: string) returns (synthesize: bool)
      requires Quiet()
      modifies `events, `finalContent
      ensures finalContent == content && (synthesize <==> recorded > 0 && Strip(content) == "")
      ensures synthesize ==> Quiet()
      ensures !synthesize ==> TextOf(events) == content && Finals(events) == [AssistantCompleted(content)]
    {
      hide Finals, TextOf, Strip;
      finalContent := content;
      if recorded > 0 && Strip(finalContent) == "" {
        return true;
      }
      ShowPieces();
      Emit(AssistantCompleted(finalContent));
      return false;
    }

    /** The conversation and the executions are those of the iterations so far. */
    ghost predicate Played()
      reads `working, `executed, `recorded, `iterations
    {
      && working == given + Transcript(env, selected, iterations)
      && executed == ExecutedBy(env, selected, iterations)
      && recorded == RecordedBy(env, selected, iterations)
    }

    /** One pass of the loop. `more` tells whether the loop goes on. */
    method Iterate() returns (end: End, more: bool, synthesize: bool)
      requires OnlyAllowed() && Quiet() && finalContent == "" && Played()
      modifies `iterations, `finalContent, `working, `events, `executed, `recorded, `polls
      ensures iterations == old(iterations) + 1 || (iterations == old(iterations) && end.IsCancelled?)
      ensures OnlyAllowed()
      ensures end.GoesOn? || end.IsCancelled? || end.IsBroken?
      ensures end.GoesOn? ==> Played()
      ensures Calm(env) ==> end.GoesOn?
      ensures working <= given + Transcript(env, selected, iterations)
      ensures end.GoesOn? && more ==> iterations > 0 && AsksTools(env, iterations)
      ensures more || !end.GoesOn? ==> Quiet() && finalContent == "" && !synthesize
      ensures end.GoesOn? && !more ==>
                && iterations > 0 && env.generate(iterations) == Says(finalContent, [])
                && (synthesize <==> recorded > 0 && Strip(finalContent) == "")
                && if synthesize then Quiet()
                   else TextOf(events) == finalContent && Finals(events) == [AssistantCompleted(finalContent)]
    {
      hide OnlyAllowed, Quiet, Finals, TextOf, Strip, Transcript, RoundOf, Refusals, Allowed, ExecutedBy, RecordedBy;
      more, synthesize := true, false;
      var stop := Cancelled();
      if stop {
        return IsCancelled, more, synthesize;
      }
      iterations := iterations + 1;
      TranscriptMore(env, selected, iterations);
      RoundWithoutAnswers(env, selected, iterations);
      var generation := env.generate(iterations);
      if generation.Fails? {
        return IsBroken, more, synthesize;
      }
      var allowed := Screen(generation.calls);
      if allowed != [] {
        end := RunCalls(generation.content, generation.calls, allowed);
        return;
      }
      end, more := GoesOn, generation.calls != [];
      if !more {
        synthesize := PlainAnswer(generation.content);
      }
    }

    method ShowPieces()
      requires Quiet()
      modifies `events
      ensures TextOf(events) == finalContent && Finals(events) == []
    {
      hide Finals, TextOf, WellCut;
      var pieces := ProgressiveChunks(finalContent, MAX_CHUNK);
      for i := 0 to |pieces|
        invariant TextOf(events) == Concat(pieces[..i]) && Finals(events) == []
      {
        assert pieces[..i + 1] == pieces[..i] + [pieces[i]];
        ConcatMore(pieces[..i], pieces[i]);
        Emit(Delta(pieces[i]));
      }
      assert pieces[..|pieces|] == pieces;
    }

    /** The provider's stream without tools: every piece is shown and added to the content. */
    method StreamAnswer() returns (end: End)
      requires Quiet()
      modifies `events, `streams, `polls, `finalContent
      ensures streams == old(streams) + 1 && finalContent == old(finalContent) + TextOf(events)
      ensures Finals(events) == if end.StreamFailed? then [StreamError] else []
      ensures end.GoesOn? ==> TextOf(events) == StreamText(env.stream, |env.stream|)
      ensures Calm(env) ==> end.GoesOn?
    {
      hide Finals, TextOf;
      streams := streams + 1;
      for i := 0 to |env.stream|
        invariant streams == old(streams) + 1
        invariant Finals(events) == [] && finalContent == old(finalContent) + TextOf(events)
        invariant TextOf(events) == StreamText(env.stream, i)
      {
        var item := env.stream[i];
        assert item in env.stream;
        if item.Breaks? {
          return IsBroken;
        }
        var stop := Cancelled();
        if stop {
          return IsCancelled;
        }
        if item.Trouble? {
          Emit(StreamError);
          return StreamFailed;
        }
        if item.Text? && item.text != "" {
          Emit(Delta(item.text));
          finalContent := finalContent + item.text;
        }
      }
      end := GoesOn;
    }

    /** The model answered with blank text although tools had left a record. */
    predicate BlankReply()
      reads `iterations, `recorded
    {
      && iterations > 0 && recorded > 0
      && env.generate(iterations).Says? && env.generate(iterations).calls == []
      && Strip(env.generate(iterations).content) == ""
    }

    /** Where the content of a turn with tools comes from: the notice that the iterations are
        used up, the first reply without calls, or, when that is blank after tools ran, the
        blank reply followed by the provider's stream. */
    ghost predicate Answered()
      reads `iterations, `recorded, `streams, `finalContent
    {
      && (forall k :: 1 <= k < iterations ==> AsksTools(env, k))
      && if iterations == 0 || AsksTools(env, iterations) then
           iterations >= maxIterations && streams == 0 && finalContent == OUT_OF_STEPS
         else
           && env.generate(iterations).Says?
           && (if BlankReply() then
                 streams == 1
                 && finalContent == env.generate(iterations).content + StreamText(env.stream, |env.stream|)
               else streams == 0 && finalContent == env.generate(iterations).content)
    }

    /** The part of the reported content that was never shown. */
    function Lead(): string
      reads `iterations, `recorded
    {
      if selected != [] && BlankReply() then env.generate(iterations).content else ""
    }

    /** The loop stands between two passes: it goes on after replies that asked for tools, and
        stops at the first one that did not. */
    ghost predicate Looped(more: bool, synthesize: bool)
      reads `events, `working, `executed, `recorded, `iterations, `finalContent
    {
      && Played() && (forall k :: 1 <= k < iterations ==> AsksTools(env, k))
      && if more then
           Quiet() && finalContent == "" && !synthesize && (iterations > 0 ==> AsksTools(env, iterations))
         else
           && iterations > 0 && env.generate(iterations) == Says(finalContent, [])
           && (synthesize <==> recorded > 0 && Strip(finalContent) == "")
           && if synthesize then Quiet()
              else TextOf(events) == finalContent && Finals(events) == [AssistantCompleted(finalContent)]
    }

    method Loop() returns (end: End, more: bool, synthesize: bool)
      requires Initial()
      modifies `iterations, `finalContent, `working, `events, `executed, `recorded, `polls
      ensures OnlyAllowed() && iterations <= Max(maxIterations, 0)
      ensures end.GoesOn? || end.IsCancelled? || end.IsBroken?
      ensures end.GoesOn? ==> Looped(more, synthesize) && (more ==> iterations >= maxIterations)
      ensures !end.GoesOn? ==> Quiet() && working <= given + Transcript(env, selected, iterations)
      ensures Calm(env) ==> end.GoesOn?
    {
      hide Calm, OnlyAllowed, Finals, Quiet, TextOf, Strip, Transcript, ExecutedBy, RecordedBy;
      NothingYet();
      more, synthesize := true, false;
      end := GoesOn;
      while more && iterations < maxIterations
        invariant iterations <= Max(maxIterations, 0) && end.GoesOn? && OnlyAllowed() && Looped(more, synthesize)
        decreases maxIterations - iterations, more
      {
        end, more, synthesize := Iterate();
        if !end.GoesOn? {
          return;
        }
      }
    }

    method OutOfSteps()
      requires Looped(true, false) && iterations >= maxIterations && streams == 0
      modifies `events, `finalContent
      ensures Turn(GoesOn) && Answered()
    {
      hide AsksTools, Allowed, Calm, Finals, OnlyAllowed, Played, TextOf, Strip, Transcript;
      PlayedTranscript();
      NoBlankReply();
      finalContent := OUT_OF_STEPS;
      Emit(Delta(finalContent));
      Emit(AssistantCompleted(finalContent));
    }

    method Synthesize() returns (end: End)
      requires Looped(false, true) && streams == 0 && selected != []
      modifies `events, `streams, `polls, `finalContent
      ensures Turn(end) && streams == 1
      ensures end.GoesOn? ==> Answered()
      ensures Calm(env) ==> end.GoesOn?
    {
      hide AsksTools, Calm, Finals, Played, TextOf, StreamText, Strip, Transcript;
      PlayedTranscript();
      PlainReply();
      end := StreamAnswer();
      if end.GoesOn? {
        Emit(AssistantCompleted(finalContent));
      }
    }

    /** The tool-calling turn up to its last event. */
    method ToolTurn() returns (end: End)
      requires Initial() && selected != []
      modifies this
      ensures OnlyAllowed() && Turn(end)
      ensures iterations <= Max(maxIterations, 0) && streams <= 1
      ensures end.GoesOn? ==> Answered()
      ensures Calm(env) ==> end.GoesOn?
    {
      hide AsksTools, Calm, OnlyAllowed, Finals, Played, TextOf, Strip, Transcript;
      var more, synthesize;
      end, more, synthesize := Loop();
      if !end.GoesOn? {
        return;
      }
      PlayedTranscript();
      if more {
        OutOfSteps();
      } else if synthesize {
        end := Synthesize();
      } else {
        PlainReply();
      }
    }

    lemma PlayedTranscript()
      requires Played()
      ensures working <= given + Transcript(env, selected, iterations)
    {
    }

    lemma NoBlankReply()
      requires iterations > 0 ==> AsksTools(env, iterations)
      ensures !BlankReply() && (iterations == 0 || AsksTools(env, iterations))
    {
    }

    lemma PlainReply()
      requires iterations > 0 && env.generate(iterations).Says? && env.generate(iterations).calls == []
      ensures !AsksTools(env, iterations)
    {
    }

    /** How a turn stands before its closing event: the conversation, the shown text and
        what has been decided. */
    ghost predicate Turn(end: End)
      reads this
    {
      && working <= given + Transcript(env, selected, iterations)
      && (end.GoesOn? ==> Played() && finalContent == Lead() + TextOf(events))
      && (end.GoesOn? ==> Finals(events) == [AssistantCompleted(finalContent)])
      && (end.StreamFailed? ==> Finals(events) == [StreamError])
      && (end.IsCancelled? || end.IsBroken? ==> Finals(events) == [])
    }

    /** A whole turn. It asks the model at most maxIterations times, streams at most once,
        runs only allowed tools, answers every authorised call once, and ends in one way. The
        reported content is the shown text, except exactly when the model answered with blank,
        not empty, text after tools had left a record: that text stays in front. */
    method Stream() returns (end: End)
      requires Initial()
      modifies this
      ensures OnlyAllowed() && iterations <= Max(maxIterations, 0) && streams <= 1
      ensures forall name :: name in executed ==> name in selected && name in KNOWN_TOOLS && env.available(name)
      ensures selected == [] ==> iterations == 0 && executed == []
      ensures working <= given + Transcript(env, selected, iterations)
      ensures end.GoesOn? ==> Played() && Finals(events) == [AssistantCompleted(finalContent), AgentCompleted]
      ensures end.GoesOn? ==> if selected == [] then finalContent == StreamText(env.stream, |env.stream|)
                              else Answered()
      ensures end.GoesOn? ==> finalContent == Lead() + TextOf(events)
      ensures end.GoesOn? ==>
                (finalContent == TextOf(events)
                 <==> !(selected != [] && BlankReply() && env.generate(iterations).content != ""))
      ensures end.IsCancelled? ==> Finals(events) == [AgentFailed(true)]
      ensures end.IsBroken? ==> Finals(events) == [AgentFailed(false), StreamError]
      ensures end.StreamFailed? ==> Finals(events) == [StreamError]
      ensures Calm(env) ==> end.GoesOn?
    {
      hide Answered, Calm, Finals, TextOf, StreamText, Strip, Transcript;
      if selected == [] {
        NothingYet();
        end := StreamAnswer();
        if end.GoesOn? {
          Emit(AssistantCompleted(finalContent));
        }
      } else {
        end := ToolTurn();
      }
      match end
      case GoesOn =>
        LeadDiffers();
        Emit(AgentCompleted);
      case IsCancelled => Emit(AgentFailed(true));
      case IsBroken =>
        Emit(AgentFailed(false));
        Emit(StreamError);
      case StreamFailed =>
    }

    lemma LeadDiffers()
      ensures Lead() + TextOf(events) == TextOf(events) <==> Lead() == ""
    {
      assert |Lead() + TextOf(events)| == |Lead()| + |TextOf(events)|;
    }

    lemma NothingYet()
      requires Initial()
      ensures OnlyAllowed() && Quiet() && Played()
    {
    }
  }

  lemma TranscriptMore(env: Env, selected: seq<string>, n: nat)
    requires n > 0
    ensures Transcript(env, selected, n) == Transcript(env, selected, n - 1) + RoundOf(env, selected, n)
  {
  }

  lemma RoundWithoutAnswers(env: Env, selected: seq<string>, n: nat)
    ensures env.generate(n).Fails? ==> RoundOf(env, selected, n) == []
    ensures env.generate(n).Says? && Allowed(env.generate(n).calls, selected) == [] ==>
              RoundOf(env, selected, n) == Refusals(env.generate(n).calls, selected)
    ensures Refusals([], selected) == [] && Allowed([], selected) == []
    ensures n > 0 && env.generate(n).Says? && Allowed(env.generate(n).calls, selected) == [] ==>
              && ExecutedBy(env, selected, n) == ExecutedBy(env, selected, n - 1)
              && RecordedBy(env, selected, n) == RecordedBy(env, selected, n - 1)
  {
  }

  lemma {:induction false} AnswersPrefix(env: Env, iteration: nat, calls: seq<Call>, n: nat, m: nat)
    requires n <= m <= |calls|
    ensures AnswersTo(env, iteration, calls, n) <= AnswersTo(env, iteration, calls, m)
    decreases m - n
  {
    hide AnswerTo;
    if n < m {
      AnswersPrefix(env, iteration, calls, n, m - 1);
    }
  }

  lemma PartialRound(
    env: Env, selected: seq<string>, given: seq<Message>, n: nat, content: string, calls: seq<Call>, answered: nat)
    requires n > 0 && env.generate(n) == Says(content, calls)
    requires Allowed(calls, selected) != [] && answered <= |Allowed(calls, selected)|
    ensures var allowed := Allowed(calls, selected);
            var partial := given + Transcript(env, selected, n - 1) + Refusals(calls, selected)
                           + [Asks(content, allowed)] + AnswersTo(env, n, allowed, answered);
            && partial <= given + Transcript(env, selected, n)
            && (answered == |allowed| ==> partial == given + Transcript(env, selected, n))
  {
    hide Allowed, AnswerTo, Refusals;
    var allowed := Allowed(calls, selected);
    AnswersPrefix(env, n, allowed, answered, |allowed|);
    var front := given + Transcript(env, selected, n - 1) + Refusals(calls, selected) + [Asks(content, allowed)];
    assert given + Transcript(env, selected, n) == front + AnswersTo(env, n, allowed, |allowed|);
  }

  /** A calculator call, a blank reply, and a streamed answer: the reported content keeps the
      blank in front of what was shown. */
  method BlankLead() returns (turn: Orchestrator)
    ensures turn.finalContent != TextOf(turn.events)
  {
    hide *;
    var call := Call("1", "calculator");
    var env := Env(n => if n == 1 then Says("", [call]) else Says(" ", []), (n, i) => Runs(true, true),
                   name => true, k => false, [Text("4")]);
    AllCalm(env);
    turn := new Orchestrator(env, [], ["calculator"], 2);
    var end := turn.Stream();
    BlankAfterCalculator(turn, call);
  }

  lemma AllCalm(env: Env)
    requires (forall k :: !env.cancelled(k)) && (forall n :: env.generate(n).Says?)
    requires (forall n, i :: env.execute(n, i).Runs?) && env.stream == [Text("4")]
    ensures Calm(env)
  {
  }

  lemma BlankAfterCalculator(turn: Orchestrator, call: Call)
    requires turn.env.generate(1) == Says("", [call]) && turn.env.generate(2) == Says(" ", [])
    requires call.name == "calculator" && turn.env.available(call.name)
    requires turn.env.execute(1, 0) == Runs(true, true)
    requires turn.selected == ["calculator"] && turn.maxIterations == 2
    requires turn.iterations <= Max(turn.maxIterations, 0)
    requires turn.Answered() && turn.Played()
    ensures turn.BlankReply() && turn.iterations == 2
  {
    hide Transcript, ExecutedBy, RecordedBy, StreamText, Strip;
    assert turn.iterations == 2;
    CalculatorRecorded(turn.env, call);
    StripBlank(" ");
  }

  lemma CalculatorRecorded(env: Env, call: Call)
    requires env.generate(1) == Says("", [call]) && env.generate(2) == Says(" ", [])
    requires call.name == "calculator" && env.available(call.name)
    requires env.execute(1, 0) == Runs(true, true)
    ensures RecordedBy(env, ["calculator"], 2) == 1
  {
    var selected := ["calculator"];
    assert Authorized(call.name, selected);
    assert [call][..0] == [];
    assert Allowed([call], selected) == [call];
    assert RecordedIn(env, 1, [call], 1) == 1;
    assert RecordedBy(env, selected, 1) == 1;
    assert AllowedOf(env, selected, 2) == [];
  }

  // --- What the transcript says ------------------------------------------------------------

  predicate AnswersCall(m: Message, call: Call) {
    m.Answers? && m.callId == call.id && m.name == call.name && !m.answer.Refused?
  }

  /** The messages after position i answer the calls asked there, one each and in order. */
  ghost predicate AnsweredAt(messages: seq<Message>, i: nat) {
    && i < |messages| && messages[i].Asks?
    && i + |messages[i].calls| < |messages|
    && forall j :: i < j <= i + |messages[i].calls| ==> AnswersCall(messages[j], messages[i].calls[j - i - 1])
  }

  lemma {:induction false} AnswersAre(env: Env, iteration: nat, calls: seq<Call>, n: nat)
    requires n <= |calls|
    ensures |AnswersTo(env, iteration, calls, n)| == n
    ensures forall k :: 0 <= k < n ==>
              AnswersTo(env, iteration, calls, n)[k] == AnswerTo(env, iteration, k, calls[k])
  {
    hide AnswerTo;
    if n > 0 {
      AnswersAre(env, iteration, calls, n - 1);
    }
  }

  /** The calls of an iteration that were kept, and behind the message that asks for them their
      answers: a tool that is not registered is reported unavailable, any other one answers
      with the outcome of its own execution. */
  lemma RoundTells(env: Env, selected: seq<string>, n: nat, i: nat, k: nat)
    requires i < |RoundOf(env, selected, n)| && RoundOf(env, selected, n)[i].Asks?
    requires k < |RoundOf(env, selected, n)[i].calls|
    ensures env.generate(n).Says? && RoundOf(env, selected, n)[i].content == env.generate(n).content
    ensures var call := RoundOf(env, selected, n)[i].calls[k];
            && call in env.generate(n).calls && i + 1 + k < |RoundOf(env, selected, n)|
            && var m := RoundOf(env, selected, n)[i + 1 + k];
            && m.Answers? && m.callId == call.id && m.name == call.name
            && (if !env.available(call.name) then m.answer == Unavailable
                else env.execute(n, k).Runs? ==> m.answer == Result(env.execute(n, k).success))
  {
    hide Allowed, Refusals, AnswersTo;
    var calls := env.generate(n).calls;
    var allowed, refused := Allowed(calls, selected), Refusals(calls, selected);
    RefusalsAre(calls, selected);
    AnswersAre(env, n, allowed, |allowed|);
    var round := RoundOf(env, selected, n);
    assert forall j :: 0 <= j < |refused| ==> round[j] == refused[j];
    assert i == |refused|;
    assert round[i].calls == allowed && allowed[k] in allowed;
    assert round[i + 1 + k] == AnswersTo(env, n, allowed, |allowed|)[k];
  }

  /** The tools that run are those of the kept calls that are registered, in order. */
  lemma {:induction false} ExecutedAre(env: Env, calls: seq<Call>, n: nat) returns (picks: seq<nat>)
    requires n <= |calls|
    ensures |ExecutedIn(env, calls, n)| == |picks| && forall k, l :: 0 <= k < l < |picks| ==> picks[k] < picks[l]
    ensures forall k :: 0 <= k < |picks| ==>
              && picks[k] < n && env.available(calls[picks[k]].name)
              && ExecutedIn(env, calls, n)[k] == calls[picks[k]].name
    ensures forall i: nat :: i < n && env.available(calls[i].name) ==> i in picks
    decreases n
  {
    picks := [];
    if n > 0 {
      picks := ExecutedAre(env, calls, n - 1);
      ghost var before := picks;
      if env.available(calls[n - 1].name) {
        picks := picks + [n - 1];
        assert n - 1 in picks;
        assert forall i :: i in before ==> i in picks;
      }
    }
  }

  /** The streamed text is that of the text items, joined in order. */
  lemma {:induction false} StreamTextIs(items: seq<StreamItem>, texts: seq<string>, n: nat)
    requires n <= |items| == |texts|
    requires forall i :: 0 <= i < |items| ==> texts[i] == if items[i].Text? then items[i].text else ""
    ensures StreamText(items, n) == Concat(texts[..n])
    decreases n
  {
    if n > 0 {
      StreamTextIs(items, texts, n - 1);
      assert texts[..n][..n - 1] == texts[..n - 1];
    }
  }

  /** The shown text is that of the delta events, joined in order. */
  lemma {:induction false} TextOfIs(events: seq<Event>, texts: seq<string>)
    requires |events| == |texts|
    requires forall i :: 0 <= i < |events| ==> texts[i] == if events[i].Delta? then events[i].text else ""
    ensures TextOf(events) == Concat(texts)
    decreases |events|
  {
    if events != [] {
      TextOfIs(events[..|events| - 1], texts[..|texts| - 1]);
    }
  }

  lemma {:induction false} RefusalsAre(calls: seq<Call>, selected: seq<string>)
    ensures forall k :: 0 <= k < |Refusals(calls, selected)| ==>
              Refusals(calls, selected)[k].Answers? && Refusals(calls, selected)[k].answer.Refused?
  {
    if calls != [] {
      RefusalsAre(calls[..|calls| - 1], selected);
    }
  }

  lemma RoundAnswers(env: Env, selected: seq<string>, n: nat, i: nat)
    requires i < |RoundOf(env, selected, n)| && RoundOf(env, selected, n)[i].Asks?
    ensures AnsweredAt(RoundOf(env, selected, n), i)
    ensures i + 1 + |RoundOf(env, selected, n)[i].calls| == |RoundOf(env, selected, n)|
  {
    hide Allowed, Refusals, AnswersTo;
    var generation := env.generate(n);
    var allowed := Allowed(generation.calls, selected);
    RefusalsAre(generation.calls, selected);
    AnswersAre(env, n, allowed, |allowed|);
    var refused := Refusals(generation.calls, selected);
    var round := RoundOf(env, selected, n);
    assert round == refused + if allowed == [] then []
                              else [Asks(generation.content, allowed)] + AnswersTo(env, n, allowed, |allowed|);
    assert i == |refused|;
  }

  lemma AnsweredLater(before: seq<Message>, round: seq<Message>, i: nat)
    requires AnsweredAt(round, i)
    ensures AnsweredAt(before + round, |before| + i)
  {
    hide AnswersCall;
    var all := before + round;
    assert all[|before| + i] == round[i];
    forall j | |before| + i < j <= |before| + i + |round[i].calls|
      ensures AnswersCall(all[j], round[i].calls[j - |before| - i - 1])
    {
      assert all[j] == round[j - |before|];
    }
  }

  lemma AnsweredStill(before: seq<Message>, round: seq<Message>, i: nat)
    requires AnsweredAt(before, i)
    ensures AnsweredAt(before + round, i)
  {
    hide AnswersCall;
  }

  /** The positions, in order, of the calls of a selected and known tool, or of the others. */
  ghost predicate Picks(calls: seq<Call>, selected: seq<string>, allowed: bool, some: seq<nat>) {
    && (forall k, l :: 0 <= k < l < |some| ==> some[k] < some[l])
    && (forall i: nat :: i in some <==>
          i < |calls| && (allowed <==> calls[i].name in selected && calls[i].name in KNOWN_TOOLS))
  }

  lemma PicksMore(calls: seq<Call>, selected: seq<string>, allowed: bool, some: seq<nat>, n: nat)
    requires |calls| == n + 1 && Picks(calls[..n], selected, allowed, some)
    ensures Picks(calls, selected, allowed,
                  some + if allowed <==> Authorized(calls[n].name, selected) then [n] else [])
    ensures forall k :: 0 <= k < |some| ==> some[k] < n
  {
    forall k | 0 <= k < |some|
      ensures some[k] < n
    {
      assert some[k] in some;
    }
  }

  /** The calls of a selected, known tool are kept, in order. */
  lemma {:induction false} CallsKept(calls: seq<Call>, selected: seq<string>) returns (kept: seq<nat>)
    ensures Picks(calls, selected, true, kept) && |Allowed(calls, selected)| == |kept|
    ensures forall k :: 0 <= k < |kept| ==> kept[k] < |calls| && Allowed(calls, selected)[k] == calls[kept[k]]
    decreases |calls|
  {
    hide Authorized, Picks;
    kept := [];
    if calls == [] {
      NoPicks(selected);
    } else {
      var n := |calls| - 1;
      kept := CallsKept(calls[..n], selected);
      PicksMore(calls, selected, true, kept, n);
      kept := kept + if Authorized(calls[n].name, selected) then [n] else [];
    }
  }

  /** Each of the others gets a refusal, in order. */
  lemma {:induction false} CallsRefused(calls: seq<Call>, selected: seq<string>) returns (refused: seq<nat>)
    ensures Picks(calls, selected, false, refused) && |Refusals(calls, selected)| == |refused|
    ensures forall k :: 0 <= k < |refused| ==>
              && refused[k] < |calls|
              && Refusals(calls, selected)[k] == Answers(calls[refused[k]].id, calls[refused[k]].name, Refused)
    decreases |calls|
  {
    hide Authorized, Picks;
    refused := [];
    if calls == [] {
      NoPicks(selected);
    } else {
      var n := |calls| - 1;
      refused := CallsRefused(calls[..n], selected);
      PicksMore(calls, selected, false, refused, n);
      refused := refused + if Authorized(calls[n].name, selected) then [] else [n];
    }
  }

  lemma NoPicks(selected: seq<string>)
    ensures forall allowed :: Picks([], selected, allowed, [])
  {
  }

  /** A tool that is not selected or not known is asked for by no assistant message, and is
      answered by refusals only; every other answer is none. */
  lemma {:induction false} UnauthorisedRefused(env: Env, selected: seq<string>, n: nat)
    ensures forall m :: m in Transcript(env, selected, n) ==>
              && !m.Given?
              && (m.Asks? ==> forall c :: c in m.calls ==> c.name in selected && c.name in KNOWN_TOOLS)
              && (m.Answers? ==> (m.answer.Refused? <==> m.name !in selected || m.name !in KNOWN_TOOLS))
    ensures forall k, c ::
              (1 <= k <= n && env.generate(k).Says? && c in env.generate(k).calls
               && (c.name !in selected || c.name !in KNOWN_TOOLS)) ==>
                Answers(c.id, c.name, Refused) in Transcript(env, selected, n)
    decreases n
  {
    hide Allowed, Refusals, AnswersTo, AnswerTo;
    if n > 0 {
      UnauthorisedRefused(env, selected, n - 1);
      RoundRefuses(env, selected, n);
    }
  }

  lemma RoundRefuses(env: Env, selected: seq<string>, n: nat)
    ensures forall m :: m in RoundOf(env, selected, n) ==>
              && !m.Given?
              && (m.Asks? ==> forall c :: c in m.calls ==> c.name in selected && c.name in KNOWN_TOOLS)
              && (m.Answers? ==> (m.answer.Refused? <==> m.name !in selected || m.name !in KNOWN_TOOLS))
    ensures forall c ::
              (env.generate(n).Says? && c in env.generate(n).calls
               && (c.name !in selected || c.name !in KNOWN_TOOLS)) ==>
                Answers(c.id, c.name, Refused) in RoundOf(env, selected, n)
  {
    hide Allowed, Refusals, AnswersTo;
    if env.generate(n).Says? {
      var calls := env.generate(n).calls;
      var kept := CallsKept(calls, selected);
      var refused := CallsRefused(calls, selected);
      var allowed, refusals := Allowed(calls, selected), Refusals(calls, selected);
      AnswersAre(env, n, allowed, |allowed|);
      forall m | m in refusals
        ensures m.Answers? && m.answer.Refused? && (m.name !in selected || m.name !in KNOWN_TOOLS)
      {
        var k :| 0 <= k < |refusals| && refusals[k] == m;
        assert refused[k] in refused;
      }
      forall c | c in allowed
        ensures c.name in selected && c.name in KNOWN_TOOLS
      {
        var k :| 0 <= k < |allowed| && allowed[k] == c;
        assert kept[k] in kept;
      }
      forall c | c in calls && (c.name !in selected || c.name !in KNOWN_TOOLS)
        ensures Answers(c.id, c.name, Refused) in refusals
      {
        var i :| 0 <= i < |calls| && calls[i] == c;
        var k :| 0 <= k < |refused| && refused[k] == i;
        assert refusals[k] in refusals;
      }
      forall m | m in AnswersTo(env, n, allowed, |allowed|)
        ensures m.Answers? && !m.answer.Refused? && m.name in selected && m.name in KNOWN_TOOLS
      {
        var k :| 0 <= k < |allowed| && AnswersTo(env, n, allowed, |allowed|)[k] == m;
        assert allowed[k] in allowed;
      }
    }
  }

  /** In every complete transcript each authorised call is answered exactly once, right after
      the assistant message that asked for it; every other tool message is a refusal. */
  lemma {:induction false} EveryCallAnswered(env: Env, selected: seq<string>, n: nat, i: nat)
    requires i < |Transcript(env, selected, n)| && Transcript(env, selected, n)[i].Asks?
    ensures AnsweredAt(Transcript(env, selected, n), i)
  {
    hide RoundOf;
    var before, round := Transcript(env, selected, n - 1), RoundOf(env, selected, n);
    if i < |before| {
      EveryCallAnswered(env, selected, n - 1, i);
      AnsweredStill(before, round, i);
    } else {
      RoundAnswers(env, selected, n, i - |before|);
      AnsweredLater(before, round, i - |before|);
    }
  }

  /** Conversely, an answer other than a refusal belongs to an assistant message before it. */
  lemma {:induction false} EveryAnswerAsked(env: Env, selected: seq<string>, n: nat, j: nat) returns (i: nat)
    requires j < |Transcript(env, selected, n)|
    requires Transcript(env, selected, n)[j].Answers? && !Transcript(env, selected, n)[j].answer.Refused?
    ensures i < j && Transcript(env, selected, n)[i].Asks? && j <= i + |Transcript(env, selected, n)[i].calls|
  {
    hide Allowed, Refusals;
    var before, round := Transcript(env, selected, n - 1), RoundOf(env, selected, n);
    if j < |before| {
      i := EveryAnswerAsked(env, selected, n - 1, j);
    } else {
      var calls := env.generate(n).calls;
      RefusalsAre(calls, selected);
      var refused, allowed := Refusals(calls, selected), Allowed(calls, selected);
      AnswersAre(env, n, allowed, |allowed|);
      assert forall k :: 0 <= k < |refused| ==> round[k] == refused[k];
      i := |before| + |refused|;
    }
  }
}
