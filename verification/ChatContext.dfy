/** The context builder of the chat (backend/app/conversations/context.py). */
module ChatContext {
  import opened Signals
  import opened Texts
  import Citations

  datatype Role = User | Assistant | System

  datatype Message = Message(role: Role, content: string, active: bool, complete: bool)

  datatype ChatMessage = ChatMessage(role: Role, content: string)

  datatype Settings = Settings(
    maxHistoryMessages: nat, maxHistoryChars: nat, maxContextChars: nat, maxRagChars: nat, summaryMax: nat)

  datatype Built = Built(
    messages: seq<ChatMessage>, system: string, historyCount: nat, historyChars: nat, ragChars: nat, memoryChars: nat,
    includedSummary: bool, trimmed: bool)

  const SUMMARY_OVERHEAD: nat := 64
  const ACKNOWLEDGED: string := "Understood. I will use the summary for earlier context."

  // --- Histories -------------------------------------------------------------------------

  predicate Eligible(m: Message) {
    m.active && m.complete && (m.role.User? || m.role.Assistant?) && !Blank(m.content)
  }

  function EligibleOf(history: seq<Message>): seq<Message> {
    if history == [] then []
    else
      var n := |history| - 1;
      EligibleOf(history[..n]) + if Eligible(history[n]) then [history[n]] else []
  }

  /** The positions, in order, of the messages that are active, complete, written by user or
      assistant, and not blank. */
  ghost predicate Picks(history: seq<Message>, picks: seq<nat>) {
    && (forall i, j :: 0 <= i < j < |picks| ==> picks[i] < picks[j])
    && (forall i: nat :: i in picks <==>
          && i < |history| && history[i].active && history[i].complete && history[i].role != System
          && exists c :: c in history[i].content && !IsSpace(c))
  }

  lemma PicksMore(history: seq<Message>, picks: seq<nat>, n: nat)
    requires |history| == n + 1 && Picks(history[..n], picks)
    ensures Picks(history, picks + if Eligible(history[n]) then [n] else [])
    ensures forall k :: 0 <= k < |picks| ==> picks[k] < n
  {
    hide IsSpace;
    forall k | 0 <= k < |picks|
      ensures picks[k] < n
    {
      assert picks[k] in picks;
    }
  }

  /** The eligible messages are exactly these, in the order of the history. */
  lemma {:induction false} EligibleAre(history: seq<Message>) returns (picks: seq<nat>)
    ensures Picks(history, picks) && |picks| == |EligibleOf(history)|
    ensures forall k :: 0 <= k < |picks| ==> picks[k] < |history| && EligibleOf(history)[k] == history[picks[k]]
    decreases |history|
  {
    hide Eligible, Picks;
    picks := [];
    if history == [] {
      NoPicks();
    } else {
      var n := |history| - 1;
      picks := EligibleAre(history[..n]);
      PicksMore(history, picks, n);
      picks := picks + if Eligible(history[n]) then [n] else [];
    }
  }

  lemma NoPicks()
    ensures Picks([], [])
  {
  }

  lemma EligibleMore(prior: seq<Message>, m: Message)
    ensures EligibleOf(prior + [m]) == EligibleOf(prior) + if Eligible(m) then [m] else []
  {
    hide Eligible;
    assert (prior + [m])[..|prior|] == prior;
  }

  /** The list comprehension over the history. */
  method SelectEligible(history: seq<Message>) returns (eligible: seq<Message>)
    ensures eligible == EligibleOf(history)
  {
    hide Strip, EligibleOf;
    eligible := [];
    assert EligibleOf([]) == [] by { NoneEligible(); }
    for i := 0 to |history|
      invariant eligible == EligibleOf(history[..i])
    {
      var m := history[i];
      StripBlank(m.content);
      assert history[..i + 1] == history[..i] + [m];
      EligibleMore(history[..i], m);
      if m.active && m.complete && (m.role == User || m.role == Assistant) && Strip(m.content) != "" {
        eligible := eligible + [m];
      }
    }
    assert history[..|history|] == history;
  }

  lemma NoneEligible()
    ensures EligibleOf([]) == []
  {
  }

  function Chars(ms: seq<Message>): nat {
    if ms == [] then 0 else |ms[0].content| + Chars(ms[1..])
  }

  /** The characters of a history are those of the contents, joined. */
  lemma {:induction false} CharsAre(ms: seq<Message>, contents: seq<string>)
    requires |contents| == |ms| && forall k :: 0 <= k < |ms| ==> contents[k] == ms[k].content
    ensures Chars(ms) == |Concat(contents)|
    decreases |ms|
  {
    if ms != [] {
      CharsAre(ms[1..], contents[1..]);
      ConcatFirst(contents);
    }
  }

  /** The newest n messages. */
  function Newest(ms: seq<Message>, n: nat): seq<Message>
    requires n <= |ms|
  {
    ms[|ms| - n..]
  }

  lemma OneOlder(ms: seq<Message>, n: nat)
    requires n < |ms|
    ensures Newest(ms, n + 1) == [ms[|ms| - n - 1]] + Newest(ms, n)
    ensures Chars(Newest(ms, n + 1)) == |ms[|ms| - n - 1].content| + Chars(Newest(ms, n))
  {
    assert Newest(ms, n + 1)[1..] == Newest(ms, n);
  }

  /** Taking one more message than k is still within the history limits; the newest message
      is taken however long it is. */
  predicate HistoryAllows(ms: seq<Message>, k: nat, maxMessages: nat, maxChars: nat)
    requires k < |ms|
  {
    k < maxMessages && (k == 0 || Chars(Newest(ms, k + 1)) <= maxChars)
  }

  /** n is where the history limits stop the walk back from the newest message. */
  ghost predicate HistoryStop(ms: seq<Message>, n: nat, maxMessages: nat, maxChars: nat) {
    && n <= |ms|
    && (forall k :: 0 <= k < n ==> HistoryAllows(ms, k, maxMessages, maxChars))
    && (n < |ms| ==> !HistoryAllows(ms, n, maxMessages, maxChars))
  }

  method SelectHistory(eligible: seq<Message>, settings: Settings) returns (selected: seq<Message>, trimmed: bool)
    ensures |selected| <= |eligible| && selected == Newest(eligible, |selected|)
    ensures HistoryStop(eligible, |selected|, settings.maxHistoryMessages, settings.maxHistoryChars)
    ensures trimmed <==> |selected| < |eligible|
  {
    hide Chars;
    selected, trimmed := [], false;
    var historyChars := 0;
    NoChars();
    while |selected| < |eligible|
      invariant |selected| <= |eligible| && selected == Newest(eligible, |selected|)
      invariant historyChars == Chars(selected) && !trimmed
      invariant forall k :: 0 <= k < |selected| ==>
                  HistoryAllows(eligible, k, settings.maxHistoryMessages, settings.maxHistoryChars)
    {
      var message := eligible[|eligible| - |selected| - 1];
      OneOlder(eligible, |selected|);
      if |selected| >= settings.maxHistoryMessages {
        return selected, true;
      }
      if historyChars + |message.content| > settings.maxHistoryChars && selected != [] {
        return selected, true;
      }
      selected := [message] + selected;
      historyChars := historyChars + |message.content|;
    }
  }

  lemma NoChars()
    ensures Chars([]) == 0
  {
  }

  /** n is where the remaining room stops the walk. */
  ghost predicate RoomStop(ms: seq<Message>, n: nat, remaining: int) {
    && n <= |ms| && (n > 0 ==> Chars(Newest(ms, n)) <= remaining)
    && (n < |ms| ==> Chars(Newest(ms, n + 1)) > remaining)
  }

  method PackHistory(selected: seq<Message>, remaining: int) returns (packed: seq<Message>, trimmed: bool)
    ensures |packed| <= |selected| && packed == Newest(selected, |packed|)
    ensures RoomStop(selected, |packed|, remaining)
    ensures trimmed <==> |packed| < |selected|
  {
    hide Chars;
    packed, trimmed := [], false;
    var used := 0;
    NoChars();
    while |packed| < |selected|
      invariant |packed| <= |selected| && packed == Newest(selected, |packed|)
      invariant used == Chars(packed) && !trimmed
      invariant packed != [] ==> used <= remaining
    {
      var message := selected[|selected| - |packed| - 1];
      OneOlder(selected, |packed|);
      if used + |message.content| > remaining {
        return packed, true;
      }
      packed := [message] + packed;
      used := used + |message.content|;
    }
  }

  // --- Room ------------------------------------------------------------------------------

  /** What precedes the history: the summary as included, the passages, and the room left. */
  datatype Plan = Plan(summary: string, included: bool, rag: string, remaining: int)

  function Overhead(summary: string): nat {
    if summary == "" then 0 else |summary| + SUMMARY_OVERHEAD
  }

  /** The summary is dropped first, then the passages are cut. */
  function Reserve(
    settings: Settings, current: string, memory: string, rag: string, summary: string, included: bool): (p: Plan)
    ensures p.remaining == settings.maxContextChars - |current| - |memory| - |p.rag| - Overhead(p.summary)
    ensures p.rag <= rag && (p.summary == summary || p.summary == "") && (p.included ==> included)
    ensures p.summary != "" ==> p.included == included
    ensures p.remaining < 0 <==> |current| + |memory| > settings.maxContextChars
    ensures summary != "" ==>
              (p.summary == summary <==>
                 |current| + |memory| + |rag| + |summary| + 64 <= settings.maxContextChars)
    ensures p.rag == rag <==> rag == "" || |current| + |memory| + |rag| <= settings.maxContextChars
    ensures p.rag != rag ==> |p.rag| == Max(0, settings.maxContextChars - |current| - |memory| - 32)
    ensures p.included == (included && (summary == p.summary) &&
                           |current| + |memory| + |rag| + Overhead(summary) <= settings.maxContextChars)
  {
    var room := settings.maxContextChars - |current| - |memory|;
    if room - |rag| - Overhead(summary) >= 0 then
      Plan(summary, included, rag, room - |rag| - Overhead(summary))
    else if room - |rag| < 0 && rag != "" then
      var cut := rag[..Max(0, room - 32)];
      Plan("", false, cut, room - |cut|)
    else
      Plan("", false, rag, room - |rag|)
  }

  /** The same in the steps of the source. */
  method ReserveRoom(settings: Settings, current: string, memory: string, context: string, text: string, wanted: bool)
    returns (p: Plan)
    ensures p == Reserve(settings, current, memory, context, text, wanted)
  {
    var summary, included, rag := text, wanted, context;
    var remaining := settings.maxContextChars
                     - (|current| + |rag| + |memory| + (if summary != "" then |summary| + SUMMARY_OVERHEAD else 0));
    if remaining < 0 {
      summary, included := "", false;
      remaining := settings.maxContextChars - |current| - |rag| - |memory|;
      if remaining < 0 && rag != "" {
        rag := rag[..Min(|rag|, Max(0, settings.maxContextChars - |current| - |memory| - 32))];
        remaining := settings.maxContextChars - |current| - |rag| - |memory|;
      }
    }
    return Plan(summary, included, rag, remaining);
  }

  // --- The builder -----------------------------------------------------------------------

  function Replayed(ms: seq<Message>): seq<ChatMessage> {
    if ms == [] then [] else Replayed(ms[..|ms| - 1]) + [ChatMessage(ms[|ms| - 1].role, ms[|ms| - 1].content)]
  }

  /** Every message is replayed in its place, with its own role and content. */
  lemma {:induction false} ReplayedAre(ms: seq<Message>)
    ensures |Replayed(ms)| == |ms|
    ensures forall k :: 0 <= k < |ms| ==>
              Replayed(ms)[k].role == ms[k].role && Replayed(ms)[k].content == ms[k].content
    decreases |ms|
  {
    if ms != [] {
      ReplayedAre(ms[..|ms| - 1]);
    }
  }

  /** What precedes the history: the summary, announced by the user and acknowledged. */
  predicate Announced(summary: string, messages: seq<ChatMessage>) {
    if summary == "" then messages == []
    else
      && |messages| == 2
      && messages[0].role == User && messages[0].content == "Conversation summary so far:\n" + summary
      && messages[1].role == Assistant
      && messages[1].content == "Understood. I will use the summary for earlier context."
  }

  /** The question is the last message, behind the passages if there are any. */
  predicate Asked(rag: string, current: string, message: ChatMessage) {
    && message.role == User
    && message.content == if rag == "" then current else "Context:\n" + rag + "\n\nQuestion:\n" + current
  }

  /** The older messages were left out because the next one would break a limit. */
  ghost predicate Stopped(eligible: seq<Message>, n: nat, settings: Settings, remaining: int) {
    && n <= |eligible|
    && (n < |eligible| ==>
          || !HistoryAllows(eligible, n, settings.maxHistoryMessages, settings.maxHistoryChars)
          || Chars(Newest(eligible, n + 1)) > remaining)
  }

  lemma StopsTogether(eligible: seq<Message>, selected: seq<Message>, n: nat, settings: Settings, remaining: int)
    requires |selected| <= |eligible| && selected == Newest(eligible, |selected|)
    requires HistoryStop(eligible, |selected|, settings.maxHistoryMessages, settings.maxHistoryChars)
    requires RoomStop(selected, n, remaining)
    ensures Newest(selected, n) == Newest(eligible, n) && Stopped(eligible, n, settings, remaining)
    ensures forall k :: 0 <= k < n ==>
              HistoryAllows(eligible, k, settings.maxHistoryMessages, settings.maxHistoryChars)
  {
    hide Chars;
    if n < |selected| {
      assert Newest(selected, n + 1) == Newest(eligible, n + 1);
    }
  }

  /** The counted characters of a built context. */
  function Counted(current: string, memory: string, p: Plan, historyChars: nat): nat {
    |current| + |memory| + |p.rag| + Overhead(p.summary) + historyChars
  }

  /** The count fits the limit exactly when the question and the memory alone fit. */
  lemma CountFits(settings: Settings, current: string, memory: string, p: Plan, selected: seq<Message>, n: nat)
    requires p.remaining == settings.maxContextChars - |current| - |memory| - |p.rag| - Overhead(p.summary)
    requires p.remaining < 0 <==> |current| + |memory| > settings.maxContextChars
    requires RoomStop(selected, n, p.remaining)
    ensures Counted(current, memory, p, Chars(Newest(selected, n))) <= settings.maxContextChars
            <==> |current| + |memory| <= settings.maxContextChars
  {
    if n == 0 {
      assert Newest(selected, n) == [];
    }
  }

  method Replay(packed: seq<Message>) returns (replayed: seq<ChatMessage>)
    ensures replayed == Replayed(packed)
  {
    replayed := [];
    for i := 0 to |packed|
      invariant replayed == Replayed(packed[..i])
    {
      assert packed[..i + 1][..i] == packed[..i];
      replayed := replayed + [ChatMessage(packed[i].role, packed[i].content)];
    }
    assert packed[..|packed|] == packed;
  }

  function Memory(memoryContext: Option<string>): (r: string)
    ensures memoryContext == None ==> r == ""
    ensures memoryContext.Some? ==> r == Strip(memoryContext.value)
  {
    if memoryContext.Some? then Strip(memoryContext.value) else ""
  }

  /** The history limits alone already leave a message out. */
  ghost predicate HistoryCut(eligible: seq<Message>, settings: Settings) {
    !HistoryStop(eligible, |eligible|, settings.maxHistoryMessages, settings.maxHistoryChars)
  }

  lemma CutWhenShort(eligible: seq<Message>, n: nat, settings: Settings)
    requires HistoryStop(eligible, n, settings.maxHistoryMessages, settings.maxHistoryChars)
    ensures HistoryCut(eligible, settings) <==> n < |eligible|
  {
    hide HistoryAllows;
  }

  /** The summary is considered when it has text and the history limits cut the history. */
  predicate Summarised(summary: Option<string>, cut: bool) {
    cut && summary.Some? && !Blank(summary.value)
  }

  /** The summary that is considered, stripped and cut to its limit, or none. */
  predicate IsSummary(summary: Option<string>, cut: bool, summaryMax: nat, text: string) {
    if Summarised(summary, cut) then
      var full := Strip(summary.value);
      text <= full && |text| == if |full| <= summaryMax then |full| else summaryMax
    else text == ""
  }

  /** The history of a built context: a contiguous newest part of the eligible messages,
      replayed in order between the summary and the question, marked as trimmed exactly when
      something eligible is missing, and stopped only by a limit. */
  ghost predicate HistoryKept(eligible: seq<Message>, settings: Settings, p: Plan, built: Built, current: string) {
    var n := built.historyCount;
    && Stopped(eligible, n, settings, p.remaining)
    && (forall k :: 0 <= k < n ==> HistoryAllows(eligible, k, settings.maxHistoryMessages, settings.maxHistoryChars))
    && built.historyChars == Chars(Newest(eligible, n))
    && (built.trimmed <==> n < |eligible|)
    && exists first, last ::
         && Announced(p.summary, first) && Asked(p.rag, current, last)
         && built.messages == first + Replayed(Newest(eligible, n)) + [last]
  }

  /** The second half of the builder: the history that fits the room, and the messages. */
  method Assemble(
    settings: Settings, prompt: string, current: string, memory: string, p: Plan, ghost eligible: seq<Message>,
    selected: seq<Message>, shortened: bool)
    returns (built: Built)
    requires |selected| <= |eligible| && selected == Newest(eligible, |selected|)
    requires HistoryStop(eligible, |selected|, settings.maxHistoryMessages, settings.maxHistoryChars)
    requires shortened <==> |selected| < |eligible|
    requires p.remaining == settings.maxContextChars - |current| - |memory| - |p.rag| - Overhead(p.summary)
    requires p.remaining < 0 <==> |current| + |memory| > settings.maxContextChars
    ensures HistoryKept(eligible, settings, p, built, current)
    ensures built.ragChars == |p.rag| && built.memoryChars == |memory| && built.includedSummary == p.included
    ensures built.system == if memory == "" then prompt else prompt + "\n\n" + memory
    ensures shortened ==> built.trimmed
    ensures Counted(current, memory, p, built.historyChars) <= settings.maxContextChars
            <==> |current| + |memory| <= settings.maxContextChars
  {
    hide Chars, Counted, HistoryAllows, HistoryStop, Newest, RoomStop, Stopped;
    var packed, cut := PackHistory(selected, p.remaining);
    StopsTogether(eligible, selected, |packed|, settings, p.remaining);
    CountFits(settings, current, memory, p, selected, |packed|);
    var first: seq<ChatMessage> := [];
    if p.summary != "" {
      first := [ChatMessage(User, "Conversation summary so far:\n" + p.summary), ChatMessage(Assistant, ACKNOWLEDGED)];
    }
    var replayed := Replay(packed);
    var payload := current;
    if p.rag != "" {
      payload := "Context:\n" + p.rag + "\n\nQuestion:\n" + current;
    }
    var system := prompt;
    if memory != "" {
      system := prompt + "\n\n" + memory;
    }
    var last := ChatMessage(User, payload);
    built := Built(first + replayed + [last], system, |packed|, Chars(packed), |p.rag|, |memory|, p.included,
                   shortened || cut);
    assert Announced(p.summary, first) && Asked(p.rag, current, last);
    assert packed == Newest(eligible, |packed|);
  }

  /** `p` is the plan followed. */
  method Build(
    settings: Settings, prompt: string, question: string, history: seq<Message>, summary: Option<string>,
    retrieved: seq<Citations.Passage>, memoryContext: Option<string>)
    returns (built: Built, ghost p: Plan)
    ensures HistoryKept(EligibleOf(history), settings, p, built, Strip(question))
    ensures built.ragChars == |p.rag| && built.memoryChars == |Memory(memoryContext)|
    ensures var memory := Memory(memoryContext);
            built.system == if memory == "" then prompt else prompt + "\n\n" + memory
    ensures var cut := HistoryCut(EligibleOf(history), settings);
            exists text :: IsSummary(summary, cut, settings.summaryMax, text)
              && p == Reserve(settings, Strip(question), Memory(memoryContext),
                              Citations.RagContext(retrieved, settings.maxRagChars), text, Summarised(summary, cut))
    ensures built.includedSummary == p.included && (p.included ==> built.trimmed)
    ensures var counted := Counted(Strip(question), Memory(memoryContext), p, built.historyChars);
            && (counted <= settings.maxContextChars
                <==> |Strip(question)| + |Memory(memoryContext)| <= settings.maxContextChars)
  {
    hide Counted, EligibleOf, HistoryCut, HistoryKept, HistoryStop, Memory, Reserve, Strip;
    hide Citations.RagContext;
    var eligible := SelectEligible(history);
    var rag := Citations.BuildRagContext(retrieved, settings.maxRagChars);
    var memory := Memory(memoryContext);
    var current := Strip(question);
    var selected, shortened := SelectHistory(eligible, settings);
    CutWhenShort(eligible, |selected|, settings);
    var included, text := false, "";
    if summary.Some? && shortened {
      StripBlank(summary.value);
      included := Strip(summary.value) != "";
      if included {
        text := Strip(summary.value);
        text := text[..Min(|text|, settings.summaryMax)];
      }
    }
    assert IsSummary(summary, shortened, settings.summaryMax, text);
    var plan := ReserveRoom(settings, current, memory, rag, text, included);
    p := plan;
    built := Assemble(settings, prompt, current, memory, plan, eligible, selected, shortened);
  }
}
