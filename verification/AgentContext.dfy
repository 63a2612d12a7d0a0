/** Bounded context envelopes: backend/app/agents/context.py. */
module AgentContext {
  import opened Signals

  /** A value of an item dictionary: text is budgeted, anything else is carried along. */
  datatype Field = Text(text: string) | Opaque(tag: int)

  type Item = map<string, Field>
  type ChatEntry = map<string, string>

  datatype Limits = Limits(
    maxCharacters: nat, maxHistoryMessages: nat, maxMemoryItems: nat,
    maxDocumentPassages: nat, maxPriorTaskResults: nat)

  datatype Envelope = Envelope(
    userRequest: string, summary: Option<string>, history: seq<ChatEntry>,
    memory: seq<Item>, documents: seq<Item>, priorResults: seq<Item>, limits: Limits)

  const TEXT_KEYS := ["content", "summary", "text", "result_summary", "title"]

  function Truncate(text: string, limit: nat): (r: string)
    ensures |r| == Min(|text|, limit)
    ensures |text| <= limit ==> r == text
    ensures |text| > limit > 3 ==> r[..limit - 3] == text[..limit - 3] && r[limit - 3..] == "..."
    ensures |text| > limit && limit <= 3 ==> r == text[..limit]
  {
    if |text| <= limit then text
    else if limit <= 3 then text[..limit]
    else text[..limit - 3] + "..."
  }

  /** The slice `s[-n:]`: the last n elements, except that n = 0 keeps everything. */
  function LastN<T>(s: seq<T>, n: nat): seq<T> {
    if n == 0 || n >= |s| then s else s[|s| - n..]
  }

  function FirstN<T>(s: seq<T>, n: nat): seq<T> {
    if n >= |s| then s else s[..n]
  }

  /** The value an entry carries under a key, or the default. */
  function Get(entry: ChatEntry, key: string, default: string): string {
    if key in entry then entry[key] else default
  }

  function CutEntry(entry: ChatEntry, budget: nat): ChatEntry {
    map["role" := Get(entry, "role", "user"),
        "content" := Truncate(Get(entry, "content", ""), Min(1500, budget))]
  }

  /** The history that fits a budget, and what is left of it. */
  function CutHistory(history: seq<ChatEntry>, budget: nat): (r: (seq<ChatEntry>, nat)) {
    if history == [] || budget == 0 then ([], budget)
    else
      var entry := CutEntry(history[0], budget);
      var (rest, left) := CutHistory(history[1..], budget - |entry["content"]|);
      ([entry] + rest, left)
  }

  predicate HasText(item: Item, key: string) {
    key in item && item[key].Text?
  }

  function CutKeys(item: Item, keys: seq<string>, remaining: nat): (r: (Item, nat)) {
    if keys == [] then (item, remaining)
    else if HasText(item, keys[0]) then
      var v := Truncate(item[keys[0]].text, Min(2000, remaining));
      CutKeys(item[keys[0] := Text(v)], keys[1..], remaining - |v|)
    else CutKeys(item, keys[1..], remaining)
  }

  function CutItems(items: seq<Item>, remaining: nat): (r: (seq<Item>, nat)) {
    if items == [] || remaining == 0 then ([], remaining)
    else
      var (cut, left) := CutKeys(items[0], TEXT_KEYS, remaining);
      var (rest, last) := CutItems(items[1..], left);
      ([cut] + rest, last)
  }

  function KeyCount(item: Item, keys: seq<string>): nat {
    if keys == [] then 0
    else (if HasText(item, keys[0]) then |item[keys[0]].text| else 0) + KeyCount(item, keys[1..])
  }

  function ItemsCount(items: seq<Item>): nat {
    if items == [] then 0 else KeyCount(items[0], TEXT_KEYS) + ItemsCount(items[1..])
  }

  function HistoryCount(history: seq<ChatEntry>): nat {
    if history == [] then 0 else |Get(history[0], "content", "")| + HistoryCount(history[1..])
  }

  function SummaryCount(summary: Option<string>): nat {
    if summary.Some? then |summary.value| else 0
  }

  function Count(e: Envelope): nat {
    |e.userRequest| + SummaryCount(e.summary) + HistoryCount(e.history)
    + ItemsCount(e.memory) + ItemsCount(e.documents) + ItemsCount(e.priorResults)
  }

  /** The head of the envelope: request, summary and the budget left for the rest. */
  function CutHead(e: Envelope): (r: (string, Option<string>, nat)) {
    var max := e.limits.maxCharacters;
    var request := Truncate(e.userRequest, Min(8000, max / 4));
    var left := max - |request|;
    if e.summary.Some? && e.summary.value != "" then
      var s := Truncate(e.summary.value, Min(4000, left / 4));
      (request, Some(s), left - |s|)
    else (request, None, left)
  }

  /** What enforce_budgets returns. */
  function Enforced(e: Envelope): Envelope {
    var (request, summary, b0) := CutHead(e);
    var (history, b1) := CutHistory(LastN(e.history, e.limits.maxHistoryMessages), b0);
    var (memory, b2) := CutItems(FirstN(e.memory, e.limits.maxMemoryItems), b1);
    var (documents, b3) := CutItems(FirstN(e.documents, e.limits.maxDocumentPassages), b2);
    var (priors, _) := CutItems(LastN(e.priorResults, e.limits.maxPriorTaskResults), b3);
    Envelope(request, summary, history, memory, documents, priors, e.limits)
  }

  // --- What becomes of every text, stated without the functions above -------------------

  /** `r` is the text itself if that has at most `limit` characters. Otherwise it is as long
      as the limit, a beginning of the text with three dots if there is room for them. */
  predicate CutTo(text: string, limit: int, r: string) {
    if |text| <= limit then r == text
    else if limit <= 3 then |r| == Max(0, limit) && r <= text
    else |r| == limit && r[..limit - 3] <= text && r[limit - 3..] == "..."
  }

  const BUDGETED := ["content", "summary", "text", "result_summary", "title"]

  /** An item keeps every value, but its budgeted texts, in their order, are cut to 2000
      characters and to what the texts before them left. */
  ghost predicate ItemKept(given: Item, out: Item, room: int) {
    && out.Keys == given.Keys
    && (forall k :: 0 <= k < 5 ==> TextKept(given, out, k, room - KeyCount(out, BUDGETED[..k])))
    && (forall key :: key in given && (given[key].Opaque? || key !in BUDGETED) ==> out[key] == given[key])
  }

  predicate TextKept(given: Item, out: Item, k: nat, room: int)
    requires k < 5
  {
    var key := BUDGETED[k];
    key in given && given[key].Text? ==>
      && key in out && out[key].Text?
      && CutTo(given[key].text, Min(2000, room), out[key].text)
  }

  /** Items come in order, as many as there is a budget for. */
  ghost predicate ItemsKept(given: seq<Item>, out: seq<Item>, budget: int) {
    && |out| <= |given| && (|out| < |given| ==> ItemsCount(out) == budget)
    && (forall i :: 0 <= i < |out| ==>
          ItemsCount(out[..i]) < budget && ItemKept(given[i], out[i], budget - ItemsCount(out[..i])))
  }

  /** A message keeps its role, or gets the role of a user, and its content, cut to 1500
      characters and to what the messages before it left. */
  predicate MessageKept(given: ChatEntry, kept: ChatEntry, room: int) {
    && kept.Keys == {"role", "content"}
    && kept["role"] == (if "role" in given then given["role"] else "user")
    && CutTo(if "content" in given then given["content"] else "", Min(1500, room), kept["content"])
  }

  ghost predicate HistoryKept(given: seq<ChatEntry>, out: seq<ChatEntry>, budget: int) {
    && |out| <= |given| && (|out| < |given| ==> HistoryCount(out) == budget)
    && (forall i :: 0 <= i < |out| ==>
          HistoryCount(out[..i]) < budget && MessageKept(given[i], out[i], budget - HistoryCount(out[..i])))
  }

  /** Where the last n elements begin; the slice of the code begins at the front for n = 0. */
  function NewestFrom<T>(all: seq<T>, n: nat): (start: nat)
    ensures start <= |all|
  {
    if n == 0 then 0 else |all| - Min(n, |all|)
  }

  /** The enforced envelope, text by text. Each part has the characters the parts before it
      left: request, summary, the newest messages, the first memories and documents, and the
      newest results. */
  ghost predicate Honours(e: Envelope, r: Envelope) {
    var max, n := e.limits.maxCharacters, e.limits;
    var b0 := max - |r.userRequest| - SummaryCount(r.summary);
    var b1 := b0 - HistoryCount(r.history);
    var b2 := b1 - ItemsCount(r.memory);
    && r.limits == e.limits && CutTo(e.userRequest, Min(8000, max / 4), r.userRequest)
    && (if e.summary.None? || e.summary.value == "" then r.summary == None
        else
          && r.summary.Some?
          && CutTo(e.summary.value, Min(4000, (max - |r.userRequest|) / 4), r.summary.value))
    && HistoryKept(e.history[NewestFrom(e.history, n.maxHistoryMessages)..], r.history, b0)
    && ItemsKept(e.memory[..Min(n.maxMemoryItems, |e.memory|)], r.memory, b1)
    && ItemsKept(e.documents[..Min(n.maxDocumentPassages, |e.documents|)], r.documents, b2)
    && ItemsKept(e.priorResults[NewestFrom(e.priorResults, n.maxPriorTaskResults)..], r.priorResults,
                 b2 - ItemsCount(r.documents))
  }

  // --- The loops of the source -------------------------------------------------

  method TrimItems(items: seq<Item>, budget: nat) returns (out: seq<Item>, remaining: nat)
    ensures (out, remaining) == CutItems(items, budget)
  {
    out, remaining := [], budget;
    var i := 0;
    assert items[0..] == items;
    while i < |items|
      invariant i <= |items|
      invariant out + CutItems(items[i..], remaining).0 == CutItems(items, budget).0
      invariant CutItems(items[i..], remaining).1 == CutItems(items, budget).1
    {
      ghost var todo := CutItems(items[i..], remaining).0;
      if remaining == 0 {
        assert out + [] == out;
        return;
      }
      var cloned := items[i];
      ghost var start, item := remaining, cloned;
      var k := 0;
      while k < |TEXT_KEYS|
        invariant k <= |TEXT_KEYS|
        invariant CutKeys(cloned, TEXT_KEYS[k..], remaining) == CutKeys(item, TEXT_KEYS, start)
      {
        var key := TEXT_KEYS[k];
        assert TEXT_KEYS[k..][1..] == TEXT_KEYS[k + 1..];
        if HasText(cloned, key) {
          var v := Truncate(cloned[key].text, Min(2000, remaining));
          cloned := cloned[key := Text(v)];
          remaining := remaining - |v|;
        }
        k := k + 1;
      }
      assert items[i..][1..] == items[i + 1..];
      assert todo == [cloned] + CutItems(items[i + 1..], remaining).0;
      assert out + todo == out + [cloned] + CutItems(items[i + 1..], remaining).0;
      out := out + [cloned];
      i := i + 1;
    }
    assert out + [] == out;
  }

  lemma CutHistoryStep(history: seq<ChatEntry>, i: nat, remaining: nat)
    requires i < |history| && remaining > 0
    ensures var entry := CutEntry(history[i], remaining);
            && "content" in entry && |entry["content"]| <= remaining
            && var rest := CutHistory(history[i + 1..], remaining - |entry["content"]|);
               CutHistory(history[i..], remaining) == ([entry] + rest.0, rest.1)
  {
    hide Truncate;
    assert history[i..][1..] == history[i + 1..];
  }

  lemma CutHistoryDone(history: seq<ChatEntry>, remaining: nat)
    requires history == [] || remaining == 0
    ensures CutHistory(history, remaining) == ([], remaining)
  {
  }

  method TrimHistory(history: seq<ChatEntry>, budget: nat) returns (out: seq<ChatEntry>, remaining: nat)
    ensures (out, remaining) == CutHistory(history, budget)
  {
    hide CutHistory, CutEntry;
    out, remaining := [], budget;
    var i := 0;
    assert history[0..] == history;
    while i < |history| && remaining > 0
      invariant i <= |history|
      invariant out + CutHistory(history[i..], remaining).0 == CutHistory(history, budget).0
      invariant CutHistory(history[i..], remaining).1 == CutHistory(history, budget).1
    {
      CutHistoryStep(history, i, remaining);
      var entry := CutEntry(history[i], remaining);
      remaining := remaining - |entry["content"]|;
      ghost var rest := CutHistory(history[i + 1..], remaining).0;
      assert out + ([entry] + rest) == out + [entry] + rest;
      out := out + [entry];
      i := i + 1;
    }
    CutHistoryDone(history[i..], remaining);
    assert out + [] == out;
  }

  method EnforceBudgets(e: Envelope) returns (r: Envelope)
    ensures r == Enforced(e) && Honours(e, r)
  {
    hide CutHistory, CutItems, FirstN, LastN, Truncate, Honours;
    EnforcedHonours(e);
    var budget: nat := e.limits.maxCharacters;
    var request := Truncate(e.userRequest, Min(8000, budget / 4));
    budget := budget - |request|;
    var summary := None;
    if e.summary.Some? && e.summary.value != "" {
      summary := Some(Truncate(e.summary.value, Min(4000, budget / 4)));
      budget := budget - |summary.value|;
    }
    var history, memory, documents, priors, rest;
    history, budget := TrimHistory(LastN(e.history, e.limits.maxHistoryMessages), budget);
    memory, budget := TrimItems(FirstN(e.memory, e.limits.maxMemoryItems), budget);
    documents, budget := TrimItems(FirstN(e.documents, e.limits.maxDocumentPassages), budget);
    priors, rest := TrimItems(LastN(e.priorResults, e.limits.maxPriorTaskResults), budget);
    return Envelope(request, summary, history, memory, documents, priors, e.limits);
  }

  method CharacterCount(e: Envelope) returns (total: nat)
    ensures total == Count(e)
  {
    total := |e.userRequest|;
    if e.summary.Some? {
      total := total + |e.summary.value|;
    }
    var i := 0;
    ghost var base := total;
    while i < |e.history|
      invariant i <= |e.history|
      invariant total + HistoryCount(e.history[i..]) == base + HistoryCount(e.history)
    {
      assert e.history[i..][1..] == e.history[i + 1..];
      total := total + |Get(e.history[i], "content", "")|;
      i := i + 1;
    }
    var m := CountItems(e.memory);
    var d := CountItems(e.documents);
    var p := CountItems(e.priorResults);
    total := total + m + d + p;
  }

  method CountItems(items: seq<Item>) returns (total: nat)
    ensures total == ItemsCount(items)
  {
    total := 0;
    var i := 0;
    while i < |items|
      invariant i <= |items|
      invariant total + ItemsCount(items[i..]) == ItemsCount(items)
    {
      var k := 0;
      ghost var base := total;
      while k < |TEXT_KEYS|
        invariant k <= |TEXT_KEYS|
        invariant total + KeyCount(items[i], TEXT_KEYS[k..]) == base + KeyCount(items[i], TEXT_KEYS)
      {
        assert TEXT_KEYS[k..][1..] == TEXT_KEYS[k + 1..];
        if HasText(items[i], TEXT_KEYS[k]) {
          total := total + |items[i][TEXT_KEYS[k]].text|;
        }
        k := k + 1;
      }
      assert items[i..][1..] == items[i + 1..];
      i := i + 1;
    }
  }

  // --- Accounting: nothing is counted that was not paid for ---------------------

  predicate Distinct(keys: seq<string>) {
    forall i, j :: 0 <= i < j < |keys| ==> keys[i] != keys[j]
  }

  lemma {:induction false} CutKeysFrame(item: Item, keys: seq<string>, remaining: nat)
    ensures CutKeys(item, keys, remaining).0.Keys == item.Keys
    ensures forall k :: k in item && k !in keys ==> CutKeys(item, keys, remaining).0[k] == item[k]
    decreases |keys|
  {
    if keys != [] {
      if HasText(item, keys[0]) {
        var v := Truncate(item[keys[0]].text, Min(2000, remaining));
        CutKeysFrame(item[keys[0] := Text(v)], keys[1..], remaining - |v|);
      } else {
        CutKeysFrame(item, keys[1..], remaining);
      }
    }
  }

  lemma {:induction false} CutKeysPaid(item: Item, keys: seq<string>, remaining: nat)
    requires Distinct(keys)
    ensures var (cut, left) := CutKeys(item, keys, remaining);
            KeyCount(cut, keys) + left == remaining && CutKeys(cut, keys, remaining) == (cut, left)
    decreases |keys|
  {
    if keys != [] {
      var key := keys[0];
      assert key !in keys[1..];
      var item' := if HasText(item, key) then
                     item[key := Text(Truncate(item[key].text, Min(2000, remaining)))] else item;
      var left' := if HasText(item, key) then remaining - |item'[key].text| else remaining;
      CutKeysPaid(item', keys[1..], left');
      CutKeysFrame(item', keys[1..], left');
      var cut := CutKeys(item', keys[1..], left').0;
      assert key in item ==> cut[key] == item'[key];
      if HasText(item, key) {
        assert cut[key := Text(cut[key].text)] == cut;
      }
    }
  }

  lemma TextKeysDistinct()
    ensures Distinct(TEXT_KEYS)
  {
    assert |TEXT_KEYS[0]| == |TEXT_KEYS[1]| == 7 && TEXT_KEYS[0][0] != TEXT_KEYS[1][0];
    assert |TEXT_KEYS[2]| == 4 && |TEXT_KEYS[3]| == 14 && |TEXT_KEYS[4]| == 5;
  }

  lemma {:induction false} CutItemsPaid(items: seq<Item>, remaining: nat)
    ensures var (out, left) := CutItems(items, remaining);
            ItemsCount(out) + left == remaining && CutItems(out, remaining) == (out, left)
    decreases |items|
  {
    if items != [] && remaining != 0 {
      TextKeysDistinct();
      CutKeysPaid(items[0], TEXT_KEYS, remaining);
      var (cut, left) := CutKeys(items[0], TEXT_KEYS, remaining);
      CutItemsPaid(items[1..], left);
      var out := CutItems(items, remaining).0;
      assert out[1..] == CutItems(items[1..], left).0;
    }
  }

  lemma {:induction false} CutHistoryPaid(history: seq<ChatEntry>, budget: nat)
    ensures var (out, left) := CutHistory(history, budget);
            HistoryCount(out) + left == budget && CutHistory(out, budget) == (out, left)
    decreases |history|
  {
    if history != [] && budget != 0 {
      var entry := CutEntry(history[0], budget);
      assert CutEntry(entry, budget) == entry;
      CutHistoryPaid(history[1..], budget - |entry["content"]|);
      var out := CutHistory(history, budget).0;
      assert out[1..] == CutHistory(history[1..], budget - |entry["content"]|).0;
    }
  }

  /** The budget is a bound: an enforced envelope never counts more than its limit. */
  lemma EnforcedFits(e: Envelope)
    ensures Count(Enforced(e)) <= e.limits.maxCharacters
  {
    var (request, summary, b0) := CutHead(e);
    var (history, b1) := CutHistory(LastN(e.history, e.limits.maxHistoryMessages), b0);
    CutHistoryPaid(LastN(e.history, e.limits.maxHistoryMessages), b0);
    var (memory, b2) := CutItems(FirstN(e.memory, e.limits.maxMemoryItems), b1);
    CutItemsPaid(FirstN(e.memory, e.limits.maxMemoryItems), b1);
    var (documents, b3) := CutItems(FirstN(e.documents, e.limits.maxDocumentPassages), b2);
    CutItemsPaid(FirstN(e.documents, e.limits.maxDocumentPassages), b2);
    CutItemsPaid(LastN(e.priorResults, e.limits.maxPriorTaskResults), b3);
  }

  lemma {:induction false} CutItemsShrinks(items: seq<Item>, remaining: nat)
    ensures |CutItems(items, remaining).0| <= |items|
    ensures CutItems(items, remaining).0 == [] <==> items == [] || remaining == 0
    decreases |items|
  {
    if items != [] && remaining != 0 {
      CutItemsShrinks(items[1..], CutKeys(items[0], TEXT_KEYS, remaining).1);
    }
  }

  lemma {:induction false} CutHistoryShrinks(history: seq<ChatEntry>, budget: nat)
    ensures |CutHistory(history, budget).0| <= |history|
    ensures CutHistory(history, budget).0 == [] <==> history == [] || budget == 0
    decreases |history|
  {
    if history != [] && budget != 0 {
      CutHistoryShrinks(history[1..], budget - |CutEntry(history[0], budget)["content"]|);
    }
  }

  /** The summary is cut to nothing: fewer than four characters are left for it, and a quarter
      of them is none. */
  predicate SummaryLost(e: Envelope) {
    && e.summary.Some? && e.summary.value != ""
    && e.limits.maxCharacters - Min(|e.userRequest|, e.limits.maxCharacters / 4) < 4
  }

  lemma HeadStable(e: Envelope)
    requires !SummaryLost(e)
    ensures CutHead(Enforced(e)) == CutHead(e)
  {
    hide CutHistory, CutItems;
  }

  /** Enforcing twice is enforcing once, unless the summary was cut to nothing: the second
      pass then drops it. From five characters on that cannot happen. */
  lemma EnforcedIdempotent(e: Envelope)
    ensures Enforced(Enforced(e)) == Enforced(e) <==> !SummaryLost(e)
    ensures e.limits.maxCharacters >= 5 ==> !SummaryLost(e)
  {
    hide CutHistory, CutItems;
    if SummaryLost(e) {
      assert Enforced(e).summary == Some("") && Enforced(Enforced(e)).summary == None;
    } else {
      HeadStable(e);
      EnforcedStable(e);
    }
  }

  lemma EnforcedStable(e: Envelope)
    requires CutHead(Enforced(e)) == CutHead(e)
    ensures Enforced(Enforced(e)) == Enforced(e)
  {
    hide CutHistory, CutItems, CutHead;
    var (request, summary, b0) := CutHead(e);
    var h := LastN(e.history, e.limits.maxHistoryMessages);
    var (history, b1) := CutHistory(h, b0);
    CutHistoryPaid(h, b0);
    CutHistoryShrinks(h, b0);
    assert LastN(history, e.limits.maxHistoryMessages) == history;
    var m := FirstN(e.memory, e.limits.maxMemoryItems);
    var (memory, b2) := CutItems(m, b1);
    CutItemsPaid(m, b1);
    CutItemsShrinks(m, b1);
    assert FirstN(memory, e.limits.maxMemoryItems) == memory;
    var d := FirstN(e.documents, e.limits.maxDocumentPassages);
    var (documents, b3) := CutItems(d, b2);
    CutItemsPaid(d, b2);
    CutItemsShrinks(d, b2);
    assert FirstN(documents, e.limits.maxDocumentPassages) == documents;
    var p := LastN(e.priorResults, e.limits.maxPriorTaskResults);
    CutItemsPaid(p, b3);
    CutItemsShrinks(p, b3);
    assert LastN(CutItems(p, b3).0, e.limits.maxPriorTaskResults) == CutItems(p, b3).0;
  }

  /** The characters left when the earlier results have their turn. */
  function RoomForPriors(e: Envelope): nat {
    var (_, _, b0) := CutHead(e);
    var b1 := CutHistory(LastN(e.history, e.limits.maxHistoryMessages), b0).1;
    var b2 := CutItems(FirstN(e.memory, e.limits.maxMemoryItems), b1).1;
    CutItems(FirstN(e.documents, e.limits.maxDocumentPassages), b2).1
  }

  /** The item limits. Memory and documents always keep theirs. The slice `[-n:]` breaks the
      other two exactly when the limit is zero, there is something to keep, and characters
      are left to keep it with. */
  lemma EnforcedItemLimits(e: Envelope)
    ensures |Enforced(e).memory| <= e.limits.maxMemoryItems
    ensures |Enforced(e).documents| <= e.limits.maxDocumentPassages
    ensures |Enforced(e).history| <= e.limits.maxHistoryMessages
            <==> e.limits.maxHistoryMessages >= 1 || e.history == [] || e.limits.maxCharacters == 0
    ensures |Enforced(e).priorResults| <= e.limits.maxPriorTaskResults
            <==> e.limits.maxPriorTaskResults >= 1 || e.priorResults == [] || RoomForPriors(e) == 0
  {
    hide CutHistory, CutItems, CutHead;
    var (request, summary, b0) := CutHead(e);
    HeadLeaves(e);
    var h := LastN(e.history, e.limits.maxHistoryMessages);
    CutHistoryShrinks(h, b0);
    var b1 := CutHistory(h, b0).1;
    var m := FirstN(e.memory, e.limits.maxMemoryItems);
    CutItemsShrinks(m, b1);
    var b2 := CutItems(m, b1).1;
    var d := FirstN(e.documents, e.limits.maxDocumentPassages);
    CutItemsShrinks(d, b2);
    CutItemsShrinks(LastN(e.priorResults, e.limits.maxPriorTaskResults), CutItems(d, b2).1);
  }

  /** Request and summary never take everything. */
  lemma HeadLeaves(e: Envelope)
    ensures CutHead(e).2 == 0 <==> e.limits.maxCharacters == 0
  {
  }

  /** With a limit of zero the code keeps a message and an earlier result. */
  lemma ZeroLimitsKeep()
    ensures exists e: Envelope ::
              && e.limits.maxCharacters == 500
              && e.limits.maxHistoryMessages == 0 && |Enforced(e).history| > 0
              && e.limits.maxPriorTaskResults == 0 && |Enforced(e).priorResults| > 0
  {
    var entry: ChatEntry := map["role" := "user", "content" := "hi"];
    var item: Item := map["summary" := Text("done")];
    var e := Envelope("q", None, [entry], [], [], [item], Limits(500, 0, 5, 8, 0));
    var cut := CutEntry(entry, 499);
    assert CutHistory([entry], 499) == ([cut] + CutHistory([], 499 - |cut["content"]|).0,
                                        CutHistory([], 499 - |cut["content"]|).1);
    assert RoomForPriors(e) == 497 by {
      assert LastN([entry], 0) == [entry];
      assert |cut["content"]| == 2;
    }
    EnforcedItemLimits(e);
    assert e.limits.maxHistoryMessages == 0 && |Enforced(e).history| > 0;
  }

  /** With four characters in all, a second pass drops the summary that the first one cut. */
  lemma TinyLimitLosesSummary()
    ensures exists e: Envelope :: e.limits.maxCharacters == 4 && Enforced(Enforced(e)) != Enforced(e)
  {
    var e := Envelope("q", Some("s"), [], [], [], [], Limits(4, 1, 1, 1, 1));
    EnforcedIdempotent(e);
    assert e.limits.maxCharacters == 4 && SummaryLost(e);
  }

  /** What survives is a prefix of the given items in their order, each with the same
      keys and every field outside the budgeted texts untouched. */
  lemma {:induction false} CutItemsKeepsOrder(items: seq<Item>, remaining: nat, i: nat)
    requires i < |CutItems(items, remaining).0|
    ensures i < |items|
    ensures var cut := CutItems(items, remaining).0[i];
            && cut.Keys == items[i].Keys
            && (forall k :: k in cut && k !in TEXT_KEYS ==> cut[k] == items[i][k])
    decreases |items|
  {
    CutKeysFrame(items[0], TEXT_KEYS, remaining);
    if i > 0 {
      CutItemsKeepsOrder(items[1..], CutKeys(items[0], TEXT_KEYS, remaining).1, i - 1);
    }
  }

  // --- The functions above do this ------------------------------------------------------

  lemma {:induction false} KeysKept(item: Item, keys: seq<string>, remaining: nat, k: nat)
    requires Distinct(keys) && k < |keys| && keys[k] in item && item[keys[k]].Text?
    ensures var cut := CutKeys(item, keys, remaining).0;
            && keys[k] in cut && cut[keys[k]].Text?
            && CutTo(item[keys[k]].text, Min(2000, remaining - KeyCount(cut, keys[..k])), cut[keys[k]].text)
    decreases |keys|
  {
    hide Truncate, CutTo, KeyCount;
    var key, rest := keys[0], keys[1..];
    var text := HasText(item, key);
    if text {
      TruncateCuts(item[key].text, Min(2000, remaining));
    }
    var v := if text then Truncate(item[key].text, Min(2000, remaining)) else "";
    var item' := if text then item[key := Text(v)] else item;
    CutKeysFrame(item', rest, remaining - |v|);
    var cut := CutKeys(item', rest, remaining - |v|).0;
    KeyCountFirst(cut, keys, k);
    if k > 0 {
      KeysKept(item', rest, remaining - |v|, k - 1);
    }
  }

  lemma KeyCountFirst(item: Item, keys: seq<string>, k: nat)
    requires k < |keys|
    ensures KeyCount(item, keys[..k])
            == if k == 0 then 0
               else (if HasText(item, keys[0]) then |item[keys[0]].text| else 0) + KeyCount(item, keys[1..][..k - 1])
  {
    if k > 0 {
      assert keys[..k][1..] == keys[1..][..k - 1];
    }
  }

  /** Values that are no text stay. */
  lemma {:induction false} KeysOpaque(item: Item, keys: seq<string>, remaining: nat, key: string)
    requires key in item && item[key].Opaque?
    ensures var cut := CutKeys(item, keys, remaining).0;
            key in cut && cut[key] == item[key]
    decreases |keys|
  {
    if keys != [] {
      if HasText(item, keys[0]) {
        var v := Truncate(item[keys[0]].text, Min(2000, remaining));
        KeysOpaque(item[keys[0] := Text(v)], keys[1..], remaining - |v|, key);
      } else {
        KeysOpaque(item, keys[1..], remaining, key);
      }
    }
  }

  lemma KeysCut(item: Item, remaining: nat)
    ensures ItemKept(item, CutKeys(item, TEXT_KEYS, remaining).0, remaining)
  {
    hide CutKeys, CutTo, KeyCount;
    TextKeysDistinct();
    CutKeysFrame(item, TEXT_KEYS, remaining);
    var cut := CutKeys(item, TEXT_KEYS, remaining).0;
    assert TEXT_KEYS == BUDGETED;
    forall k | 0 <= k < 5
      ensures TextKept(item, cut, k, remaining - KeyCount(cut, BUDGETED[..k]))
    {
      if BUDGETED[k] in item && item[BUDGETED[k]].Text? {
        KeysKept(item, TEXT_KEYS, remaining, k);
      }
    }
    forall key | key in item && item[key].Opaque?
      ensures cut[key] == item[key]
    {
      KeysOpaque(item, TEXT_KEYS, remaining, key);
    }
  }

  /** One more item in front. */
  lemma ItemsKeptMore(given: seq<Item>, cut: Item, rest: seq<Item>, budget: int, left: int)
    requires given != [] && budget > 0 && left == budget - KeyCount(cut, TEXT_KEYS)
    requires ItemKept(given[0], cut, budget) && ItemsKept(given[1..], rest, left)
    ensures ItemsKept(given, [cut] + rest, budget)
  {
    hide ItemKept, KeyCount;
    var out := [cut] + rest;
    forall i | 0 < i <= |out|
      ensures ItemsCount(out[..i]) == budget - left + ItemsCount(rest[..i - 1])
    {
      assert out[..i][1..] == rest[..i - 1];
    }
    assert out[..|out|] == out && rest[..|rest|] == rest;
    forall i | 0 <= i < |out|
      ensures ItemsCount(out[..i]) < budget && ItemKept(given[i], out[i], budget - ItemsCount(out[..i]))
    {
      if i > 0 {
        assert given[1..][i - 1] == given[i] && rest[i - 1] == out[i];
      }
    }
  }

  lemma {:induction false} CutItemsKept(items: seq<Item>, remaining: nat)
    ensures ItemsKept(items, CutItems(items, remaining).0, remaining)
    decreases |items|
  {
    hide CutKeys, KeyCount, ItemsKept, ItemKept;
    if items != [] && remaining != 0 {
      KeysCut(items[0], remaining);
      TextKeysDistinct();
      CutKeysPaid(items[0], TEXT_KEYS, remaining);
      var (cut, left) := CutKeys(items[0], TEXT_KEYS, remaining);
      CutItemsKept(items[1..], left);
      ItemsKeptMore(items, cut, CutItems(items[1..], left).0, remaining, left);
    } else {
      NoItemsKept(items, remaining);
    }
  }

  lemma NoItemsKept(items: seq<Item>, remaining: nat)
    requires items == [] || remaining == 0
    ensures ItemsKept(items, [], remaining)
  {
  }

  lemma HistoryKeptMore(given: seq<ChatEntry>, entry: ChatEntry, rest: seq<ChatEntry>, budget: int)
    requires given != [] && budget > 0 && MessageKept(given[0], entry, budget) && "content" in entry
    requires HistoryKept(given[1..], rest, budget - |entry["content"]|)
    ensures HistoryKept(given, [entry] + rest, budget)
  {
    hide CutTo, MessageKept;
    var out := [entry] + rest;
    forall i | 0 < i <= |out|
      ensures HistoryCount(out[..i]) == |Get(entry, "content", "")| + HistoryCount(rest[..i - 1])
    {
      assert out[..i][1..] == rest[..i - 1];
    }
    assert Get(entry, "content", "") == entry["content"];
    assert out[..|out|] == out && rest[..|rest|] == rest;
    forall i | 0 <= i < |out|
      ensures HistoryCount(out[..i]) < budget && MessageKept(given[i], out[i], budget - HistoryCount(out[..i]))
    {
      if i > 0 {
        assert given[1..][i - 1] == given[i] && rest[i - 1] == out[i];
      }
    }
  }

  lemma {:induction false} CutHistoryKept(history: seq<ChatEntry>, budget: nat)
    ensures HistoryKept(history, CutHistory(history, budget).0, budget)
    decreases |history|
  {
    hide CutEntry, MessageKept, CutTo;
    if history != [] && budget != 0 {
      var entry := CutEntry(history[0], budget);
      MessageIsKept(history[0], budget);
      var left := budget - |entry["content"]|;
      CutHistoryKept(history[1..], left);
      HistoryKeptMore(history, entry, CutHistory(history[1..], left).0, budget);
    }
  }

  lemma MessageIsKept(message: ChatEntry, room: nat)
    ensures MessageKept(message, CutEntry(message, room), room)
    ensures "content" in CutEntry(message, room) && |CutEntry(message, room)["content"]| <= room
  {
  }

  lemma TruncateCuts(text: string, limit: nat)
    ensures CutTo(text, limit, Truncate(text, limit))
  {
  }

  lemma HeadCut(e: Envelope)
    ensures var (request, summary, left) := CutHead(e);
            var max := e.limits.maxCharacters;
            && CutTo(e.userRequest, Min(8000, max / 4), request)
            && (if e.summary.None? || e.summary.value == "" then summary == None
                else summary.Some? && CutTo(e.summary.value, Min(4000, (max - |request|) / 4), summary.value))
            && left == max - |request| - SummaryCount(summary)
  {
    hide Truncate, CutTo;
    var max := e.limits.maxCharacters;
    TruncateCuts(e.userRequest, Min(8000, max / 4));
    if e.summary.Some? {
      var request := Truncate(e.userRequest, Min(8000, max / 4));
      TruncateCuts(e.summary.value, Min(4000, (max - |request|) / 4));
    }
  }

  lemma EnforcedHonours(e: Envelope)
    ensures Honours(e, Enforced(e))
  {
    hide CutHistory, CutItems, ItemsKept, HistoryKept, CutHead, CutTo, ItemsCount, HistoryCount;
    HeadCut(e);
    var (request, summary, b0) := CutHead(e);
    var n := e.limits;
    var h := LastN(e.history, n.maxHistoryMessages);
    assert h == e.history[NewestFrom(e.history, n.maxHistoryMessages)..];
    var b1 := CutHistory(h, b0).1;
    CutHistoryPaid(h, b0);
    CutHistoryKept(h, b0);
    var m := FirstN(e.memory, n.maxMemoryItems);
    assert m == e.memory[..Min(n.maxMemoryItems, |e.memory|)];
    var b2 := CutItems(m, b1).1;
    CutItemsPaid(m, b1);
    CutItemsKept(m, b1);
    var d := FirstN(e.documents, n.maxDocumentPassages);
    assert d == e.documents[..Min(n.maxDocumentPassages, |e.documents|)];
    CutItemsPaid(d, b2);
    CutItemsKept(d, b2);
    var p := LastN(e.priorResults, n.maxPriorTaskResults);
    assert p == e.priorResults[NewestFrom(e.priorResults, n.maxPriorTaskResults)..];
    CutItemsKept(p, CutItems(d, b2).1);
  }

  // --- What fits is not cut --------------------------------------------------------------

  /** No budgeted text is longer than 2000 characters. */
  predicate Short(item: Item) {
    forall key :: key in item && key in BUDGETED && item[key].Text? ==> |item[key].text| <= 2000
  }

  lemma {:induction false} FittingKeysStay(item: Item, keys: seq<string>, remaining: nat)
    requires Short(item) && (forall key :: key in keys ==> key in BUDGETED) && KeyCount(item, keys) <= remaining
    ensures CutKeys(item, keys, remaining) == (item, remaining - KeyCount(item, keys))
    decreases |keys|
  {
    if keys != [] {
      var key := keys[0];
      assert key in keys;
      if HasText(item, key) {
        assert item[key := Text(item[key].text)] == item;
        FittingKeysStay(item, keys[1..], remaining - |item[key].text|);
      } else {
        FittingKeysStay(item, keys[1..], remaining);
      }
    }
  }

  /** When every budgeted text is short and all of them fit the budget, no item is changed, and
      whatever is left out has no text. */
  lemma {:induction false} FittingItemsStay(items: seq<Item>, remaining: nat)
    requires ItemsCount(items) <= remaining && forall i :: 0 <= i < |items| ==> Short(items[i])
    ensures var out := CutItems(items, remaining).0;
            |out| <= |items| && out == items[..|out|] && ItemsCount(items[|out|..]) == 0
    ensures ItemsCount(items) < remaining ==> CutItems(items, remaining).0 == items
    decreases |items|
  {
    hide CutKeys, KeyCount, Short;
    if items != [] && remaining != 0 {
      FittingKeysStay(items[0], TEXT_KEYS, remaining);
      var left := remaining - KeyCount(items[0], TEXT_KEYS);
      FittingItemsStay(items[1..], left);
      var out, rest := CutItems(items, remaining).0, CutItems(items[1..], left).0;
      assert out == [items[0]] + rest && items[|out|..] == items[1..][|rest|..];
    } else {
      assert items[0..] == items;
    }
  }

  /** A message of a role and a short content. */
  predicate Plain(m: ChatEntry) {
    m.Keys == {"role", "content"} && |m["content"]| <= 1500
  }

  lemma PlainFirst(history: seq<ChatEntry>, budget: nat) returns (left: nat)
    requires history != [] && budget > 0 && Plain(history[0]) && HistoryCount(history) <= budget
    ensures HistoryCount(history) - HistoryCount(history[1..]) == budget - left
    ensures CutHistory(history, budget)
            == ([history[0]] + CutHistory(history[1..], left).0, CutHistory(history[1..], left).1)
  {
    var m := history[0];
    assert CutEntry(m, budget) == m;
    left := budget - |m["content"]|;
  }

  /** The same for the history: short messages that fit keep their content and role. */
  lemma {:induction false} FittingHistoryStays(history: seq<ChatEntry>, budget: nat)
    requires HistoryCount(history) <= budget
    requires forall m :: m in history ==> Plain(m)
    ensures var out := CutHistory(history, budget).0;
            |out| <= |history| && out == history[..|out|] && HistoryCount(history[|out|..]) == 0
    ensures HistoryCount(history) < budget ==> CutHistory(history, budget).0 == history
    decreases |history|
  {
    hide CutHistory, Plain;
    if history != [] && budget != 0 {
      assert history[0] in history;
      var left := PlainFirst(history, budget);
      FittingHistoryStays(history[1..], left);
      var out, rest := CutHistory(history, budget).0, CutHistory(history[1..], left).0;
      assert out == [history[0]] + rest && history[|out|..] == history[1..][|rest|..];
    } else {
      CutHistoryDone(history, budget);
      assert history[0..] == history;
    }
  }

  /** An envelope within all its limits is returned as it is, up to an empty summary. */
  lemma FittingEnvelopeStays(e: Envelope)
    requires |e.userRequest| <= Min(8000, e.limits.maxCharacters / 4)
    requires SummaryCount(e.summary) <= Min(4000, (e.limits.maxCharacters - |e.userRequest|) / 4)
    requires |e.history| <= e.limits.maxHistoryMessages && |e.memory| <= e.limits.maxMemoryItems
    requires |e.documents| <= e.limits.maxDocumentPassages && |e.priorResults| <= e.limits.maxPriorTaskResults
    requires forall m :: m in e.history ==> Plain(m)
    requires forall item :: item in e.memory + e.documents + e.priorResults ==> Short(item)
    requires Count(e) < e.limits.maxCharacters
    ensures Enforced(e) == if e.summary == Some("") then e.(summary := None) else e
  {
    hide CutHistory, CutItems, ItemsCount, HistoryCount, Plain, Short;
    var b0 := e.limits.maxCharacters - |e.userRequest| - SummaryCount(e.summary);
    FittingHistoryStays(e.history, b0);
    CutHistoryPaid(e.history, b0);
    var b1 := b0 - HistoryCount(e.history);
    FittingItemsStay(e.memory, b1);
    CutItemsPaid(e.memory, b1);
    var b2 := b1 - ItemsCount(e.memory);
    FittingItemsStay(e.documents, b2);
    CutItemsPaid(e.documents, b2);
    FittingItemsStay(e.priorResults, b2 - ItemsCount(e.documents));
  }
}
