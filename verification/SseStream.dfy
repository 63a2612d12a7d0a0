/** The server-sent events of a chat turn: the server's encoding
    (backend/app/llm/schemas.py), the incremental parser of the client
    (frontend/services/conversations.ts) and the reducer that drives the callbacks
    (frontend/lib/useStream.ts). */
module SseStream {
  import opened Signals
  import opened Texts

  // --- The client's parser -----------------------------------------------------------------

  /** White space and line ends as `String.prototype.trim` knows them. */
  predicate IsJsSpace(c: char) {
    var n := c as int;
    || 0x09 <= n <= 0x0d || n == 0x20 || n == 0xa0 || n == 0x1680 || 0x2000 <= n <= 0x200a
    || n == 0x2028 || n == 0x2029 || n == 0x202f || n == 0x205f || n == 0x3000 || n == 0xfeff
  }

  lemma JsSpacesAre(c: char)
    ensures IsJsSpace(c) <==>
              c as int in {0x09, 0x0a, 0x0b, 0x0c, 0x0d, 0x20, 0xa0, 0x1680, 0x2000, 0x2001, 0x2002, 0x2003, 0x2004,
                           0x2005, 0x2006, 0x2007, 0x2008, 0x2009, 0x200a, 0x2028, 0x2029, 0x202f, 0x205f, 0x3000,
                           0xfeff}
  {
  }

  predicate JsBlank(s: string) {
    forall c :: c in s ==> IsJsSpace(c)
  }

  function JsTrimStart(s: string): (r: string)
    ensures |r| <= |s| && s[|s| - |r|..] == r && JsBlank(s[..|s| - |r|])
    ensures r != "" ==> !IsJsSpace(r[0])
  {
    if s != "" && IsJsSpace(s[0]) then
      var r := JsTrimStart(s[1..]);
      assert s[..|s| - |r|] == [s[0]] + s[1..][..|s| - 1 - |r|];
      r
    else s
  }

  function JsTrimEnd(s: string): (r: string)
    ensures r <= s && JsBlank(s[|r|..])
    ensures r != "" ==> !IsJsSpace(r[|r| - 1])
  {
    if s != "" && IsJsSpace(s[|s| - 1]) then
      var r := JsTrimEnd(s[..|s| - 1]);
      assert s[|r|..] == s[..|s| - 1][|r|..] + [s[|s| - 1]];
      r
    else s
  }

  function JsTrim(s: string): string {
    JsTrimEnd(JsTrimStart(s))
  }

  /** Trimming takes the blanks off both ends and nothing else. */
  lemma JsTrimIs(s: string) returns (front: string, back: string)
    ensures s == front + JsTrim(s) + back && JsBlank(front) && JsBlank(back)
    ensures JsTrim(s) != "" ==> !IsJsSpace(JsTrim(s)[0]) && !IsJsSpace(JsTrim(s)[|JsTrim(s)| - 1])
    ensures JsTrim(s) == "" <==> JsBlank(s)
  {
    hide IsJsSpace, JsTrimStart, JsTrimEnd, JsBlank;
    var left := JsTrimStart(s);
    var r := JsTrimEnd(left);
    front, back := s[..|s| - |left|], left[|r|..];
    assert left == r + back && s == front + left;
    if r == "" {
      assert left == back && s == front + back;
      BlanksJoin(front, back);
    } else {
      assert r[0] == left[0];
      HoldsSome(s, |front|);
    }
  }

  lemma BlanksJoin(a: string, b: string)
    requires JsBlank(a) && JsBlank(b)
    ensures JsBlank(a + b)
  {
  }

  lemma HoldsSome(s: string, k: nat)
    requires k < |s| && !IsJsSpace(s[k])
    ensures !JsBlank(s)
  {
    assert s[k] in s;
  }

  /** What an event carries, as far as the client looks into it; `nested` is the message of
      an `error` object. */
  datatype Data = Null | Record(content: Option<string>, nested: Option<string>, message: Option<string>)

  datatype Event = Event(name: string, data: Data)

  /** JSON.parse, of which nothing is assumed. */
  type Json = string -> Option<Data>

  const EVENT: string := "event: "
  const DATA: string := "data: "

  function LineEnd(s: string): (r: nat)
    ensures r <= |s| && (r < |s| ==> s[r] == '\n') && forall k :: 0 <= k < r ==> s[k] != '\n'
  {
    if s == "" || s[0] == '\n' then 0 else 1 + LineEnd(s[1..])
  }

  /** `split("\n")`. */
  function Lines(s: string): seq<string>
    decreases |s|
  {
    if LineEnd(s) == |s| then [s] else [s[..LineEnd(s)]] + Lines(s[LineEnd(s) + 1..])
  }

  datatype Fields = Fields(name: string, data: string)

  /** The last event line names the event; the data lines are joined. */
  function ReadLines(lines: seq<string>, f: Fields): Fields {
    if lines == [] then f else ReadLines(lines[1..], ReadLine(lines[0], f))
  }

  function ReadLine(line: string, f: Fields): Fields {
    if EVENT <= line then f.(name := JsTrim(line[|EVENT|..]))
    else if DATA <= line then f.(data := f.data + line[|DATA|..])
    else f
  }

  lemma {:induction false} LinesAre(s: string)
    ensures Lines(s) != [] && forall line :: line in Lines(s) ==> '\n' !in line
    ensures JoinLines(Lines(s)) == s
    decreases |s|
  {
    hide LineEnd;
    var end := LineEnd(s);
    if end < |s| {
      LinesAre(s[end + 1..]);
      assert s == s[..end] + "\n" + s[end + 1..];
      assert Lines(s)[1..] == Lines(s[end + 1..]);
    }
  }

  /** The lines with line feeds between them. */
  function JoinLines(lines: seq<string>): string
    requires lines != []
  {
    if |lines| == 1 then lines[0] else lines[0] + "\n" + JoinLines(lines[1..])
  }

  /** The data are the rests of all data lines, joined. */
  lemma {:induction false} DataIs(lines: seq<string>, f: Fields, rests: seq<string>)
    requires |rests| == |lines|
    requires forall i :: 0 <= i < |lines| ==> rests[i] == if "data: " <= lines[i] then lines[i][6..] else ""
    ensures ReadLines(lines, f).data == f.data + Concat(rests)
    decreases |lines|
  {
    hide ReadLine, Concat;
    if lines == [] {
      assert rests == [] && Concat(rests) == "" by { ConcatNothing(); }
    } else {
      LineIs(lines[0], f);
      DataIs(lines[1..], ReadLine(lines[0], f), rests[1..]);
      ConcatFirst(rests);
      Associates(f.data, rests[0], Concat(rests[1..]));
    }
  }

  lemma LineIs(line: string, f: Fields)
    ensures ReadLine(line, f).data == f.data + if "data: " <= line then line[6..] else ""
    ensures ReadLine(line, f).name == if "event: " <= line then JsTrim(line[7..]) else f.name
  {
    hide JsTrim;
    if EVENT <= line {
      assert line[0] == EVENT[0] == 'e';
    } else if DATA <= line {
      assert line[0] == DATA[0] == 'd';
    }
  }

  /** The name is the trimmed rest of the last event line; there is none without such a line. */
  lemma {:induction false} NameIs(lines: seq<string>, f: Fields)
    ensures forall i ::
              (0 <= i < |lines| && "event: " <= lines[i]
               && forall j :: i < j < |lines| ==> !("event: " <= lines[j])) ==>
                ReadLines(lines, f).name == JsTrim(lines[i][7..])
    ensures (forall i :: 0 <= i < |lines| ==> !("event: " <= lines[i])) ==> ReadLines(lines, f).name == f.name
    decreases |lines|
  {
    hide JsTrim, ReadLine;
    if lines != [] {
      LineIs(lines[0], f);
      NameIs(lines[1..], ReadLine(lines[0], f));
    }
  }

  lemma ConcatNothing()
    ensures Concat([]) == ""
  {
  }

  /** The event of a block, if it has a name and data that parses. */
  function EventOf(block: string, json: Json): seq<Event> {
    var f := ReadLines(Lines(block), Fields("", ""));
    if f.name == "" || f.data == "" then []
    else match json(f.data)
      case None => []
      case Some(data) => [Event(f.name, data)]
  }

  function EventsOf(blocks: seq<string>, json: Json): seq<Event> {
    if blocks == [] then [] else EventOf(blocks[0], json) + EventsOf(blocks[1..], json)
  }

  lemma EventsFirst(block: string, rest: seq<string>, json: Json)
    ensures EventsOf([block] + rest, json) == EventOf(block, json) + EventsOf(rest, json)
  {
    hide EventOf;
    assert ([block] + rest)[1..] == rest;
  }

  lemma Associates<T>(a: seq<T>, b: seq<T>, c: seq<T>)
    ensures a + (b + c) == (a + b) + c
  {
  }

  lemma {:induction false} EventsAppend(a: seq<string>, b: seq<string>, json: Json)
    ensures EventsOf(a + b, json) == EventsOf(a, json) + EventsOf(b, json)
  {
    hide EventOf;
    if a == [] {
      assert a + b == b;
    } else {
      hide EventsOf;
      EventsAppend(a[1..], b, json);
      EventsFirst(a[0], a[1..], json);
      EventsFirst(a[0], a[1..] + b, json);
      assert [a[0]] + a[1..] == a;
      Associates([a[0]], a[1..], b);
      Associates(EventOf(a[0], json), EventsOf(a[1..], json), EventsOf(b, json));
    }
  }

  /** Everything a text says: the events of its complete blocks. */
  function Parsed(text: string, json: Json): seq<Event> {
    EventsOf(Blocks(text).0, json)
  }

  class Parser {
    const json: Json
    var buffer: string
    var currentEvent: string

    constructor (json: Json)
      ensures this.json == json && buffer == "" && currentEvent == ""
    {
      this.json, buffer, currentEvent := json, "", "";
    }

    /** One read: the blocks it completes, and the unfinished rest kept for the next one. */
    method Feed(value: string) returns (events: seq<Event>)
      requires currentEvent == ""
      modifies this
      ensures currentEvent == ""
      ensures events == EventsOf(Blocks(old(buffer) + value).0, json) && buffer == Blocks(old(buffer) + value).1
    {
      hide Blocks, EventOf;
      var text := buffer + value;
      var blocks := Blocks(text).0;
      buffer := Blocks(text).1;
      events := [];
      for i := 0 to |blocks|
        invariant buffer == Blocks(text).1 && currentEvent == ""
        invariant events + EventsOf(blocks[i..], json) == EventsOf(blocks, json)
      {
        assert blocks[i..][1..] == blocks[i + 1..];
        var parsed := ParseBlock(blocks[i]);
        ghost var rest := EventsOf(blocks[i + 1..], json);
        assert events + (parsed + rest) == events + parsed + rest;
        events := events + parsed;
      }
      assert events + [] == events;
    }

    method ParseBlock(block: string) returns (parsed: seq<Event>)
      requires currentEvent == ""
      modifies `currentEvent
      ensures currentEvent == "" && parsed == EventOf(block, json)
    {
      var lines := Lines(block);
      var f := Fields(currentEvent, "");
      for i := 0 to |lines|
        invariant ReadLines(lines[i..], f) == ReadLines(lines, Fields("", ""))
      {
        assert lines[i..][1..] == lines[i + 1..];
        if EVENT <= lines[i] {
          f := f.(name := JsTrim(lines[i][|EVENT|..]));
        } else if DATA <= lines[i] {
          f := f.(data := f.data + lines[i][|DATA|..]);
        }
      }
      if f.name == "" || f.data == "" {
        return [];
      }
      var data := json(f.data);
      parsed := if data.Some? then [Event(f.name, data.value)] else [];
      currentEvent := "";
    }
  }

  /** However the text is cut into reads, the events are those of the whole text received. */
  method ParseStream(received: seq<string>, json: Json) returns (events: seq<Event>)
    ensures events == Parsed(Concat(received), json)
  {
    hide Blocks, EventsOf, Concat;
    var parser := new Parser(json);
    events := [];
    NothingRead(json);
    for i := 0 to |received|
      invariant parser.json == json && parser.currentEvent == ""
      invariant events == Parsed(Concat(received[..i]), json) && parser.buffer == Blocks(Concat(received[..i])).1
    {
      ghost var text := Concat(received[..i]);
      assert received[..i + 1] == received[..i] + [received[i]];
      ConcatMore(received[..i], received[i]);
      BlocksContinue(text, received[i]);
      EventsAppend(Blocks(text).0, Blocks(parser.buffer + received[i]).0, json);
      var more := parser.Feed(received[i]);
      events := events + more;
    }
    assert received[..|received|] == received;
  }

  lemma NothingRead(json: Json)
    ensures Concat([]) == "" && Parsed("", json) == [] && Blocks("").1 == ""
  {
  }

  /** A longer text only adds events. */
  lemma ParsedGrows(text: string, more: string, json: Json)
    ensures Parsed(text, json) <= Parsed(text + more, json)
  {
    hide Blocks, EventsOf;
    var rest := Blocks(text).1;
    BlocksContinue(text, more);
    EventsAppend(Blocks(text).0, Blocks(rest + more).0, json);
  }

  // --- The server's encoding -----------------------------------------------------------------

  /** An event as sent: its name and the text of its JSON payload. */
  datatype Sent = Sent(name: string, payload: string)

  function BlockOf(e: Sent): string {
    "event: " + e.name + "\n" + "data: " + e.payload
  }

  /** StreamEvent.to_sse, one after the other. */
  function Encode(es: seq<Sent>): string {
    if es == [] then "" else BlockOf(es[0]) + "\n\n" + Encode(es[1..])
  }

  predicate OneLine(s: string) {
    s != "" && forall k :: 0 <= k < |s| ==> s[k] != '\n'
  }

  /** Event names are plain words, and `json.dumps` writes one line that parses again. */
  ghost predicate Sendable(e: Sent, data: Data, json: Json) {
    OneLine(e.name) && JsTrim(e.name) == e.name && OneLine(e.payload) && json(e.payload) == Some(data)
  }

  lemma LinesOfBlock(e: Sent)
    requires OneLine(e.name) && OneLine(e.payload)
    ensures Lines(BlockOf(e)) == [EVENT + e.name, DATA + e.payload]
  {
    var first, second := EVENT + e.name, DATA + e.payload;
    var s := BlockOf(e);
    assert s == first + "\n" + second;
    assert s[|first|] == '\n' && forall k :: 0 <= k < |first| ==> s[k] == first[k];
    assert forall k :: 0 <= k < |first| ==> first[k] != '\n';
    assert LineEnd(s) == |first|;
    assert s[..|first|] == first && s[|first| + 1..] == second;
    assert forall k :: 0 <= k < |second| ==> second[k] != '\n';
    assert LineEnd(second) == |second|;
  }

  lemma EventOfBlock(e: Sent, data: Data, json: Json)
    requires Sendable(e, data, json)
    ensures EventOf(BlockOf(e), json) == [Event(e.name, data)]
  {
    hide Lines, JsTrim;
    LinesOfBlock(e);
    var first, second := EVENT + e.name, DATA + e.payload;
    assert EVENT <= first && first[|EVENT|..] == e.name;
    assert second[0] == 'd' && EVENT[0] == 'e' && DATA <= second && second[|DATA|..] == e.payload;
    var none: seq<string> := [];
    assert [first, second][1..] == [second] && [second][1..] == none;
    var named := Fields(e.name, "");
    assert ReadLines([first, second], Fields("", "")) == ReadLines([second], named);
    assert "" + e.payload == e.payload;
    assert ReadLines([second], named) == Fields(e.name, e.payload);
  }

  /** The first empty line of an encoded stream is the end of its first block. */
  lemma FirstBlock(e: Sent, rest: string)
    requires OneLine(e.name) && OneLine(e.payload)
    ensures FirstGap(BlockOf(e) + "\n\n" + rest, 0) == |BlockOf(e)|
  {
    hide FirstGap;
    var block := BlockOf(e);
    var first, second := EVENT + e.name, DATA + e.payload;
    var s := block + "\n\n" + rest;
    assert block == first + "\n" + second;
    forall k | 0 <= k < |block|
      ensures !GapAt(s, k)
    {
      assert s[k] == block[k];
      if k < |first| {
        assert block[k] == first[k];
      } else if k == |first| {
        assert s[k + 1] == second[0] == 'd';
      } else {
        assert block[k] == second[k - |first| - 1];
      }
    }
    assert GapAt(s, |block|);
  }

  lemma BlocksOfEncoded(e: Sent, rest: string)
    requires OneLine(e.name) && OneLine(e.payload)
    ensures Blocks(BlockOf(e) + "\n\n" + rest) == ([BlockOf(e)] + Blocks(rest).0, Blocks(rest).1)
  {
    hide BlockOf;
    FirstBlock(e, rest);
    var s := BlockOf(e) + "\n\n" + rest;
    assert s[..|BlockOf(e)|] == BlockOf(e) && s[|BlockOf(e)| + 2..] == rest;
  }

  function Received(es: seq<Sent>, data: seq<Data>): seq<Event>
    requires |es| == |data|
  {
    if es == [] then [] else [Event(es[0].name, data[0])] + Received(es[1..], data[1..])
  }

  /** What the server sends arrives: the client reads back exactly the events that were
      encoded, with nothing left over. */
  lemma {:induction false} RoundTrip(es: seq<Sent>, data: seq<Data>, json: Json)
    requires |es| == |data| && forall k :: 0 <= k < |es| ==> Sendable(es[k], data[k], json)
    ensures Parsed(Encode(es), json) == Received(es, data) && Blocks(Encode(es)).1 == ""
  {
    hide BlockOf, EventOf, Sendable;
    if es == [] {
      NothingRead(json);
    } else {
      IsSendable(es[0], data[0], json);
      BlocksOfEncoded(es[0], Encode(es[1..]));
      EventOfBlock(es[0], data[0], json);
      RoundTrip(es[1..], data[1..], json);
      var more := Blocks(Encode(es[1..])).0;
      assert ([BlockOf(es[0])] + more)[1..] == more;
    }
  }

  lemma IsSendable(e: Sent, data: Data, json: Json)
    requires Sendable(e, data, json)
    ensures OneLine(e.name) && OneLine(e.payload)
  {
  }

  // --- The reducer ---------------------------------------------------------------------------

  datatype Terminal = Open | Completed | Errored

  datatype State = Idle | Streaming | Done | Error

  datatype Callback =
    | OnStart | OnDelta(content: Option<string>) | OnCitation | OnProgress | OnMetadata
    | OnComplete | OnError(message: string) | OnTool(name: string) | OnMemory(name: string) | OnAgent(name: string)

  const FAILED: string := "Streaming failed"

  lemma MessagesTrim(data: Data)
    ensures data.Record? && data.nested.Some? ==> (JsTrim(data.nested.value) == "" <==> JsBlank(data.nested.value))
    ensures data.Record? && data.message.Some? ==> (JsTrim(data.message.value) == "" <==> JsBlank(data.message.value))
  {
    hide JsTrim, IsJsSpace;
    if data.Record? && data.nested.Some? {
      var a, b := JsTrimIs(data.nested.value);
    }
    if data.Record? && data.message.Some? {
      var a, b := JsTrimIs(data.message.value);
    }
  }

  /** The message of a failed turn: that of the `error` object, else that of the record, as
      long as it is not blank, else a stock phrase. */
  function ErrorMessage(data: Data): (r: string)
    ensures (data.Record? && data.nested.Some? && exists c :: c in data.nested.value && !IsJsSpace(c)) ==>
              r == data.nested.value
    ensures (data.Record? && (data.nested.None? || forall c :: c in data.nested.value ==> IsJsSpace(c))
             && data.message.Some? && exists c :: c in data.message.value && !IsJsSpace(c)) ==>
              r == data.message.value
    ensures (data.Record? ==>
               && (data.nested.None? || forall c :: c in data.nested.value ==> IsJsSpace(c))
               && (data.message.None? || forall c :: c in data.message.value ==> IsJsSpace(c))) ==>
              r == "Streaming failed"
  {
    MessagesTrim(data);
    match data
    case Null => FAILED
    case Record(_, nested, message) =>
      if nested.Some? && JsTrim(nested.value) != "" then nested.value
      else if message.Some? && JsTrim(message.value) != "" then message.value
      else FAILED
  }

  predicate Failure(e: Event) {
    e.name == "error" || e.name == "agent_failed"
  }

  const TOOL_EVENTS: set<string> :=
    {"tool_call_started", "tool_call_arguments", "tool_execution_started", "tool_execution_succeeded",
     "tool_execution_failed"}

  const MEMORY_EVENTS: set<string> :=
    {"memory_retrieval_started", "memory_retrieval_completed", "memory_candidate_proposed", "memory_saved",
     "memory_updated", "memory_archived", "memory_deleted", "memory_action_failed"}

  const AGENT_EVENTS: set<string> :=
    {"run_started", "complexity_classified", "planning_started", "plan_created", "safety_checked", "task_ready",
     "task_started", "task_completed", "task_failed", "task_skipped", "handoff", "approval_required",
     "approval_resolved", "run_cancelled", "run_completed", "run_failed", "run_timed_out"}

  predicate IsTerminal(c: Callback) {
    c.OnComplete? || c.OnError?
  }

  /** The callbacks that end a turn. */
  function Terminals(log: seq<Callback>): seq<Callback> {
    if log == [] then []
    else Terminals(log[..|log| - 1]) + if IsTerminal(log[|log| - 1]) then [log[|log| - 1]] else []
  }

  /** The answer text that was handed over. */
  function Shown(log: seq<Callback>): string {
    if log == [] then ""
    else
      Shown(log[..|log| - 1])
      + if log[|log| - 1].OnDelta? && log[|log| - 1].content.Some? then log[|log| - 1].content.value else ""
  }

  function DeltaText(e: Event): string {
    if e.name == "delta" && e.data.Record? && e.data.content.Some? then e.data.content.value else ""
  }

  /** The answer text that the events carry. */
  function Deltas(events: seq<Event>): string {
    if events == [] then "" else Deltas(events[..|events| - 1]) + DeltaText(events[|events| - 1])
  }

  /** How an event moves an undecided turn. */
  function Decide(t: Terminal, e: Event): Terminal {
    if t != Open then t
    else if e.name == "complete" then Completed
    else if Failure(e) then Errored
    else Open
  }

  /** The first event that ends the turn decides it. */
  function Verdict(events: seq<Event>): Terminal {
    if events == [] then Open else Decide(Verdict(events[..|events| - 1]), events[|events| - 1])
  }

  /** What an event makes the client report, given the verdict so far. */
  function Callbacks(t: Terminal, e: Event): seq<Callback> {
    if e.name == "start" then [OnStart]
    else if e.name == "delta" then (if e.data.Null? then [] else [OnDelta(e.data.content)])
    else if e.name == "citation" then [OnCitation]
    else if e.name == "progress" then [OnProgress]
    else if e.name == "metadata" then [OnMetadata]
    else if e.name == "complete" then (if t == Open then [OnComplete] else [])
    else if Failure(e) then (if t == Open then [OnError(ErrorMessage(e.data))] else [])
    else if e.name in TOOL_EVENTS then [OnTool(e.name)]
    else if e.name in MEMORY_EVENTS then [OnMemory(e.name)]
    else if e.name in AGENT_EVENTS then [OnAgent(e.name)]
    else []
  }

  /** What a stream of events makes the client report. */
  function Trace(events: seq<Event>): seq<Callback> {
    if events == [] then []
    else Trace(events[..|events| - 1]) + Callbacks(Verdict(events[..|events| - 1]), events[|events| - 1])
  }

  lemma EventsMore(events: seq<Event>, e: Event)
    ensures Deltas(events + [e]) == Deltas(events) + DeltaText(e)
    ensures Verdict(events + [e]) == Decide(Verdict(events), e)
    ensures Trace(events + [e]) == Trace(events) + Callbacks(Verdict(events), e)
  {
    hide Callbacks, DeltaText;
    assert (events + [e])[..|events|] == events;
  }

  lemma NoEvents()
    ensures Deltas([]) == "" && Verdict([]) == Open && Trace([]) == []
  {
  }

  lemma LogMore(log: seq<Callback>, c: Callback)
    ensures Terminals(log + [c]) == Terminals(log) + if IsTerminal(c) then [c] else []
    ensures Shown(log + [c]) == Shown(log) + if c.OnDelta? && c.content.Some? then c.content.value else ""
  {
    assert (log + [c])[..|log|] == log;
  }

  /** The terminal callbacks that go with a verdict. */
  predicate Announces(terminals: seq<Callback>, t: Terminal) {
    match t
    case Open => terminals == []
    case Completed => terminals == [OnComplete]
    case Errored => |terminals| == 1 && terminals[0].OnError?
  }

  lemma CallbacksStep(log: seq<Callback>, t: Terminal, e: Event)
    requires Announces(Terminals(log), t)
    ensures Announces(Terminals(log + Callbacks(t, e)), Decide(t, e))
    ensures Shown(log + Callbacks(t, e)) == Shown(log) + DeltaText(e)
  {
    hide Terminals, Shown, ErrorMessage;
    if Callbacks(t, e) == [] {
      assert log + Callbacks(t, e) == log;
    } else {
      LogMore(log, Callbacks(t, e)[0]);
      assert Callbacks(t, e) == [Callbacks(t, e)[0]];
    }
  }

  /** Whatever the events, in whatever order: at most one terminal callback, the one of the
      first terminal event, and exactly the text of the deltas. */
  lemma {:induction false} TraceOnce(events: seq<Event>)
    ensures Announces(Terminals(Trace(events)), Verdict(events)) && Shown(Trace(events)) == Deltas(events)
    decreases |events|
  {
    hide Announces, Callbacks, Decide, DeltaText;
    if events == [] {
      assert Announces(Terminals([]), Open) by { NothingAnnounced(); }
    } else {
      TraceOnce(events[..|events| - 1]);
      CallbacksStep(Trace(events[..|events| - 1]), Verdict(events[..|events| - 1]), events[|events| - 1]);
    }
  }

  lemma NothingAnnounced()
    ensures Announces(Terminals([]), Open)
  {
  }

  /** The state a decided turn shows. */
  function StateOf(t: Terminal): State {
    match t
    case Open => Streaming
    case Completed => Done
    case Errored => State.Error
  }

  /** The only way handling an event raises without a callback: a delta without data. */
  predicate Malformed(e: Event) {
    e.name == "delta" && e.data.Null?
  }

  class StreamRun {
    /** Whether the n-th callback throws, and whether the n-th check finds the signal aborted. */
    const throws: nat -> bool
    const aborted: nat -> bool
    var terminal: Terminal
    var state: State
    var log: seq<Callback>
    var checks: nat

    constructor (throws: nat -> bool, aborted: nat -> bool)
      ensures this.throws == throws && this.aborted == aborted
      ensures terminal == Open && state == Streaming && log == [] && checks == 0
    {
      this.throws, this.aborted := throws, aborted;
      terminal, state, log, checks := Open, Streaming, [], 0;
    }

    method Call(c: Callback) returns (threw: bool)
      modifies `log
      ensures log == old(log) + [c] && threw == throws(|old(log)|)
    {
      threw := throws(|log|);
      log := log + [c];
    }

    method Aborted() returns (yes: bool)
      modifies `checks
      ensures checks == old(checks) + 1 && yes == aborted(old(checks))
    {
      yes := aborted(checks);
      checks := checks + 1;
    }

    /** One event; `threw` when its handling raised, which a citation callback cannot do. */
    method Handle(e: Event) returns (threw: bool)
      requires state == StateOf(terminal)
      modifies `terminal, `state, `log
      ensures terminal == Decide(old(terminal), e) && log == old(log) + Callbacks(old(terminal), e)
      ensures !threw ==> state == StateOf(terminal)
      ensures (e.name == "error" || e.name == "agent_failed") && old(terminal) == Open ==>
                terminal == Errored && log == old(log) + [OnError(ErrorMessage(e.data))]
      ensures e.name == "complete" && old(terminal) == Open ==> terminal == Completed && log == old(log) + [OnComplete]
      ensures e.name !in {"complete", "error", "agent_failed"} ==> terminal == old(terminal)
      ensures threw <==> Malformed(e) || (e.name != "citation" && |log| > |old(log)| && throws(|old(log)|))
    {
      hide ErrorMessage, TOOL_EVENTS, MEMORY_EVENTS, AGENT_EVENTS;
      threw := false;
      if e.name == "start" {
        threw := Call(OnStart);
      } else if e.name == "delta" {
        if e.data.Null? {
          return true;
        }
        threw := Call(OnDelta(e.data.content));
      } else if e.name == "citation" {
        var ignored := Call(OnCitation);
      } else if e.name == "progress" {
        threw := Call(OnProgress);
      } else if e.name == "metadata" {
        threw := Call(OnMetadata);
      } else if e.name == "complete" {
        if terminal == Open {
          terminal := Completed;
          threw := Call(OnComplete);
          if !threw {
            state := Done;
          }
        }
      } else if e.name == "error" || e.name == "agent_failed" {
        if terminal == Open {
          terminal := Errored;
          threw := Call(OnError(ErrorMessage(e.data)));
          if !threw {
            state := State.Error;
          }
        }
      } else {
        threw := Forward(e);
      }
    }

    /** The events of tools, memory and agents go to the callbacks of their kind. */
    method Forward(e: Event) returns (threw: bool)
      modifies `log
      ensures log == old(log) + if e.name in TOOL_EVENTS then [OnTool(e.name)]
                                else if e.name in MEMORY_EVENTS then [OnMemory(e.name)]
                                else if e.name in AGENT_EVENTS then [OnAgent(e.name)] else []
      ensures threw <==> |log| > |old(log)| && throws(|old(log)|)
    {
      if e.name in {"tool_call_started", "tool_call_arguments", "tool_execution_started",
                    "tool_execution_succeeded", "tool_execution_failed"} {
        threw := Call(OnTool(e.name));
      } else if e.name in {"memory_retrieval_started", "memory_retrieval_completed", "memory_candidate_proposed",
                           "memory_saved", "memory_updated", "memory_archived", "memory_deleted",
                           "memory_action_failed"} {
        threw := Call(OnMemory(e.name));
      } else if e.name in {"run_started", "complexity_classified", "planning_started", "plan_created",
                           "safety_checked", "task_ready", "task_started", "task_completed", "task_failed",
                           "task_skipped", "handoff", "approval_required", "approval_resolved", "run_cancelled",
                           "run_completed", "run_failed", "run_timed_out"} {
        threw := Call(OnAgent(e.name));
      } else {
        threw := false;
      }
    }

    /** The handler of an exception: it reports an undecided turn as failed, unless it was
        aborted. `escaped` when the error callback itself throws. */
    method Recover(reason: string) returns (escaped: bool, reported: bool)
      modifies `terminal, `state, `log, `checks
      ensures reported <==> !aborted(old(checks)) && old(terminal) == Open
      ensures log == (if reported then old(log) + [OnError(reason)] else old(log))
      ensures terminal == if reported then Errored else old(terminal)
      ensures escaped <==> reported && throws(|old(log)|)
      ensures !escaped ==> state == if aborted(old(checks)) then Idle else StateOf(terminal)
    {
      reported := false;
      var stop := Aborted();
      if stop {
        state := Idle;
        return false, reported;
      }
      if terminal == Completed {
        state := Done;
        return false, reported;
      }
      if terminal != Errored {
        terminal := Errored;
        reported := true;
        escaped := Call(OnError(reason));
        if escaped {
          return;
        }
      }
      state := State.Error;
      return false, reported;
    }

    /** A whole run over the events of a stream that may break at its end. `taken` events
        are looked at; `reported` when an exception was turned into the error callback. */
    method Run(events: seq<Event>, breaks: bool, reason: string)
      returns (escaped: bool, reported: bool, ghost taken: nat)
      requires terminal == Open && log == [] && state == Streaming
      modifies this
      ensures taken <= |events|
      ensures log == Trace(events[..taken]) + if reported then [OnError(reason)] else []
      ensures reported ==> Verdict(events[..taken]) == Open
      ensures terminal == if reported then Errored else Verdict(events[..taken])
      ensures Announces(Terminals(log), terminal) && Shown(log) == Deltas(events[..taken])
      ensures !escaped ==>
                || state == Idle
                || (terminal == Completed && state == Done) || (terminal == Errored && state == State.Error)
      ensures escaped ==> exists n :: throws(n)
      ensures (forall n :: !throws(n) && !aborted(n)) && (forall e :: e in events ==> !Malformed(e)) ==>
                && taken == |events| && !escaped && (reported <==> breaks && Verdict(events) == Open)
                && (terminal == Open <==> state == Idle)
    {
      hide Announces, Callbacks, Decide, Deltas, Malformed, Shown, Terminals, Trace, Verdict;
      escaped, reported, taken := false, false, 0;
      var stopped := false;
      NoEvents();
      for i := 0 to |events|
        invariant taken == i && !escaped && !reported && !stopped
        invariant terminal == Verdict(events[..i]) && log == Trace(events[..i]) && state == StateOf(terminal)
      {
        stopped := Aborted();
        if stopped {
          break;
        }
        assert events[..i + 1] == events[..i] + [events[i]] && events[i] in events;
        EventsMore(events[..i], events[i]);
        var threw := Handle(events[i]);
        taken := i + 1;
        if threw {
          escaped, reported := Recover(reason);
          Reported(events[..taken], reason, reported);
          return;
        }
      }
      assert events[..|events|] == events;
      if !stopped && breaks {
        escaped, reported := Recover(reason);
        Reported(events[..taken], reason, reported);
        return;
      }
      if state == Streaming {
        state := Idle;
      }
      Reported(events[..taken], reason, false);
    }

    /** The error callback of the handler keeps the turn's report in order. */
    lemma Reported(events: seq<Event>, reason: string, reported: bool)
      requires reported ==> Verdict(events) == Open
      ensures var all := Trace(events) + if reported then [OnError(reason)] else [];
              && Announces(Terminals(all), if reported then Errored else Verdict(events))
              && Shown(all) == Deltas(events)
    {
      hide Deltas, Shown, Terminals, Trace, Verdict;
      TraceOnce(events);
      if reported {
        LogMore(Trace(events), OnError(reason));
        assert Shown(Trace(events)) + "" == Shown(Trace(events));
      } else {
        assert Trace(events) + [] == Trace(events);
      }
    }
  }

  /** From the server to the screen: however the encoded events are cut into reads, the
      client shows the text of all the deltas and reports the first verdict, once. */
  method Watch(
    received: seq<string>, ghost es: seq<Sent>, ghost data: seq<Data>, json: Json, run: StreamRun, reason: string)
    returns (escaped: bool)
    requires |es| == |data| && (forall k :: 0 <= k < |es| ==> Sendable(es[k], data[k], json))
    requires Concat(received) == Encode(es)
    requires run.terminal == Open && run.log == [] && run.state == Streaming
    modifies run
    ensures Announces(Terminals(run.log), run.terminal)
    ensures (forall n :: !run.throws(n) && !run.aborted(n))
            && (forall e :: e in Received(es, data) ==> !Malformed(e)) ==>
              && !escaped && run.log == Trace(Received(es, data)) && Shown(run.log) == Deltas(Received(es, data))
              && run.terminal == Verdict(Received(es, data))
  {
    hide Announces, Concat, Encode, Sendable, Parsed, Deltas, Malformed, Shown, Terminals, Trace, Verdict;
    RoundTrip(es, data, json);
    var events := ParseStream(received, json);
    var reported;
    ghost var taken;
    escaped, reported, taken := run.Run(events, false, reason);
    assert events[..|events|] == events;
    assert Trace(events) + [] == Trace(events);
  }
}
