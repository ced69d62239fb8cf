/** Qwen assistant turns: the batch parser, the streaming-tolerant parser, and the
    incremental parser that re-parses on every delta and reports the difference. */
module ChatParse {
  import opened Trimming
  import opened Strings
  import opened Wrappers
  import JsonText

  datatype ToolCall = ToolCall(id: string, name: string, arguments: string)

  datatype Parsed = Parsed(content: string, reasoning: Option<string>, calls: seq<ToolCall>)

  /** The structural markers. Proofs use only `TagsOk`, never the spelling. */
  datatype Tags = Tags(thinkOpen: string, thinkClose: string, callOpen: string, callClose: string)

  const QWEN: Tags := Tags("<think>", "</think>", "<tool_call>", "</tool_call>")

  predicate Named(g: Tags) {
    g.thinkOpen != "" && g.thinkClose != "" && g.callOpen != "" && g.callClose != ""
  }

  predicate TagsOk(g: Tags) {
    && IsMarker(g.thinkOpen) && IsMarker(g.thinkClose) && IsMarker(g.callOpen) && IsMarker(g.callClose)
    && Clash(g.thinkOpen, g.thinkClose) && Clash(g.thinkOpen, g.callOpen) && Clash(g.thinkOpen, g.callClose)
    && Clash(g.thinkClose, g.callOpen) && Clash(g.thinkClose, g.callClose) && Clash(g.callOpen, g.callClose)
  }

  /** Neither begins with the other. */
  predicate Clash(a: string, b: string) {
    exists i :: 0 <= i < |a| && i < |b| && a[i] != b[i]
  }

  lemma QwenTagsOk()
    ensures TagsOk(QWEN)
  {
    assert QWEN.thinkOpen[1] != QWEN.thinkClose[1];
    assert QWEN.thinkOpen[2] != QWEN.callOpen[2];
    assert QWEN.thinkOpen[1] != QWEN.callClose[1];
    assert QWEN.thinkClose[1] != QWEN.callOpen[1];
    assert QWEN.thinkClose[3] != QWEN.callClose[3];
    assert QWEN.callOpen[1] != QWEN.callClose[1];
  }

  /** What the JSON library decides about a string. */
  datatype JsonOps = JsonOps(isNumber: string -> bool, isValid: string -> bool)

  // ----- Tool calls -----

  function Coerce(j: JsonOps, value: string): string {
    var t := Trim(value);
    if t == "true" || t == "false" || t == "null" then t
    else if t != "" && j.isNumber(t) then t
    else if ((t != "" && t[0] == '{' && t[|t| - 1] == '}') || (t != "" && t[0] == '[' && t[|t| - 1] == ']')) && j.isValid(t) then t
    else "\"" + JsonText.Escape(value) + "\""
  }

  function Members(j: JsonOps, entries: seq<(string, string)>): string {
    if entries == [] then ""
    else
      var n := |entries| - 1;
      Members(j, entries[..n]) + (if n > 0 then "," else "")
      + "\"" + JsonText.Escape(entries[n].0) + "\":" + Coerce(j, entries[n].1)
  }

  function ParamsJson(j: JsonOps, entries: seq<(string, string)>): (r: string)
    ensures r != ""
  {
    "{" + Members(j, entries) + "}"
  }

  const PARAMETER := "<parameter="
  const PARAMETER_END := "</parameter>"
  const FUNCTION := "<function="
  const FUNCTION_END := "</function>"

  /** One parameter and what follows it, if the region still holds a complete one. */
  datatype Entry = NoEntry | Entry(key: string, value: string, rest: string)

  function NextEntry(cursor: string): (e: Entry)
    ensures e.Entry? ==> |e.rest| < |cursor|
  {
    var open := Find(cursor, PARAMETER);
    if open < 0 then NoEntry
    else
      var after := cursor[open + |PARAMETER|..];
      var gt := Find(after, ">");
      if gt < 0 then NoEntry
      else
        var region := after[gt + 1..];
        var close := Find(region, PARAMETER_END);
        if close < 0 then NoEntry
        else Entry(Trim(after[..gt]), Trim(region[..close]), region[close + |PARAMETER_END|..])
  }

  /** Entries with an empty key are dropped. */
  function AddEntry(entries: seq<(string, string)>, key: string, value: string): seq<(string, string)> {
    if key == "" then entries else entries + [(key, value)]
  }

  /** `entries` followed by the `(key, value)` pairs of a parameters region. */
  function Entries(cursor: string, entries: seq<(string, string)>): seq<(string, string)>
    decreases |cursor|
  {
    match NextEntry(cursor)
    case NoEntry => entries
    case Entry(key, value, rest) => Entries(rest, AddEntry(entries, key, value))
  }

  function Decimal(n: nat): string {
    (if n < 10 then "" else Decimal(n / 10)) + [['0', '1', '2', '3', '4', '5', '6', '7', '8', '9'][n % 10]]
  }

  /** The function name and the region holding its parameters. */
  function Header(body: string): Option<(string, string)> {
    var open := Find(body, FUNCTION);
    if open < 0 then None
    else
      var after := body[open + |FUNCTION|..];
      var gt := Find(after, ">");
      if gt < 0 then None
      else
        var name, region := Trim(after[..gt]), after[gt + 1..];
        var close := Find(region, FUNCTION_END);
        if name == "" then None else Some((name, if close < 0 then region else region[..close]))
  }

  function CallOf(j: JsonOps, body: string, index: nat): Option<ToolCall> {
    match Header(body)
    case None => None
    case Some((name, region)) =>
      Some(ToolCall("call_" + Decimal(index), name, ParamsJson(j, Entries(region, []))))
  }

  method ParseQwenToolCall(j: JsonOps, body: string, index: nat) returns (call: Option<ToolCall>)
    ensures call == CallOf(j, body, index)
  {
    var header := Header(body);
    if header.None? {
      return None;
    }
    var (name, region) := header.value;
    var entries := ParseEntries(region);
    return Some(ToolCall("call_" + Decimal(index), name, ParamsJson(j, entries)));
  }

  method ParseEntries(region: string) returns (entries: seq<(string, string)>)
    ensures entries == Entries(region, [])
  {
    entries := [];
    var cursor, next := region, NextEntry(region);
    while next.Entry?
      invariant next == NextEntry(cursor) && Entries(cursor, entries) == Entries(region, [])
      decreases |cursor|
    {
      entries, cursor := AddEntry(entries, next.key, next.value), next.rest;
      next := NextEntry(cursor);
    }
  }

  // ----- The two passes -----

  function AddThought(reasoning: string, body: string): string {
    if body == "" then reasoning
    else (if reasoning == "" then "" else reasoning + "\n") + body
  }

  /** The text before the next block, its body, and what follows it when it is closed. */
  datatype Block = NoBlock | Open(before: string, body: string) | Closed(before: string, body: string, rest: string)

  function NextBlock(cursor: string, open: string, close: string): (b: Block)
    requires open != ""
    ensures b.Closed? ==> |b.rest| < |cursor|
  {
    var at := Find(cursor, open);
    if at < 0 then NoBlock else BlockAfter(cursor[..at], cursor[at + |open|..], close)
  }

  function BlockAfter(before: string, after: string, close: string): (b: Block)
    ensures b.Closed? ==> |b.rest| <= |after|
  {
    var end := Find(after, close);
    if end < 0 then Open(before, after) else Closed(before, after[..end], after[end + |close|..])
  }

  /** Moves think blocks from the text to the reasoning; an open one runs to the end. */
  function ThinkPass(g: Tags, cursor: string, content: string, reasoning: string): (string, string)
    requires Named(g)
    decreases |cursor|
  {
    match NextBlock(cursor, g.thinkOpen, g.thinkClose)
    case NoBlock => (content + cursor, reasoning)
    case Open(before, body) => (content + before, AddThought(reasoning, Trim(body)))
    case Closed(before, body, rest) => ThinkPass(g, rest, content + before, AddThought(reasoning, Trim(body)))
  }

  function AddCall(j: JsonOps, calls: seq<ToolCall>, body: string): seq<ToolCall> {
    match CallOf(j, body, |calls|)
    case None => calls
    case Some(call) => calls + [call]
  }

  /** Moves closed tool calls from the text to the list; an open one is dropped. */
  function CallPass(g: Tags, j: JsonOps, cursor: string, clean: string, calls: seq<ToolCall>): (string, seq<ToolCall>)
    requires Named(g)
    decreases |cursor|
  {
    match NextBlock(cursor, g.callOpen, g.callClose)
    case NoBlock => (clean + cursor, calls)
    case Open(before, _) => (clean + before, calls)
    case Closed(before, body, rest) => CallPass(g, j, rest, clean + before, AddCall(j, calls, body))
  }

  function StripTags(g: Tags, s: string): string
    requires Named(g)
  {
    Remove(Remove(Remove(Remove(s, g.callOpen), g.callClose), g.thinkOpen), g.thinkClose)
  }

  // ----- Trailing partial markers -----

  /** The last `k` characters are a proper beginning of `m`. */
  predicate TailBegins(s: string, m: string, k: nat) {
    0 < k < |m| && k <= |s| && s[|s| - k..] == m[..k]
  }

  predicate TailPartial(g: Tags, s: string, k: nat) {
    || TailBegins(s, g.callOpen, k) || TailBegins(s, g.callClose, k)
    || TailBegins(s, g.thinkOpen, k) || TailBegins(s, g.thinkClose, k)
  }

  /** The longest partial marker of at most `k` characters at the end of `s`, or 0. */
  function LongestPartial(g: Tags, s: string, k: nat): (r: nat)
    ensures r <= k && (r > 0 ==> TailPartial(g, s, r))
    ensures forall i :: r < i <= k ==> !TailPartial(g, s, i)
  {
    if k == 0 || TailPartial(g, s, k) then k else LongestPartial(g, s, k - 1)
  }

  lemma LongestPartialIs(g: Tags, s: string, k: nat)
    requires k <= |s| && (k > 0 ==> TailPartial(g, s, k)) && forall i :: k < i <= |s| ==> !TailPartial(g, s, i)
    ensures LongestPartial(g, s, |s|) == k
  {
  }

  function TrimPartial(g: Tags, s: string): string {
    s[..|s| - LongestPartial(g, s, |s|)]
  }

  method TrimQwenPartialMarkerSuffix(g: Tags, s: string) returns (r: string)
    ensures r == TrimPartial(g, s)
  {
    var markers := [g.callOpen, g.callClose, g.thinkOpen, g.thinkClose];
    var maxTrim := 0;
    for at := 0 to |markers|
      invariant maxTrim <= |s| && (maxTrim > 0 ==> TailPartial(g, s, maxTrim))
      invariant forall i: nat, k: nat :: i < at && TailBegins(s, markers[i], k) ==> k <= maxTrim
    {
      var m := markers[at];
      var len := 1;
      while len < |m|
        invariant 1 <= len && maxTrim <= |s| && (maxTrim > 0 ==> TailPartial(g, s, maxTrim))
        invariant forall i: nat, k: nat :: i < at && TailBegins(s, markers[i], k) ==> k <= maxTrim
        invariant forall k: nat :: k < len && TailBegins(s, m, k) ==> k <= maxTrim
      {
        if len <= |s| && s[|s| - len..] == m[..len] && len > maxTrim {
          assert TailBegins(s, m, len);
          maxTrim := len;
        }
        len := len + 1;
      }
    }
    assert forall k: nat :: TailPartial(g, s, k) ==> k <= maxTrim by {
      forall k: nat | TailPartial(g, s, k) ensures k <= maxTrim {
        assert TailBegins(s, markers[0], k) || TailBegins(s, markers[1], k)
            || TailBegins(s, markers[2], k) || TailBegins(s, markers[3], k);
      }
    }
    LongestPartialIs(g, s, maxTrim);
    return s[..|s| - maxTrim];
  }

  // ----- The two parsers -----

  function NonEmpty(reasoning: string): Option<string> {
    if reasoning == "" then None else Some(reasoning)
  }

  /** What both parsers extract before trimming. */
  function Extracted(g: Tags, j: JsonOps, raw: string): Parsed
    requires Named(g)
  {
    var thought := ThinkPass(g, raw, "", "");
    var called := CallPass(g, j, thought.0, "", []);
    Parsed(StripTags(g, called.0), NonEmpty(thought.1), called.1)
  }

  function Batch(g: Tags, j: JsonOps, raw: string): Parsed
    requires Named(g)
  {
    var p := Extracted(g, j, raw);
    p.(content := Trim(p.content))
  }

  function Streaming(g: Tags, j: JsonOps, raw: string): Parsed
    requires Named(g)
  {
    var p := Extracted(g, j, raw);
    p.(content := TrimEnd(TrimPartial(g, p.content)))
  }

  method ExtractThoughts(g: Tags, raw: string) returns (content: string, reasoning: string)
    requires Named(g)
    ensures (content, reasoning) == ThinkPass(g, raw, "", "")
  {
    content, reasoning := "", "";
    var cursor := raw;
    var block := NextBlock(cursor, g.thinkOpen, g.thinkClose);
    while block.Closed?
      invariant block == NextBlock(cursor, g.thinkOpen, g.thinkClose)
      invariant ThinkPass(g, cursor, content, reasoning) == ThinkPass(g, raw, "", "")
      decreases |cursor|
    {
      content, reasoning := content + block.before, AddThought(reasoning, Trim(block.body));
      cursor := block.rest;
      block := NextBlock(cursor, g.thinkOpen, g.thinkClose);
    }
    if block.Open? {
      content, reasoning := content + block.before, AddThought(reasoning, Trim(block.body));
    } else {
      content := content + cursor;
    }
  }

  method ExtractCalls(g: Tags, j: JsonOps, content: string) returns (clean: string, calls: seq<ToolCall>)
    requires Named(g)
    ensures (clean, calls) == CallPass(g, j, content, "", [])
  {
    clean, calls := "", [];
    var cursor := content;
    var block := NextBlock(cursor, g.callOpen, g.callClose);
    while block.Closed?
      invariant block == NextBlock(cursor, g.callOpen, g.callClose)
      invariant CallPass(g, j, cursor, clean, calls) == CallPass(g, j, content, "", [])
      decreases |cursor|
    {
      clean := clean + block.before;
      var call := ParseQwenToolCall(j, block.body, |calls|);
      if call.Some? {
        calls := calls + [call.value];
      }
      cursor := block.rest;
      block := NextBlock(cursor, g.callOpen, g.callClose);
    }
    clean := clean + if block.Open? then block.before else cursor;
  }

  method ParseQwen(g: Tags, j: JsonOps, raw: string) returns (p: Parsed)
    requires Named(g)
    ensures p == Batch(g, j, raw)
  {
    var content, reasoning := ExtractThoughts(g, raw);
    var clean, calls := ExtractCalls(g, j, content);
    p := Parsed(Trim(StripTags(g, clean)), NonEmpty(reasoning), calls);
  }

  method ParseQwenStreaming(g: Tags, j: JsonOps, raw: string) returns (p: Parsed)
    requires Named(g)
    ensures p == Streaming(g, j, raw)
  {
    var content, reasoning := ExtractThoughts(g, raw);
    var clean, calls := ExtractCalls(g, j, content);
    var trimmed := TrimQwenPartialMarkerSuffix(g, StripTags(g, clean));
    p := Parsed(TrimEnd(trimmed), NonEmpty(reasoning), calls);
  }

  // ----- Events -----

  datatype Event =
    | Text(text: string)
    | Reasoning(text: string)
    | Begin(index: nat, id: string, name: string)
    | Args(index: nat, partial: string)
    | End(index: nat)

  function TextDelta(prev: string, cur: string): seq<Event> {
    if prev <= cur then (if cur == prev then [] else [Text(cur[|prev|..])])
    else [Text(cur)]
  }

  function ReasoningDelta(prev: Option<string>, cur: Option<string>): seq<Event> {
    if prev.None? && cur.Some? && cur.value != "" then [Reasoning(cur.value)]
    else if prev.Some? && cur.Some? && prev.value < cur.value then [Reasoning(cur.value[|prev.value|..])]
    else []
  }

  function CallDelta(prev: seq<ToolCall>, call: ToolCall, i: nat): seq<Event> {
    if i >= |prev| then [Begin(i, call.id, call.name)] + (if call.arguments == "" then [] else [Args(i, call.arguments)])
    else if prev[i].arguments < call.arguments then [Args(i, call.arguments[|prev[i].arguments|..])]
    else if call.arguments != prev[i].arguments then [Args(i, call.arguments)]
    else []
  }

  /** The deltas of the first `n` calls. */
  function CallDeltas(prev: seq<ToolCall>, cur: seq<ToolCall>, n: nat): seq<Event>
    requires n <= |cur|
  {
    if n == 0 then [] else CallDeltas(prev, cur, n - 1) + CallDelta(prev, cur[n - 1], n - 1)
  }

  function Ends(from: nat, to: nat): seq<Event>
    decreases to
  {
    if to <= from then [] else Ends(from, to - 1) + [End(to - 1)]
  }

  /** The incremental parser's state. */
  datatype Stream = Stream(accumulated: string, prev: Parsed, completed: nat)

  const FRESH: Stream := Stream("", Parsed("", None, []), 0)

  function Diff(prev: Parsed, completed: nat, cur: Parsed, closed: nat): seq<Event> {
    TextDelta(prev.content, cur.content) + ReasoningDelta(prev.reasoning, cur.reasoning)
    + CallDeltas(prev.calls, cur.calls, |cur.calls|) + Ends(completed, closed)
  }

  function Pushed(g: Tags, j: JsonOps, s: Stream, delta: string): (Stream, seq<Event>)
    requires Named(g)
  {
    if delta == "" then (s, [])
    else
      var raw := s.accumulated + delta;
      var cur, closed := Streaming(g, j, raw), Count(raw, g.callClose);
      (Stream(raw, cur, closed), Diff(s.prev, s.completed, cur, closed))
  }

  method EventsBetween(prev: Parsed, completed: nat, cur: Parsed, closed: nat) returns (events: seq<Event>)
    ensures events == Diff(prev, completed, cur, closed)
  {
    events := TextDelta(prev.content, cur.content) + ReasoningDelta(prev.reasoning, cur.reasoning);
    ghost var texts := events;
    for i := 0 to |cur.calls|
      invariant events == texts + CallDeltas(prev.calls, cur.calls, i)
    {
      events := events + CallDelta(prev.calls, cur.calls[i], i);
    }
    ghost var called := events;
    var i := completed;
    while i < closed
      invariant completed <= i && (i <= closed || i == completed)
      invariant events == called + Ends(completed, i)
    {
      events := events + [End(i)];
      i := i + 1;
    }
    assert Ends(completed, i) == Ends(completed, closed);
  }

  datatype Kind = NoParser | Qwen

  class StreamingParser {
    const kind: Kind
    const json: JsonOps
    var accumulated: string
    var prev: Parsed
    var prevCompleted: nat

    constructor (kind: Kind, json: JsonOps)
      ensures this.kind == kind && this.json == json && State() == FRESH
    {
      this.kind, this.json := kind, json;
      accumulated, prev, prevCompleted := "", Parsed("", None, []), 0;
    }

    function State(): Stream
      reads this
    {
      Stream(accumulated, prev, prevCompleted)
    }

    method Push(delta: string) returns (events: seq<Event>)
      modifies this
      ensures kind == NoParser ==> State() == old(State()) && events == if delta == "" then [] else [Text(delta)]
      ensures kind == Qwen ==> (State(), events) == Pushed(QWEN, json, old(State()), delta)
    {
      if kind == NoParser {
        return if delta == "" then [] else [Text(delta)];
      }
      if delta == "" {
        return [];
      }
      accumulated := accumulated + delta;
      var cur := ParseQwenStreaming(QWEN, json, accumulated);
      var closed := Count(accumulated, QWEN.callClose);
      events := EventsBetween(prev, prevCompleted, cur, closed);
      prev := cur;
      prevCompleted := closed;
    }
  }
}
