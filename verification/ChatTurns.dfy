/** A whole assistant turn, from what was said to what a reader of the events is told: no parser in
    between is mentioned. */
module ChatTurns {
  import opened Trimming
  import opened Strings
  import opened Wrappers
  import opened ChatParse
  import opened ChatMarkers
  import opened ChatTranscript
  import opened ChatStreaming
  import opened ChatCalls

  datatype Said = Words(text: string) | Thought(body: string) | Invoke(name: string, pairs: seq<(string, string)>)

  /** A call's text, between its markers, padded with `pad`. */
  function InvokeText(s: Said, pad: string): string
    requires s.Invoke?
  {
    CallText(pad, s.name, s.pairs, pad, FUNCTION_END + pad)
  }

  /** Words and thoughts hold no '<'; a call reads back, and holds no marker of the turn. */
  predicate GoodSaid(s: Said, pad: string) {
    match s
    case Words(text) => Plain(text)
    case Thought(body) => Plain(body)
    case Invoke(name, pairs) =>
      GoodName(name) && GoodPairs(pairs)
      && Find(InvokeText(s, pad), "<think>") < 0 && Find(InvokeText(s, pad), "</tool_call>") < 0
  }

  predicate GoodTurn(said: seq<Said>, pad: string) {
    Blank(pad) && forall s :: s in said ==> GoodSaid(s, pad)
  }

  /** The turn as the model emits it. */
  function TurnText(said: seq<Said>, pad: string): string {
    if said == [] then ""
    else
      (match said[0]
       case Words(text) => text
       case Thought(body) => "<think>" + body + "</think>"
       case Invoke(_, _) => "<tool_call>" + InvokeText(said[0], pad) + "</tool_call>")
      + TurnText(said[1..], pad)
  }

  // ----- What was said -----

  function AllWords(said: seq<Said>): string {
    if said == [] then "" else (if said[0].Words? then said[0].text else "") + AllWords(said[1..])
  }

  /** The thoughts, trimmed, but for blank ones. */
  function Thoughts(said: seq<Said>): seq<string> {
    if said == [] then []
    else (if said[0].Thought? && Trim(said[0].body) != "" then [Trim(said[0].body)] else []) + Thoughts(said[1..])
  }

  function Lines(items: seq<string>): string {
    if items == [] then "" else if |items| == 1 then items[0] else items[0] + "\n" + Lines(items[1..])
  }

  /** The calls made, numbered from `k` on. */
  function Calls(j: JsonOps, said: seq<Said>, k: nat): seq<ToolCall> {
    if said == [] then []
    else if said[0].Invoke? then
      [ToolCall("call_" + Decimal(k), said[0].name, ObjectText(j, said[0].pairs))] + Calls(j, said[1..], k + 1)
    else Calls(j, said[1..], k)
  }

  // ----- As a transcript -----

  function PieceOf(s: Said, pad: string): Piece {
    match s
    case Words(text) => Prose(text)
    case Thought(body) => Think(body)
    case Invoke(_, _) => Call(InvokeText(s, pad))
  }

  function Pieces(said: seq<Said>, pad: string): (ps: seq<Piece>)
    ensures |ps| == |said|
  {
    seq(|said|, i requires 0 <= i < |said| => PieceOf(said[i], pad))
  }

  lemma InvokeParses(j: JsonOps, s: Said, pad: string, index: nat)
    requires s.Invoke? && Blank(pad) && GoodSaid(s, pad)
    ensures CallOf(j, InvokeText(s, pad), index) == Some(ToolCall("call_" + Decimal(index), s.name, ObjectText(j, s.pairs)))
  {
    BlankIsPlain(pad);
    CallParses(j, pad, s.name, s.pairs, pad, FUNCTION_END + pad, index);
  }

  lemma PiecesAreGood(j: JsonOps, said: seq<Said>, pad: string)
    requires GoodTurn(said, pad)
    ensures AllGood(QWEN, Pieces(said, pad))
  {
    var ps := Pieces(said, pad);
    forall p | p in ps ensures Good(QWEN, p) {
      var i :| 0 <= i < |ps| && ps[i] == p;
      PieceIsGood(j, said[i], pad);
    }
  }

  lemma PieceIsGood(j: JsonOps, s: Said, pad: string)
    requires Blank(pad) && GoodSaid(s, pad)
    ensures Good(QWEN, PieceOf(s, pad))
  {
    if s.Invoke? {
      InvokeParses(j, s, pad, 0);
    }
  }

  lemma {:induction false} RenderIsText(said: seq<Said>, pad: string, i: nat)
    requires i <= |said|
    ensures Render(QWEN, Pieces(said, pad), i) == TurnText(said[i..], pad)
    decreases |said| - i
  {
    hide InvokeText;
    if i < |said| {
      RenderIsText(said, pad, i + 1);
      assert said[i..][0] == said[i] && said[i..][1..] == said[i + 1..];
    }
  }

  // ----- What the passes report is what was said -----

  lemma {:induction false} ProseIsWords(said: seq<Said>, pad: string, i: nat)
    requires i <= |said|
    ensures var ps := Pieces(said, pad);
      ProseOf(QWEN, ps, i, |Render(QWEN, ps, i)|) == AllWords(said[i..])
    decreases |said| - i
  {
    hide InvokeText;
    if i < |said| {
      ProseIsWords(said, pad, i + 1);
      assert said[i..][0] == said[i] && said[i..][1..] == said[i + 1..];
    }
  }

  function Buffered(buf: string): seq<string> {
    if buf == "" then [] else [buf]
  }

  /** A thought joins the lines before it. */
  lemma ThoughtAdded(buf: string, t: string, rest: seq<string>)
    ensures Lines(Buffered(AddThought(buf, t)) + rest) == Lines(Buffered(buf) + ((if t == "" then [] else [t]) + rest))
  {
    hide Lines;
    if t == "" {
      assert [] + rest == rest;
    } else if buf == "" {
      assert "" + t == t && [] + ([t] + rest) == [t] + rest;
    } else {
      TwoLines(buf, t, rest);
      assert AddThought(buf, t) == buf + "\n" + t;
      assert [buf] + ([t] + rest) == [buf, t] + rest;
    }
  }

  lemma TwoLines(a: string, b: string, rest: seq<string>)
    ensures Lines([a + "\n" + b] + rest) == Lines([a, b] + rest)
  {
    var joined, apart := [a + "\n" + b] + rest, [a, b] + rest;
    assert apart[1..] == [b] + rest && apart[1..][1..] == rest && joined[1..] == rest;
    if rest != [] {
      assert a + "\n" + b + "\n" + Lines(rest) == a + "\n" + (b + "\n" + Lines(rest));
    }
  }

  lemma {:induction false} ReasonedIsLines(said: seq<Said>, pad: string, i: nat, buf: string)
    requires i <= |said|
    ensures var ps := Pieces(said, pad);
      Reasoned(QWEN, ps, i, |Render(QWEN, ps, i)|, buf) == Lines(Buffered(buf) + Thoughts(said[i..]))
    decreases |said| - i
  {
    hide InvokeText;
    hide Trim;
    hide AddThought;
    hide Lines;
    if i < |said| {
      var rest := said[i + 1..];
      assert said[i..][0] == said[i] && said[i..][1..] == rest;
      ReasonedIsLines(said, pad, i + 1, ReasonedFull(PieceOf(said[i], pad), buf));
      if said[i].Thought? {
        ThoughtAdded(buf, Trim(said[i].body), Thoughts(rest));
      } else {
        assert [] + Thoughts(rest) == Thoughts(rest);
      }
    } else {
      OneLine(buf);
      assert said[i..] == [] && Buffered(buf) + [] == Buffered(buf);
    }
  }

  lemma OneLine(buf: string)
    ensures Lines(Buffered(buf)) == buf
  {
  }

  lemma {:induction false} CalledIsCalls(j: JsonOps, said: seq<Said>, pad: string, i: nat, calls: seq<ToolCall>)
    requires i <= |said| && GoodTurn(said, pad)
    ensures var ps := Pieces(said, pad);
      Called(QWEN, j, ps, i, |Render(QWEN, ps, i)|, calls) == calls + Calls(j, said[i..], |calls|)
    decreases |said| - i
  {
    hide InvokeText;
    hide CallOf;
    hide ObjectText;
    hide Decimal;
    hide GoodSaid;
    if i < |said| {
      var rest := said[i + 1..];
      assert said[i..][0] == said[i] && said[i..][1..] == rest;
      if said[i].Invoke? {
        InvokeParses(j, said[i], pad, |calls|);
        var call := ToolCall("call_" + Decimal(|calls|), said[i].name, ObjectText(j, said[i].pairs));
        CalledIsCalls(j, said, pad, i + 1, calls + [call]);
        assert calls + [call] + Calls(j, rest, |calls| + 1) == calls + ([call] + Calls(j, rest, |calls| + 1));
      } else {
        CalledIsCalls(j, said, pad, i + 1, calls);
      }
    }
  }

  // ----- Main results -----

  lemma BatchOfTurn(j: JsonOps, said: seq<Said>, pad: string)
    requires GoodTurn(said, pad)
    ensures Batch(QWEN, j, TurnText(said, pad))
         == Parsed(Trim(AllWords(said)), NonEmpty(Lines(Thoughts(said))), Calls(j, said, 0))
  {
    hide InvokeText;
    var ps := Pieces(said, pad);
    QwenTagsOk();
    PiecesAreGood(j, said, pad);
    BatchSees(QWEN, j, ps);
    assert said[0..] == said;
    RenderIsText(said, pad, 0);
    ProseIsWords(said, pad, 0);
    ReasonedIsLines(said, pad, 0, "");
    assert [] + Thoughts(said) == Thoughts(said);
    CalledIsCalls(j, said, pad, 0, []);
    assert [] + Calls(j, said, 0) == Calls(j, said, 0);
  }

  /** The batch parser on a turn: the words, trimmed; the thoughts, one a line; and the calls, in
      order, each with its number, its name and its arguments as a JSON object. */
  method ReadTurn(j: JsonOps, said: seq<Said>, pad: string) returns (p: Parsed)
    requires GoodTurn(said, pad)
    ensures p.content == Trim(AllWords(said))
    ensures p.reasoning == if Thoughts(said) == [] then None else Some(Lines(Thoughts(said)))
    ensures p.calls == Calls(j, said, 0)
  {
    p := ParseQwen(QWEN, j, TurnText(said, pad));
    BatchOfTurn(j, said, pad);
    LinesOfThoughts(said);
  }

  lemma {:induction false} LinesOfThoughts(said: seq<Said>)
    ensures Lines(Thoughts(said)) == "" <==> Thoughts(said) == []
  {
    hide Trim;
    if said != [] {
      LinesOfThoughts(said[1..]);
    }
  }

  /** The same turn fed in chunks, none ending inside a `</think>`: the events tell the words but for
      leading and trailing spaces, the thoughts, and each call as a beginning, its arguments and an
      end. */
  lemma TurnStreams(j: JsonOps, said: seq<Said>, pad: string, chunks: seq<string>)
    requires GoodTurn(said, pad) && Joined(chunks) == TurnText(said, pad) && CutsWhole(QWEN, Pieces(said, pad), chunks)
    ensures
      var events, calls := Feed(QWEN, j, chunks).1, Calls(j, said, 0);
      && Trim(TextOf(events)) == Trim(AllWords(said)) && ReasoningOf(events) == Lines(Thoughts(said))
      && Begun(events) == Upto(|calls|)
      && forall i: nat :: CallEvents(events, i) ==
           if i < |calls| then [Begin(i, calls[i].id, calls[i].name), Args(i, calls[i].arguments), End(i)] else []
  {
    assert Named(QWEN);
    hide *;
    QwenTagsOk();
    PiecesAreGood(j, said, pad);
    RenderIsText(said, pad, 0);
    assert said[0..] == said;
    StreamingEqualsBatch(QWEN, j, Pieces(said, pad), chunks);
    BatchOfTurn(j, said, pad);
    Told(Batch(QWEN, j, TurnText(said, pad)), Lines(Thoughts(said)), Calls(j, said, 0));
  }

  lemma Told(batch: Parsed, lines: string, calls: seq<ToolCall>)
    requires batch.reasoning == NonEmpty(lines) && batch.calls == calls
    ensures Reason(batch) == lines
    ensures forall i: nat :: i < |calls| ==>
      CallTriple(batch.calls[i], i) == [Begin(i, calls[i].id, calls[i].name), Args(i, calls[i].arguments), End(i)]
  {
  }

  // ----- Markers without a partner -----

  /** Text around one marker hides every other. */
  lemma OneMarkerHides(a: string, m: string, b: string, other: string)
    requires Plain(a) && Plain(b) && IsMarker(m) && IsMarker(other) && Clash(m, other)
    ensures Find(a + m + b, other) < 0 && NoneStarts(a + m + b, "", other)
  {
    PlainHasNone(b, "", other);
    MarkerHides(m, b + "", other);
    HidesJoin(m, b, "", other);
    PlainHasNone(a, (m + b) + "", other);
    HidesJoin(a, m + b, "", other);
    assert a + m + b == a + (m + b);
    HiddenIsFree(a + m + b, other);
  }

  lemma RemovesOne(a: string, m: string, b: string)
    requires Plain(a) && Plain(b) && IsMarker(m)
    ensures Remove(a + m + b, m) == a + b
  {
    PlainHasNone(a, m + b, m);
    FoundAfter(a, m, b);
    CutAfter(a, m, b);
    PlainIsFree(b, m);
    assert a + m + b == a + (m + b);
  }

  lemma PlainKept(s: string, m: string)
    requires Plain(s) && IsMarker(m)
    ensures Remove(s, m) == s
  {
    PlainIsFree(s, m);
  }

  lemma QwenClashes()
    ensures IsMarker("<think>") && IsMarker("</think>") && IsMarker("<tool_call>") && IsMarker("</tool_call>")
    ensures Clash("</think>", "<think>") && Clash("</think>", "<tool_call>") && Clash("</think>", "</tool_call>")
    ensures Clash("</tool_call>", "<think>") && Clash("</tool_call>", "<tool_call>") && Clash("</tool_call>", "</think>")
    ensures Clash("<tool_call>", "<think>")
  {
    QwenTagsOk();
    ClashSym(QWEN.thinkOpen, QWEN.callOpen);
    ClashSym(QWEN.thinkOpen, QWEN.thinkClose);
    ClashSym(QWEN.thinkOpen, QWEN.callClose);
    ClashSym(QWEN.callOpen, QWEN.callClose);
    ClashSym(QWEN.thinkClose, QWEN.callClose);
  }

  lemma BatchIs(j: JsonOps, raw: string, thought: (string, string), called: (string, seq<ToolCall>), content: string)
    requires ThinkPass(QWEN, raw, "", "") == thought && CallPass(QWEN, j, thought.0, "", []) == called
    requires StripTags(QWEN, called.0) == content
    ensures Batch(QWEN, j, raw) == Parsed(Trim(content), NonEmpty(thought.1), called.1)
  {
    hide ThinkPass;
    hide CallPass;
    hide StripTags;
    hide Trim;
  }

  lemma NoReasoning()
    ensures NonEmpty("") == None
  {
  }

  lemma NoThought(s: string)
    requires Find(s, "<think>") < 0
    ensures ThinkPass(QWEN, s, "", "") == (s, "")
  {
    assert "" + s == s;
    hide Find;
  }

  lemma NoCall(j: JsonOps, s: string)
    requires Find(s, "<tool_call>") < 0
    ensures CallPass(QWEN, j, s, "", []) == (s, [])
  {
    assert "" + s == s;
    hide Find;
  }

  lemma StripChain(s: string, s1: string, s2: string, s3: string, s4: string)
    requires Remove(s, "<tool_call>") == s1 && Remove(s1, "</tool_call>") == s2
    requires Remove(s2, "<think>") == s3 && Remove(s3, "</think>") == s4
    ensures StripTags(QWEN, s) == s4
  {
    hide Remove;
  }

  lemma FreeKept(s: string, m: string)
    requires m != "" && Find(s, m) < 0
    ensures Remove(s, m) == s
  {
    hide Find;
  }

  lemma StrayStripped(a: string, m: string, b: string)
    requires Plain(a) && Plain(b) && Plain(a + b) && (m == "</think>" || m == "</tool_call>")
    ensures StripTags(QWEN, a + m + b) == a + b
  {
    hide *;
    QwenClashes();
    var s := a + m + b;
    OneMarkerHides(a, m, b, "<tool_call>");
    FreeKept(s, "<tool_call>");
    RemovesOne(a, m, b);
    if m == "</tool_call>" {
      PlainKept(a + b, "<think>");
      PlainKept(a + b, "</think>");
      StripChain(s, s, a + b, a + b, a + b);
    } else {
      OneMarkerHides(a, m, b, "</tool_call>");
      OneMarkerHides(a, m, b, "<think>");
      FreeKept(s, "</tool_call>");
      FreeKept(s, "<think>");
      StripChain(s, s, s, s, a + b);
    }
  }

  /** A closing marker nobody opened is dropped from the content. */
  lemma StrayCloser(j: JsonOps, a: string, m: string, b: string)
    requires Plain(a) && Plain(b) && (m == "</think>" || m == "</tool_call>")
    ensures Batch(QWEN, j, a + m + b) == Parsed(Trim(a + b), None, [])
  {
    assert Plain(a + b);
    hide *;
    QwenClashes();
    var s := a + m + b;
    OneMarkerHides(a, m, b, "<think>");
    OneMarkerHides(a, m, b, "<tool_call>");
    NoThought(s);
    NoCall(j, s);
    StrayStripped(a, m, b);
    BatchIs(j, s, (s, ""), (s, []), a + b);
    NoReasoning();
  }

  /** A call left open is dropped with its beginning; a thought left open runs to the end. */
  lemma LeftOpen(j: JsonOps, a: string, b: string)
    requires Plain(a) && Plain(b)
    ensures Batch(QWEN, j, a + ("<tool_call>" + b)) == Parsed(Trim(a), None, [])
    ensures Batch(QWEN, j, a + ("<think>" + b)) == Parsed(Trim(a), NonEmpty(Trim(b)), [])
  {
    OpenCall(j, a, b);
    OpenThought(j, a, b);
  }

  lemma PlainStripped(s: string)
    requires Plain(s)
    ensures StripTags(QWEN, s) == s
  {
    QwenClashes();
    PlainKept(s, "<think>");
    PlainKept(s, "</think>");
    PlainKept(s, "<tool_call>");
    PlainKept(s, "</tool_call>");
  }

  /** An opening marker whose partner does not follow. */
  lemma OpenBlockAt(a: string, open: string, b: string, close: string)
    requires Plain(a) && Plain(b) && IsMarker(open) && IsMarker(close)
    ensures NextBlock(a + (open + b), open, close) == Open(a, b)
  {
    PlainHasNone(a, open + b, open);
    FoundAfter(a, open, b);
    CutAfter(a, open, b);
    PlainIsFree(b, close);
  }

  lemma OpenCall(j: JsonOps, a: string, b: string)
    requires Plain(a) && Plain(b)
    ensures Batch(QWEN, j, a + ("<tool_call>" + b)) == Parsed(Trim(a), None, [])
  {
    hide *;
    QwenClashes();
    var s := a + ("<tool_call>" + b);
    OneMarkerHides(a, "<tool_call>", b, "<think>");
    assert a + "<tool_call>" + b == s;
    NoThought(s);
    CallLeftOpen(j, a, b);
    PlainStripped(a);
    BatchIs(j, s, (s, ""), (a, []), a);
    NoReasoning();
  }

  lemma CallPassOpen(j: JsonOps, s: string, before: string, body: string)
    requires NextBlock(s, "<tool_call>", "</tool_call>") == Open(before, body)
    ensures CallPass(QWEN, j, s, "", []) == (before, [])
  {
    hide NextBlock;
    assert "" + before == before;
  }

  lemma ThinkPassOpen(s: string, before: string, body: string)
    requires NextBlock(s, "<think>", "</think>") == Open(before, body)
    ensures ThinkPass(QWEN, s, "", "") == (before, Trim(body))
  {
    hide NextBlock;
    hide Trim;
    assert "" + before == before && "" + Trim(body) == Trim(body);
  }

  lemma CallLeftOpen(j: JsonOps, a: string, b: string)
    requires Plain(a) && Plain(b)
    ensures CallPass(QWEN, j, a + ("<tool_call>" + b), "", []) == (a, [])
  {
    hide *;
    QwenClashes();
    OpenBlockAt(a, "<tool_call>", b, "</tool_call>");
    CallPassOpen(j, a + ("<tool_call>" + b), a, b);
  }

  lemma ThoughtLeftOpen(a: string, b: string)
    requires Plain(a) && Plain(b)
    ensures ThinkPass(QWEN, a + ("<think>" + b), "", "") == (a, Trim(b))
  {
    hide *;
    QwenClashes();
    OpenBlockAt(a, "<think>", b, "</think>");
    ThinkPassOpen(a + ("<think>" + b), a, b);
  }

  lemma OpenThought(j: JsonOps, a: string, b: string)
    requires Plain(a) && Plain(b)
    ensures Batch(QWEN, j, a + ("<think>" + b)) == Parsed(Trim(a), NonEmpty(Trim(b)), [])
  {
    hide *;
    QwenClashes();
    ThoughtLeftOpen(a, b);
    PlainIsFree(a, "<tool_call>");
    NoCall(j, a);
    PlainStripped(a);
    BatchIs(j, a + ("<think>" + b), (a, Trim(b)), (a, []), a);
  }
}
