/** The events of the incremental parser add up to the batch parse. */
module ChatStreaming {
  import opened Trimming
  import opened Strings
  import opened Wrappers
  import opened ChatParse
  import opened ChatMarkers
  import opened ChatTranscript

  // ----- Adding up events -----

  /** The first `n` events' contributions, joined. */
  function Gather<T>(events: seq<Event>, part: Event -> seq<T>, n: nat): seq<T>
    requires n <= |events|
  {
    if n == 0 then [] else Gather(events, part, n - 1) + part(events[n - 1])
  }

  function All<T>(events: seq<Event>, part: Event -> seq<T>): seq<T> {
    Gather(events, part, |events|)
  }

  lemma {:induction false} GatherPrefix<T>(a: seq<Event>, b: seq<Event>, part: Event -> seq<T>, n: nat)
    requires a <= b && n <= |a|
    ensures Gather(a, part, n) == Gather(b, part, n)
  {
    if n > 0 {
      GatherPrefix(a, b, part, n - 1);
    }
  }

  lemma {:induction false} GatherJoined<T>(a: seq<Event>, b: seq<Event>, part: Event -> seq<T>, n: nat)
    requires n <= |b|
    ensures Gather(a + b, part, |a| + n) == All(a, part) + Gather(b, part, n)
  {
    if n == 0 {
      GatherPrefix(a, a + b, part, |a|);
    } else {
      GatherJoined(a, b, part, n - 1);
      assert (a + b)[|a| + n - 1] == b[n - 1];
    }
  }

  lemma AllJoined<T>(a: seq<Event>, b: seq<Event>, part: Event -> seq<T>)
    ensures All(a + b, part) == All(a, part) + All(b, part)
  {
    GatherJoined(a, b, part, |b|);
  }

  lemma AllOfOne<T>(e: Event, part: Event -> seq<T>)
    ensures All([e], part) == part(e)
  {
    assert Gather([e], part, 1) == Gather([e], part, 0) + part(e);
  }

  lemma AllOfNone<T>(part: Event -> seq<T>)
    ensures All([], part) == []
  {
  }

  lemma AllNothing<T>(events: seq<Event>, part: Event -> seq<T>)
    requires forall k :: 0 <= k < |events| ==> part(events[k]) == []
    ensures All(events, part) == []
  {
    GatherNothing(events, part, |events|);
  }

  /** Contributions of nothing leave the rest. */
  lemma AllJoinedLeft<T>(a: seq<Event>, b: seq<Event>, part: Event -> seq<T>)
    requires All(a, part) == []
    ensures All(a + b, part) == All(b, part)
  {
    AllJoined(a, b, part);
  }

  lemma AllJoinedRight<T>(a: seq<Event>, b: seq<Event>, part: Event -> seq<T>)
    requires All(b, part) == []
    ensures All(a + b, part) == All(a, part)
  {
    AllJoined(a, b, part);
  }

  lemma {:induction false} GatherNothing<T>(events: seq<Event>, part: Event -> seq<T>, n: nat)
    requires n <= |events| && forall k :: 0 <= k < n ==> part(events[k]) == []
    ensures Gather(events, part, n) == []
  {
    if n > 0 {
      GatherNothing(events, part, n - 1);
    }
  }

  function TextIn(e: Event): string {
    if e.Text? then e.text else ""
  }

  function ReasoningIn(e: Event): string {
    if e.Reasoning? then e.text else ""
  }

  function BeginIn(e: Event): seq<nat> {
    if e.Begin? then [e.index] else []
  }

  /** Keeps the events about call `i`. */
  function AboutCall(i: nat): Event -> seq<Event> {
    (e: Event) => if !e.Text? && !e.Reasoning? && e.index == i then [e] else []
  }

  function TextOf(events: seq<Event>): string {
    All(events, TextIn)
  }

  function ReasoningOf(events: seq<Event>): string {
    All(events, ReasoningIn)
  }

  /** The indices of the calls begun, in order. */
  function Begun(events: seq<Event>): seq<nat> {
    All(events, BeginIn)
  }

  /** The events about call `i`, in order. */
  function CallEvents(events: seq<Event>, i: nat): seq<Event> {
    All(events, AboutCall(i))
  }

  function Upto(n: nat): seq<nat> {
    seq(n, k requires 0 <= k < n => k)
  }

  // ----- One difference -----

  function Reason(p: Parsed): string {
    if p.reasoning.None? then "" else p.reasoning.value
  }

  /** A parse that only grows. */
  predicate Grows(prev: Parsed, cur: Parsed) {
    && prev.content <= cur.content && prev.calls <= cur.calls
    && Reason(prev) <= Reason(cur) && prev.reasoning != Some("") && cur.reasoning != Some("")
  }

  function CallTriple(call: ToolCall, i: nat): seq<Event> {
    [Begin(i, call.id, call.name), Args(i, call.arguments), End(i)]
  }

  predicate AllHaveArgs(calls: seq<ToolCall>) {
    forall c :: c in calls ==> c.arguments != ""
  }

  predicate CallOnly(events: seq<Event>) {
    forall e :: e in events ==> !e.Text? && !e.Reasoning?
  }

  lemma CallOnlyIsSilent(events: seq<Event>)
    requires CallOnly(events)
    ensures TextOf(events) == "" && ReasoningOf(events) == ""
  {
    AllNothing(events, TextIn);
    AllNothing(events, ReasoningIn);
  }

  /** What begins a new call. */
  function Opening(call: ToolCall, i: nat): seq<Event> {
    [Begin(i, call.id, call.name)] + [Args(i, call.arguments)]
  }

  lemma OpeningIs(call: ToolCall, n: nat, i: nat)
    ensures Begun(Opening(call, n)) == [n] && CallEvents(Opening(call, n), i) == if i == n then Opening(call, n) else []
  {
    var b, a := Begin(n, call.id, call.name), Args(n, call.arguments);
    AllJoined([b], [a], BeginIn);
    AllOfOne(b, BeginIn);
    AllOfOne(a, BeginIn);
    AllJoined([b], [a], AboutCall(i));
    AllOfOne(b, AboutCall(i));
    AllOfOne(a, AboutCall(i));
  }

  /** Calls already known do not change; a new one opens. */
  lemma CallDeltaIs(prev: seq<ToolCall>, cur: seq<ToolCall>, n: nat)
    requires prev <= cur && n < |cur| && AllHaveArgs(cur)
    ensures CallDelta(prev, cur[n], n) == if n < |prev| then [] else Opening(cur[n], n)
  {
    assert cur[n] in cur;
  }

  lemma NothingCalls(prev: seq<ToolCall>, cur: seq<ToolCall>)
    ensures CallOnly(CallDeltas(prev, cur, 0))
  {
  }

  lemma CallsJoin(events: seq<Event>, call: ToolCall, n: nat)
    requires CallOnly(events)
    ensures CallOnly(events + Opening(call, n))
  {
  }

  lemma UptoNext(lo: nat, k: nat)
    requires lo <= k
    ensures Upto(k + 1)[lo..] == Upto(k)[lo..] + [k]
    ensures lo == k ==> Upto(k)[lo..] == []
  {
  }

  lemma {:induction false} CallDeltasBegin(prev: seq<ToolCall>, cur: seq<ToolCall>, n: nat)
    requires prev <= cur && n <= |cur| && AllHaveArgs(cur)
    ensures CallOnly(CallDeltas(prev, cur, n))
    ensures Begun(CallDeltas(prev, cur, n)) == (if n <= |prev| then [] else Upto(n)[|prev|..])
  {
    hide All;
    hide CallDelta;
    hide CallOnly;
    hide Opening;
    hide Upto;
    AllOfNone(BeginIn);
    NothingCalls(prev, cur);
    if n > 0 {
      var k := n - 1;
      CallDeltasBegin(prev, cur, k);
      CallDeltaIs(prev, cur, k);
      if k >= |prev| {
        OpeningIs(cur[k], k, k);
        AllJoined(CallDeltas(prev, cur, k), Opening(cur[k], k), BeginIn);
        CallsJoin(CallDeltas(prev, cur, k), cur[k], k);
        UptoNext(|prev|, k);
      } else {
        assert CallDeltas(prev, cur, n) == CallDeltas(prev, cur, k);
      }
    }
  }

  lemma {:induction false} CallDeltasAbout(prev: seq<ToolCall>, cur: seq<ToolCall>, n: nat, i: nat)
    requires prev <= cur && n <= |cur| && AllHaveArgs(cur)
    ensures CallEvents(CallDeltas(prev, cur, n), i) == (if |prev| <= i < n then Opening(cur[i], i) else [])
  {
    hide All;
    hide CallDelta;
    hide Opening;
    AllOfNone(AboutCall(i));
    if n > 0 {
      var k := n - 1;
      CallDeltasAbout(prev, cur, k, i);
      CallDeltaIs(prev, cur, k);
      if k >= |prev| {
        OpeningIs(cur[k], k, i);
        AllJoined(CallDeltas(prev, cur, k), Opening(cur[k], k), AboutCall(i));
      } else {
        assert CallDeltas(prev, cur, n) == CallDeltas(prev, cur, k);
      }
    }
  }

  lemma {:induction false} EndsAre(lo: nat, hi: nat, i: nat)
    ensures CallOnly(Ends(lo, hi)) && Begun(Ends(lo, hi)) == []
    ensures CallEvents(Ends(lo, hi), i) == (if lo <= i < hi then [End(i)] else [])
    decreases hi
  {
    hide All;
    AllOfNone(BeginIn);
    AllOfNone(AboutCall(i));
    if lo < hi {
      EndsAre(lo, hi - 1, i);
      AllOfOne(End(hi - 1), BeginIn);
      AllJoinedRight(Ends(lo, hi - 1), [End(hi - 1)], BeginIn);
      AllOfOne(End(hi - 1), AboutCall(i));
      AllJoined(Ends(lo, hi - 1), [End(hi - 1)], AboutCall(i));
    }
  }

  predicate Wordy(events: seq<Event>) {
    forall e :: e in events ==> e.Text? || e.Reasoning?
  }

  lemma WordyIsQuiet(events: seq<Event>, i: nat)
    requires Wordy(events)
    ensures Begun(events) == [] && CallEvents(events, i) == []
  {
    assert forall k :: 0 <= k < |events| ==> events[k] in events;
    AllNothing(events, BeginIn);
    AllNothing(events, AboutCall(i));
  }

  /** The text and reasoning deltas. */
  lemma WordsAre(prev: Parsed, cur: Parsed, i: nat)
    requires Grows(prev, cur)
    ensures
      var words := TextDelta(prev.content, cur.content) + ReasoningDelta(prev.reasoning, cur.reasoning);
      && TextOf(words) == cur.content[|prev.content|..] && ReasoningOf(words) == Reason(cur)[|Reason(prev)|..]
      && Begun(words) == [] && CallEvents(words, i) == []
  {
    hide All;
    hide TextDelta;
    hide ReasoningDelta;
    var t, r := TextDelta(prev.content, cur.content), ReasoningDelta(prev.reasoning, cur.reasoning);
    TextDeltaIs(prev.content, cur.content);
    ReasoningDeltaIs(prev, cur);
    AllJoinedRight(t, r, TextIn);
    AllJoinedLeft(t, r, ReasoningIn);
    WordyIsQuiet(t + r, i);
  }

  lemma TextDeltaIs(prev: string, cur: string)
    requires prev <= cur
    ensures TextOf(TextDelta(prev, cur)) == cur[|prev|..] && ReasoningOf(TextDelta(prev, cur)) == ""
    ensures Wordy(TextDelta(prev, cur))
  {
    AllOfOne(Text(cur[|prev|..]), TextIn);
    AllOfOne(Text(cur[|prev|..]), ReasoningIn);
  }

  lemma ReasoningDeltaIs(prev: Parsed, cur: Parsed)
    requires Grows(prev, cur)
    ensures ReasoningOf(ReasoningDelta(prev.reasoning, cur.reasoning)) == Reason(cur)[|Reason(prev)|..]
    ensures TextOf(ReasoningDelta(prev.reasoning, cur.reasoning)) == ""
    ensures Wordy(ReasoningDelta(prev.reasoning, cur.reasoning))
  {
    AllOfOne(Reasoning(Reason(cur)[|Reason(prev)|..]), ReasoningIn);
    AllOfOne(Reasoning(Reason(cur)[|Reason(prev)|..]), TextIn);
  }

  /** The events of one push are exactly what has been added. */
  lemma DiffIs(prev: Parsed, cur: Parsed, i: nat)
    requires Grows(prev, cur) && AllHaveArgs(cur.calls)
    ensures
      var e := Diff(prev, |prev.calls|, cur, |cur.calls|);
      && TextOf(e) == cur.content[|prev.content|..]
      && ReasoningOf(e) == Reason(cur)[|Reason(prev)|..]
      && Begun(e) == Upto(|cur.calls|)[|prev.calls|..]
      && CallEvents(e, i) == (if |prev.calls| <= i < |cur.calls| then CallTriple(cur.calls[i], i) else [])
  {
    hide All;
    hide TextDelta;
    hide ReasoningDelta;
    hide CallDeltas;
    hide Ends;
    var w := TextDelta(prev.content, cur.content) + ReasoningDelta(prev.reasoning, cur.reasoning);
    var c, e := CallDeltas(prev.calls, cur.calls, |cur.calls|), Ends(|prev.calls|, |cur.calls|);
    WordsAre(prev, cur, i);
    CallDeltasBegin(prev.calls, cur.calls, |cur.calls|);
    CallDeltasAbout(prev.calls, cur.calls, |cur.calls|, i);
    EndsAre(|prev.calls|, |cur.calls|, i);
    CallOnlyIsSilent(c);
    CallOnlyIsSilent(e);
    AllJoinedRight(w, c, TextIn);
    AllJoinedRight(w + c, e, TextIn);
    AllJoinedRight(w, c, ReasoningIn);
    AllJoinedRight(w + c, e, ReasoningIn);
    AllJoinedLeft(w, c, BeginIn);
    AllJoinedRight(w + c, e, BeginIn);
    AllJoinedLeft(w, c, AboutCall(i));
    AllJoined(w + c, e, AboutCall(i));
  }

  // ----- Growing parses -----

  lemma {:induction false} ProseGrows(g: Tags, ps: seq<Piece>, i: nat, n: nat, n': nat)
    requires i <= |ps| && n <= n' <= |Render(g, ps, i)|
    ensures ProseOf(g, ps, i, n) <= ProseOf(g, ps, i, n')
    decreases |ps| - i
  {
    if i < |ps| {
      var r := Rendered(g, ps[i]);
      if n >= |r| {
        ProseGrows(g, ps, i + 1, n - |r|, n' - |r|);
      }
    }
  }

  lemma {:induction false} CalledExtends(g: Tags, j: JsonOps, ps: seq<Piece>, i: nat, n: nat, calls: seq<ToolCall>)
    requires i <= |ps| && n <= |Render(g, ps, i)|
    ensures calls <= Called(g, j, ps, i, n, calls)
    ensures AllHaveArgs(calls) ==> AllHaveArgs(Called(g, j, ps, i, n, calls))
    decreases |ps| - i
  {
    if i < |ps| && n >= |Rendered(g, ps[i])| {
      CalledExtends(g, j, ps, i + 1, n - |Rendered(g, ps[i])|, if ps[i].Call? then AddCall(j, calls, ps[i].body) else calls);
    }
  }

  lemma {:induction false} CalledGrows(g: Tags, j: JsonOps, ps: seq<Piece>, i: nat, n: nat, n': nat, calls: seq<ToolCall>)
    requires i <= |ps| && n <= n' <= |Render(g, ps, i)|
    ensures Called(g, j, ps, i, n, calls) <= Called(g, j, ps, i, n', calls)
    decreases |ps| - i
  {
    hide AddCall;
    if i < |ps| {
      var r := Rendered(g, ps[i]);
      if n >= |r| {
        CalledGrows(g, j, ps, i + 1, n - |r|, n' - |r|, if ps[i].Call? then AddCall(j, calls, ps[i].body) else calls);
      } else {
        CalledExtends(g, j, ps, i, n', calls);
      }
    }
  }

  /** The cut does not fall strictly inside the closing marker of a think block. */
  predicate Whole(g: Tags, ps: seq<Piece>, i: nat, n: nat)
    requires i <= |ps|
    decreases |ps| - i
  {
    i == |ps| ||
    var r := Rendered(g, ps[i]);
    if n < |r| then !ps[i].Think? || n <= |g.thinkOpen + ps[i].body| else Whole(g, ps, i + 1, n - |r|)
  }

  lemma ThoughtGrows(buf: string, x: string, y: string)
    requires x <= y
    ensures buf <= AddThought(buf, x) <= AddThought(buf, y)
  {
  }

  lemma {:induction false} ReasonedExtends(g: Tags, ps: seq<Piece>, i: nat, n: nat, buf: string)
    requires i <= |ps| && n <= |Render(g, ps, i)|
    ensures buf <= Reasoned(g, ps, i, n, buf)
    decreases |ps| - i
  {
    if i < |ps| {
      var r := Rendered(g, ps[i]);
      if n >= |r| {
        ReasonedExtends(g, ps, i + 1, n - |r|, ReasonedFull(ps[i], buf));
      }
    }
  }

  /** Within one piece: what an uncut part of a thought amounts to only grows. */
  lemma CutGrows(g: Tags, p: Piece, n: nat, n': nat, buf: string)
    requires n <= n' < |Rendered(g, p)| && (!p.Think? || n <= |g.thinkOpen + p.body|)
    ensures ReasonedCut(g, p, n, buf) <= ReasonedCut(g, p, n', buf)
    ensures ReasonedCut(g, p, n, buf) <= ReasonedFull(p, buf)
  {
    hide Trim;
    hide AddThought;
    if p.Think? && n >= |g.thinkOpen| {
      var k, k' := n - |g.thinkOpen|, n' - |g.thinkOpen|;
      var s := p.body + g.thinkClose;
      assert s[..k] == p.body[..k] <= p.body && s[..k] <= s[..k'];
      TrimGrows(p.body[..k], p.body);
      TrimGrows(s[..k], s[..k']);
      ThoughtGrows(buf, Trim(s[..k]), Trim(s[..k']));
      ThoughtGrows(buf, Trim(s[..k]), Trim(p.body));
    } else if p.Think? {
      var thought := if n' >= |g.thinkOpen| then Trim((p.body + g.thinkClose)[..n' - |g.thinkOpen|]) else "";
      ThoughtGrows(buf, thought, thought);
      ThoughtGrows(buf, Trim(p.body), Trim(p.body));
    }
  }

  lemma {:induction false} ReasonedGrows(g: Tags, ps: seq<Piece>, i: nat, n: nat, n': nat, buf: string)
    requires i <= |ps| && n <= n' <= |Render(g, ps, i)| && Whole(g, ps, i, n)
    ensures Reasoned(g, ps, i, n, buf) <= Reasoned(g, ps, i, n', buf)
    decreases |ps| - i
  {
    if i < |ps| {
      var p, r := ps[i], Rendered(g, ps[i]);
      if n >= |r| {
        ReasonedGrows(g, ps, i + 1, n - |r|, n' - |r|, ReasonedFull(p, buf));
      } else if n' < |r| {
        CutGrows(g, p, n, n', buf);
      } else {
        CutGrows(g, p, n, n, buf);
        ReasonedExtends(g, ps, i + 1, n' - |r|, ReasonedFull(p, buf));
      }
    }
  }

  lemma TrimGrows(a: string, b: string)
    requires a <= b
    ensures Trim(a) <= Trim(b)
  {
    StripGrows(a, b, IsSpace);
  }

  lemma SeenGrows(g: Tags, j: JsonOps, ps: seq<Piece>, n: nat, n': nat)
    requires n <= n' <= |Render(g, ps, 0)| && Whole(g, ps, 0, n)
    ensures Grows(Seen(g, j, ps, n), Seen(g, j, ps, n')) && AllHaveArgs(Seen(g, j, ps, n').calls)
  {
    ProseGrows(g, ps, 0, n, n');
    DropEndGrows(ProseOf(g, ps, 0, n), ProseOf(g, ps, 0, n'), IsSpace);
    ReasonedGrows(g, ps, 0, n, n', "");
    CalledGrows(g, j, ps, 0, n, n', []);
    CalledExtends(g, j, ps, 0, n', []);
  }

  // ----- Whole runs -----

  function Joined(chunks: seq<string>): string {
    if chunks == [] then "" else Joined(chunks[..|chunks| - 1]) + chunks[|chunks| - 1]
  }

  /** A fresh parser fed the chunks in order, with all its events. */
  function Feed(g: Tags, j: JsonOps, chunks: seq<string>): (Stream, seq<Event>)
    requires Named(g)
  {
    if chunks == [] then (FRESH, [])
    else
      var before := Feed(g, j, chunks[..|chunks| - 1]);
      var after := Pushed(g, j, before.0, chunks[|chunks| - 1]);
      (after.0, before.1 + after.1)
  }

  /** No chunk boundary falls strictly inside the closing marker of a think block. */
  predicate CutsWhole(g: Tags, ps: seq<Piece>, chunks: seq<string>) {
    forall k :: 0 <= k < |chunks| ==> Whole(g, ps, 0, |Joined(chunks[..k])|)
  }

  /** The events so far add up to the parse so far. */
  ghost predicate AddsUp(events: seq<Event>, p: Parsed) {
    && TextOf(events) == p.content && ReasoningOf(events) == Reason(p) && Begun(events) == Upto(|p.calls|)
    && forall i: nat :: CallEvents(events, i) == if i < |p.calls| then CallTriple(p.calls[i], i) else []
  }

  lemma AddsUpGrows(events: seq<Event>, prev: Parsed, cur: Parsed)
    requires AddsUp(events, prev) && Grows(prev, cur) && AllHaveArgs(cur.calls)
    ensures AddsUp(events + Diff(prev, |prev.calls|, cur, |cur.calls|), cur)
  {
    hide All;
    hide Diff;
    var diff := Diff(prev, |prev.calls|, cur, |cur.calls|);
    forall i: nat
      ensures CallEvents(events + diff, i) == if i < |cur.calls| then CallTriple(cur.calls[i], i) else []
    {
      DiffIs(prev, cur, i);
      AllJoined(events, diff, AboutCall(i));
      var a, b := CallEvents(events, i), CallEvents(diff, i);
      assert a + b == if i < |prev.calls| then a else b;
    }
    DiffIs(prev, cur, 0);
    AllJoined(events, diff, TextIn);
    AllJoined(events, diff, ReasoningIn);
    AllJoined(events, diff, BeginIn);
    assert Upto(|prev.calls|) + Upto(|cur.calls|)[|prev.calls|..] == Upto(|cur.calls|);
  }

  ghost predicate InStep(g: Tags, j: JsonOps, ps: seq<Piece>, n: nat, s: Stream) {
    && n <= |Render(g, ps, 0)| && s.accumulated == Render(g, ps, 0)[..n]
    && s.prev == Seen(g, j, ps, n) && s.completed == |s.prev.calls|
  }

  lemma FreshInStep(g: Tags, j: JsonOps, ps: seq<Piece>)
    requires TagsOk(g) && AllGood(g, ps)
    ensures InStep(g, j, ps, 0, FRESH) && AddsUp([], Seen(g, j, ps, 0))
  {
    StreamingSees(g, j, ps, 0);
    assert Render(g, ps, 0)[..0] == "";
    StreamingOfNothing(g, j);
    NothingAddsUp();
  }

  lemma NothingAddsUp()
    ensures AddsUp([], FRESH.prev)
  {
    AllOfNone(TextIn);
    AllOfNone(ReasoningIn);
    AllOfNone(BeginIn);
  }

  lemma StreamingOfNothing(g: Tags, j: JsonOps)
    requires TagsOk(g)
    ensures Streaming(g, j, "") == FRESH.prev && Count("", g.callClose) == 0
  {
    StreamingSees(g, j, [], 0);
    assert Render(g, [], 0)[..0] == "";
  }

  lemma PushInStep(g: Tags, j: JsonOps, ps: seq<Piece>, n: nat, s: Stream, delta: string)
    requires TagsOk(g) && AllGood(g, ps) && InStep(g, j, ps, n, s) && s.accumulated + delta <= Render(g, ps, 0)
    ensures InStep(g, j, ps, n + |delta|, Pushed(g, j, s, delta).0)
    ensures
      var cur := Seen(g, j, ps, n + |delta|);
      Pushed(g, j, s, delta).1 == if delta == "" then [] else Diff(s.prev, |s.prev.calls|, cur, |cur.calls|)
  {
    var n' := n + |delta|;
    assert s.accumulated + delta == Render(g, ps, 0)[..n'];
    StreamingSees(g, j, ps, n');
  }

  lemma CutsWholeInit(g: Tags, ps: seq<Piece>, chunks: seq<string>)
    requires chunks != [] && CutsWhole(g, ps, chunks)
    ensures CutsWhole(g, ps, chunks[..|chunks| - 1]) && Whole(g, ps, 0, |Joined(chunks[..|chunks| - 1])|)
  {
    hide Whole;
    var init := chunks[..|chunks| - 1];
    forall k | 0 <= k < |init| ensures Whole(g, ps, 0, |Joined(init[..k])|) {
      assert init[..k] == chunks[..k];
    }
  }

  /** One more chunk. */
  lemma FeedNext(g: Tags, j: JsonOps, ps: seq<Piece>, delta: string, s: Stream, events: seq<Event>, n: nat)
    requires TagsOk(g) && AllGood(g, ps) && InStep(g, j, ps, n, s) && AddsUp(events, Seen(g, j, ps, n))
    requires s.accumulated + delta <= Render(g, ps, 0) && Whole(g, ps, 0, n)
    ensures
      var after := Pushed(g, j, s, delta);
      InStep(g, j, ps, n + |delta|, after.0) && AddsUp(events + after.1, Seen(g, j, ps, n + |delta|))
  {
    hide Pushed;
    hide AddsUp;
    hide Seen;
    hide Whole;
    hide AllGood;
    hide Diff;
    hide Grows;
    hide AllHaveArgs;
    hide TagsOk;
    PushInStep(g, j, ps, n, s, delta);
    if delta == "" {
      assert events + [] == events;
    } else {
      SeenGrows(g, j, ps, n, n + |delta|);
      AddsUpGrows(events, Seen(g, j, ps, n), Seen(g, j, ps, n + |delta|));
    }
  }

  lemma {:induction false} FeedAddsUp(g: Tags, j: JsonOps, ps: seq<Piece>, chunks: seq<string>)
    requires TagsOk(g) && AllGood(g, ps) && Joined(chunks) <= Render(g, ps, 0) && CutsWhole(g, ps, chunks)
    ensures InStep(g, j, ps, |Joined(chunks)|, Feed(g, j, chunks).0)
    ensures AddsUp(Feed(g, j, chunks).1, Seen(g, j, ps, |Joined(chunks)|))
    decreases |chunks|
  {
    hide Pushed;
    hide AddsUp;
    hide Seen;
    hide Whole;
    hide CutsWhole;
    hide AllGood;
    if chunks == [] {
      FreshInStep(g, j, ps);
    } else {
      var init, delta := chunks[..|chunks| - 1], chunks[|chunks| - 1];
      CutsWholeInit(g, ps, chunks);
      FeedAddsUp(g, j, ps, init);
      var before := Feed(g, j, init);
      assert before.0.accumulated == Joined(init);
      FeedNext(g, j, ps, delta, before.0, before.1, |Joined(init)|);
    }
  }

  /** Streaming equals batch: however a transcript is chunked, short of splitting a
      think block's closing marker, the text adds up to the batch content but for
      trailing and leading spaces, the reasoning adds up exactly, and each call is begun,
      given its arguments and ended once, in order. */
  lemma StreamingEqualsBatch(g: Tags, j: JsonOps, ps: seq<Piece>, chunks: seq<string>)
    requires TagsOk(g) && AllGood(g, ps) && Joined(chunks) == Render(g, ps, 0) && CutsWhole(g, ps, chunks)
    ensures
      var events, batch := Feed(g, j, chunks).1, Batch(g, j, Render(g, ps, 0));
      && Trim(TextOf(events)) == batch.content
      && ReasoningOf(events) == Reason(batch)
      && Begun(events) == Upto(|batch.calls|)
      && forall i: nat :: CallEvents(events, i) == if i < |batch.calls| then CallTriple(batch.calls[i], i) else []
  {
    var n := |Render(g, ps, 0)|;
    FeedAddsUp(g, j, ps, chunks);
    BatchSees(g, j, ps);
    StripOfDropEnd(ProseOf(g, ps, 0, n), IsSpace);
  }

  // ----- Splitting a closing marker -----

  lemma TrimKeeps(s: string, p: nat)
    requires p < |s| && !IsSpace(s[p])
    ensures s[p] in Trim(s)
  {
    var t := DropStart(s, IsSpace);
    var j := |s| - |t|;
    assert t[p - j] == s[p];
    var e := DropEnd(t, IsSpace);
    assert e[p - j] == t[p - j];
  }

  lemma PrintableIsNoSpace(c: char)
    requires 0x20 < c as int < 0x7F
    ensures !IsSpace(c)
  {
    PrintableInNoRange(c, 10);
  }

  lemma {:induction false} PrintableInNoRange(c: char, count: nat)
    requires 0x20 < c as int < 0x7F && count <= 10
    ensures !InSpaceRanges(c, count)
  {
    if count > 0 {
      PrintableInNoRange(c, count - 1);
    }
  }

  /** A cut inside a think block's closing marker leaks its beginning into the reasoning. */
  lemma {:induction false} SplitLeaks(g: Tags, ps: seq<Piece>, i: nat, n: nat, buf: string)
    requires TagsOk(g) && i <= |ps| && n <= |Render(g, ps, i)| && !Whole(g, ps, i, n)
    ensures '<' in Reasoned(g, ps, i, n, buf)
    decreases |ps| - i
  {
    hide TagsOk;
    hide ReasonedCut;
    var p, r := ps[i], Rendered(g, ps[i]);
    if n >= |r| {
      SplitLeaks(g, ps, i + 1, n - |r|, ReasonedFull(p, buf));
    } else {
      SplitCutLeaks(g, p, n, buf);
    }
  }

  lemma SplitCutLeaks(g: Tags, p: Piece, n: nat, buf: string)
    requires TagsOk(g) && p.Think? && |g.thinkOpen + p.body| < n < |Rendered(g, p)|
    ensures '<' in ReasonedCut(g, p, n, buf)
  {
    hide Trim;
    hide IsSpace;
    var s := (p.body + g.thinkClose)[..n - |g.thinkOpen|];
    assert s[|p.body|] == g.thinkClose[0] == '<';
    PrintableIsNoSpace('<');
    TrimKeeps(s, |p.body|);
  }

  lemma PlainThought(buf: string, body: string)
    requires Plain(buf) && Plain(body)
    ensures Plain(AddThought(buf, Trim(body)))
  {
    var t := DropStart(body, IsSpace);
    assert forall k :: 0 <= k < |t| ==> t[k] == body[|body| - |t| + k];
    assert Plain(Trim(body));
  }

  lemma {:induction false} WholeReasonIsPlain(g: Tags, ps: seq<Piece>, i: nat, buf: string)
    requires AllGood(g, ps) && i <= |ps| && Plain(buf)
    ensures Plain(Reasoned(g, ps, i, |Render(g, ps, i)|, buf))
    decreases |ps| - i
  {
    hide AddThought;
    hide Trim;
    hide Rendered;
    hide Plain;
    hide ReasonedCut;
    if i < |ps| {
      assert Good(g, ps[i]);
      if ps[i].Think? {
        PlainThought(buf, ps[i].body);
      }
      WholeReasonIsPlain(g, ps, i + 1, ReasonedFull(ps[i], buf));
    }
  }

  /** Reasoning once sent is never taken back. */
  lemma {:induction false} SentStays(g: Tags, j: JsonOps, chunks: seq<string>, k: nat)
    requires Named(g) && k <= |chunks|
    ensures ReasoningOf(Feed(g, j, chunks[..k]).1) <= ReasoningOf(Feed(g, j, chunks).1)
    decreases |chunks|
  {
    hide Pushed;
    hide All;
    if k == |chunks| {
      assert chunks[..k] == chunks;
    } else {
      var init := chunks[..|chunks| - 1];
      SentStays(g, j, init, k);
      assert init[..k] == chunks[..k];
      var before := Feed(g, j, init);
      AllJoined(before.1, Pushed(g, j, before.0, chunks[|chunks| - 1]).1, ReasoningIn);
    }
  }

  /** The first chunk boundary that splits a closing marker. */
  lemma {:induction false} FirstSplit(g: Tags, ps: seq<Piece>, chunks: seq<string>) returns (k: nat)
    requires !CutsWhole(g, ps, chunks)
    ensures k < |chunks| && !Whole(g, ps, 0, |Joined(chunks[..k])|) && CutsWhole(g, ps, chunks[..k])
    decreases |chunks|
  {
    hide Whole;
    k :| 0 <= k < |chunks| && !Whole(g, ps, 0, |Joined(chunks[..k])|);
    if !CutsWhole(g, ps, chunks[..k]) {
      var i := FirstSplit(g, ps, chunks[..k]);
      assert chunks[..k][..i] == chunks[..i];
      k := i;
    }
  }

  /** The reasoning adds up exactly when no chunk boundary splits a closing marker. */
  lemma ReasoningAddsUpIff(g: Tags, j: JsonOps, ps: seq<Piece>, chunks: seq<string>)
    requires TagsOk(g) && AllGood(g, ps) && Joined(chunks) == Render(g, ps, 0)
    ensures ReasoningOf(Feed(g, j, chunks).1) == Reason(Batch(g, j, Render(g, ps, 0))) <==> CutsWhole(g, ps, chunks)
  {
    if CutsWhole(g, ps, chunks) {
      StreamingEqualsBatch(g, j, ps, chunks);
    } else {
      SplitDiffers(g, j, ps, chunks);
    }
  }

  lemma SplitSent(g: Tags, j: JsonOps, ps: seq<Piece>, chunks: seq<string>)
    requires TagsOk(g) && AllGood(g, ps) && Joined(chunks) <= Render(g, ps, 0) && CutsWhole(g, ps, chunks)
    requires !Whole(g, ps, 0, |Joined(chunks)|)
    ensures '<' in ReasoningOf(Feed(g, j, chunks).1)
  {
    hide All;
    hide Pushed;
    hide Whole;
    hide CutsWhole;
    hide Reasoned;
    hide AllGood;
    FeedAddsUp(g, j, ps, chunks);
    SplitLeaks(g, ps, 0, |Joined(chunks)|, "");
  }

  lemma BatchReasonIsPlain(g: Tags, j: JsonOps, ps: seq<Piece>)
    requires TagsOk(g) && AllGood(g, ps)
    ensures Plain(Reason(Batch(g, j, Render(g, ps, 0))))
  {
    hide Batch;
    hide Reasoned;
    hide AllGood;
    BatchSees(g, j, ps);
    WholeReasonIsPlain(g, ps, 0, "");
  }

  lemma SplitDiffers(g: Tags, j: JsonOps, ps: seq<Piece>, chunks: seq<string>)
    requires TagsOk(g) && AllGood(g, ps) && Joined(chunks) == Render(g, ps, 0) && !CutsWhole(g, ps, chunks)
    ensures ReasoningOf(Feed(g, j, chunks).1) != Reason(Batch(g, j, Render(g, ps, 0)))
  {
    hide All;
    hide Feed;
    hide Batch;
    hide Reason;
    hide Whole;
    hide CutsWhole;
    hide AllGood;
    var k := FirstSplit(g, ps, chunks);
    JoinedPrefix(chunks, k);
    SplitSent(g, j, ps, chunks[..k]);
    SentStays(g, j, chunks, k);
    BatchReasonIsPlain(g, j, ps);
  }

  lemma {:induction false} JoinedPrefix(chunks: seq<string>, k: nat)
    requires k <= |chunks|
    ensures Joined(chunks[..k]) <= Joined(chunks)
    decreases |chunks|
  {
    if k == |chunks| {
      assert chunks[..k] == chunks;
    } else {
      JoinedPrefix(chunks[..|chunks| - 1], k);
      assert chunks[..|chunks| - 1][..k] == chunks[..k];
    }
  }

  /** For the Qwen markers themselves. */
  lemma QwenStreamingEqualsBatch(j: JsonOps, ps: seq<Piece>, chunks: seq<string>)
    requires AllGood(QWEN, ps) && Joined(chunks) == Render(QWEN, ps, 0)
    ensures TagsOk(QWEN)
    ensures CutsWhole(QWEN, ps, chunks) ==>
      var events, batch := Feed(QWEN, j, chunks).1, Batch(QWEN, j, Render(QWEN, ps, 0));
      && Trim(TextOf(events)) == batch.content
      && ReasoningOf(events) == Reason(batch)
      && Begun(events) == Upto(|batch.calls|)
      && forall i: nat :: CallEvents(events, i) == if i < |batch.calls| then CallTriple(batch.calls[i], i) else []
  {
    QwenTagsOk();
    if CutsWhole(QWEN, ps, chunks) {
      StreamingEqualsBatch(QWEN, j, ps, chunks);
    }
  }

  /** A thought "a" whose closing marker is cut after its '<': the batch reasoning is "a", but the
      events have sent "a<". */
  lemma SplitCloserShows(j: JsonOps)
    ensures
      var ps, chunks := [Think("a")], ["<think>a<", "/think>"];
      && AllGood(QWEN, ps) && Joined(chunks) == Render(QWEN, ps, 0) && TagsOk(QWEN)
      && Reason(Batch(QWEN, j, Joined(chunks))) == "a"
      && "a<" <= ReasoningOf(Feed(QWEN, j, chunks).1)
  {
    var ps, chunks := [Think("a")], ["<think>a<", "/think>"];
    QwenTagsOk();
    SplitTranscript(ps, chunks);
    SplitBatch(j, ps);
    SplitSends(j, ps, chunks);
    SentStays(QWEN, j, chunks, 1);
  }

  lemma SplitTranscript(ps: seq<Piece>, chunks: seq<string>)
    requires ps == [Think("a")] && chunks == ["<think>a<", "/think>"]
    ensures AllGood(QWEN, ps) && Render(QWEN, ps, 0) == Joined(chunks) == "<think>a</think>"
    ensures Joined(chunks[..1]) == "<think>a<" && CutsWhole(QWEN, ps, chunks[..1])
  {
    assert chunks[..1][..0] == [] && chunks[..1] == ["<think>a<"];
    assert Joined(["<think>a<"]) == "" + "<think>a<";
    assert Render(QWEN, ps, 1) == "";
  }

  lemma TrimOf(s: string)
    requires s == "a" || s == "a<"
    ensures Trim(s) == s
  {
    PrintableIsNoSpace(s[0]);
    PrintableIsNoSpace(s[|s| - 1]);
    StripIs(s, IsSpace, 0, |s|);
  }

  lemma SplitBatch(j: JsonOps, ps: seq<Piece>)
    requires ps == [Think("a")] && TagsOk(QWEN) && AllGood(QWEN, ps)
    ensures Reason(Batch(QWEN, j, Render(QWEN, ps, 0))) == "a"
  {
    hide TagsOk;
    hide Batch;
    BatchSees(QWEN, j, ps);
    TrimOf("a");
    assert Reasoned(QWEN, ps, 0, |Render(QWEN, ps, 0)|, "") == "a";
  }

  lemma SplitSends(j: JsonOps, ps: seq<Piece>, chunks: seq<string>)
    requires ps == [Think("a")] && TagsOk(QWEN) && AllGood(QWEN, ps) && Render(QWEN, ps, 0) == "<think>a</think>"
    requires |chunks| == 2 && Joined(chunks[..1]) == "<think>a<" && CutsWhole(QWEN, ps, chunks[..1])
    ensures ReasoningOf(Feed(QWEN, j, chunks[..1]).1) == "a<"
  {
    hide TagsOk;
    hide All;
    hide Feed;
    hide Joined;
    hide CutsWhole;
    FeedAddsUp(QWEN, j, ps, chunks[..1]);
    TrimOf("a<");
    assert ("a" + "</think>")[..2] == "a<";
    assert Reasoned(QWEN, ps, 0, 9, "") == "a<";
  }
}
