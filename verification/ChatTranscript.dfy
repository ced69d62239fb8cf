/** Transcripts of prose, think blocks and tool calls, and what the parsers see of one
    that has arrived only in part. */
module ChatTranscript {
  import opened Trimming
  import opened Strings
  import opened Wrappers
  import opened ChatParse
  import opened ChatMarkers

  datatype Piece = Prose(text: string) | Think(body: string) | Call(body: string)

  /** Prose and thoughts have no '<'; a call has a function name, no think marker and no
      closing marker of its own inside. */
  predicate Good(g: Tags, p: Piece) {
    match p
    case Prose(text) => Plain(text)
    case Think(body) => Plain(body)
    case Call(body) => Find(body, g.thinkOpen) < 0 && Find(body, g.callClose) < 0 && Header(body).Some?
  }

  predicate AllGood(g: Tags, ps: seq<Piece>) {
    forall p :: p in ps ==> Good(g, p)
  }

  function Rendered(g: Tags, p: Piece): string {
    match p
    case Prose(text) => text
    case Think(body) => g.thinkOpen + body + g.thinkClose
    case Call(body) => g.callOpen + body + g.callClose
  }

  /** The text of the pieces from `i` on. */
  function Render(g: Tags, ps: seq<Piece>, i: nat): string
    requires i <= |ps|
    decreases |ps| - i
  {
    if i == |ps| then "" else Rendered(g, ps[i]) + Render(g, ps, i + 1)
  }

  // ----- What the first `n` characters amount to -----

  /** The text left after removing think blocks. */
  function Unthought(g: Tags, ps: seq<Piece>, i: nat, n: nat): string
    requires i <= |ps| && n <= |Render(g, ps, i)|
    decreases |ps| - i
  {
    if i == |ps| then ""
    else
      var r := Rendered(g, ps[i]);
      if n < |r| then UnthoughtCut(g, ps[i], n)
      else (if ps[i].Think? then "" else r) + Unthought(g, ps, i + 1, n - |r|)
  }

  function UnthoughtCut(g: Tags, p: Piece, n: nat): string
    requires n < |Rendered(g, p)|
  {
    match p
    case Prose(text) => text[..n]
    case Think(_) => if n < |g.thinkOpen| then g.thinkOpen[..n] else ""
    case Call(_) => Rendered(g, p)[..n]
  }

  /** The reasoning, after `buf` from earlier pieces. */
  function Reasoned(g: Tags, ps: seq<Piece>, i: nat, n: nat, buf: string): string
    requires i <= |ps| && n <= |Render(g, ps, i)|
    decreases |ps| - i
  {
    if i == |ps| then buf
    else
      var r := Rendered(g, ps[i]);
      if n < |r| then ReasonedCut(g, ps[i], n, buf)
      else Reasoned(g, ps, i + 1, n - |r|, ReasonedFull(ps[i], buf))
  }

  function ReasonedCut(g: Tags, p: Piece, n: nat, buf: string): string
    requires n < |Rendered(g, p)|
  {
    if p.Think? && n >= |g.thinkOpen| then AddThought(buf, Trim((p.body + g.thinkClose)[..n - |g.thinkOpen|])) else buf
  }

  function ReasonedFull(p: Piece, buf: string): string {
    if p.Think? then AddThought(buf, Trim(p.body)) else buf
  }

  /** The text left after removing tool calls as well. */
  function Clean(g: Tags, ps: seq<Piece>, i: nat, n: nat): string
    requires i <= |ps| && n <= |Render(g, ps, i)|
    decreases |ps| - i
  {
    if i == |ps| then ""
    else
      var r := Rendered(g, ps[i]);
      if n < |r| then CleanCut(g, ps[i], n)
      else (if ps[i].Prose? then r else "") + Clean(g, ps, i + 1, n - |r|)
  }

  function CleanCut(g: Tags, p: Piece, n: nat): string
    requires n < |Rendered(g, p)|
  {
    match p
    case Prose(text) => text[..n]
    case Think(_) => if n < |g.thinkOpen| then g.thinkOpen[..n] else ""
    case Call(_) => if n < |g.callOpen| then g.callOpen[..n] else ""
  }

  /** The calls whose closing marker has arrived, after `calls` from earlier pieces. */
  function Called(g: Tags, j: JsonOps, ps: seq<Piece>, i: nat, n: nat, calls: seq<ToolCall>): seq<ToolCall>
    requires i <= |ps| && n <= |Render(g, ps, i)|
    decreases |ps| - i
  {
    if i == |ps| || n < |Rendered(g, ps[i])| then calls
    else
      Called(g, j, ps, i + 1, n - |Rendered(g, ps[i])|, if ps[i].Call? then AddCall(j, calls, ps[i].body) else calls)
  }

  // ----- The think pass -----

  /** Past the whole of piece `i`, what has arrived is that piece and part of the rest. */
  lemma CutPast(g: Tags, ps: seq<Piece>, i: nat, n: nat)
    requires i < |ps| && |Rendered(g, ps[i])| <= n <= |Render(g, ps, i)|
    ensures Render(g, ps, i)[..n] == Rendered(g, ps[i]) + Render(g, ps, i + 1)[..n - |Rendered(g, ps[i])|]
  {
  }

  lemma CutWithin(g: Tags, ps: seq<Piece>, i: nat, n: nat)
    requires i < |ps| && n < |Rendered(g, ps[i])|
    ensures n <= |Render(g, ps, i)| && Render(g, ps, i)[..n] == Rendered(g, ps[i])[..n]
  {
  }

  lemma PieceHidesThink(g: Tags, p: Piece, rest: string)
    requires TagsOk(g) && Good(g, p) && !p.Think?
    ensures NoneStarts(Rendered(g, p), rest, g.thinkOpen)
  {
    match p
    case Prose(text) => PlainHasNone(text, rest, g.thinkOpen);
    case Call(body) =>
      ClashSym(g.thinkOpen, g.callOpen);
      ClashSym(g.thinkOpen, g.callClose);
      BlockHides(g.callOpen, body, g.callClose, rest, g.thinkOpen);
  }

  lemma ClashSym(a: string, b: string)
    requires Clash(a, b)
    ensures Clash(b, a)
  {
    var i :| 0 <= i < |a| && i < |b| && a[i] != b[i];
    assert b[i] != a[i];
  }

  lemma ThinkWhole(g: Tags, body: string, rest: string, content: string, reasoning: string)
    requires TagsOk(g) && Plain(body)
    ensures ThinkPass(g, g.thinkOpen + body + g.thinkClose + rest, content, reasoning)
         == ThinkPass(g, rest, content, AddThought(reasoning, Trim(body)))
  {
    PlainIsFree(body, g.thinkClose);
    ClosedBlock(g.thinkOpen, body, g.thinkClose, rest);
    assert content + "" == content;
  }

  lemma ThinkCut(g: Tags, p: Piece, n: nat, content: string, reasoning: string)
    requires TagsOk(g) && Good(g, p) && n < |Rendered(g, p)|
    ensures ThinkPass(g, Rendered(g, p)[..n], content, reasoning)
         == (content + UnthoughtCut(g, p, n), ReasonedCut(g, p, n, reasoning))
  {
    var s := Rendered(g, p)[..n];
    if p.Think? {
      ThinkBlockCut(g, p.body, n, content, reasoning);
    } else {
      PieceHidesThink(g, p, "");
      HiddenWhenCut(Rendered(g, p), n, g.thinkOpen);
      NoBlockHere(s, g.thinkOpen, g.thinkClose);
    }
  }

  lemma ThinkBlockCut(g: Tags, body: string, n: nat, content: string, reasoning: string)
    requires TagsOk(g) && Plain(body) && n < |g.thinkOpen + body + g.thinkClose|
    ensures ThinkPass(g, (g.thinkOpen + body + g.thinkClose)[..n], content, reasoning)
         == (content + UnthoughtCut(g, Think(body), n), ReasonedCut(g, Think(body), n, reasoning))
  {
    var s := (g.thinkOpen + body + g.thinkClose)[..n];
    if n < |g.thinkOpen| {
      assert s == g.thinkOpen[..n];
      TooShort(s, g.thinkOpen);
      NoBlockHere(s, g.thinkOpen, g.thinkClose);
    } else {
      var k := n - |g.thinkOpen|;
      assert s == g.thinkOpen + (body + g.thinkClose)[..k];
      PlainIsFree(body, g.thinkClose);
      OpenBlock(g.thinkOpen, body, g.thinkClose, k);
      assert content + "" == content;
    }
  }

  lemma TooShort(s: string, m: string)
    requires |s| < |m|
    ensures NoneStarts(s, "", m)
  {
    assert s + "" == s;
  }

  /** The think pass over the first `n` characters. */
  lemma {:induction false} ThinkPassSees(g: Tags, ps: seq<Piece>, i: nat, n: nat, content: string, reasoning: string)
    requires TagsOk(g) && AllGood(g, ps) && i <= |ps| && n <= |Render(g, ps, i)|
    ensures ThinkPass(g, Render(g, ps, i)[..n], content, reasoning)
         == (content + Unthought(g, ps, i, n), Reasoned(g, ps, i, n, reasoning))
    decreases |ps| - i
  {
    if i == |ps| {
      TooShort("", g.thinkOpen);
      NoBlockHere("", g.thinkOpen, g.thinkClose);
    } else {
      var r := Rendered(g, ps[i]);
      assert Good(g, ps[i]);
      if n < |r| {
        CutWithin(g, ps, i, n);
        ThinkCut(g, ps[i], n, content, reasoning);
      } else {
        CutPast(g, ps, i, n);
        ThinkPast(g, ps, i, n, content, reasoning);
      }
    }
  }

  lemma ThinkPast(g: Tags, ps: seq<Piece>, i: nat, n: nat, content: string, reasoning: string)
    requires TagsOk(g) && AllGood(g, ps) && i < |ps| && |Rendered(g, ps[i])| <= n <= |Render(g, ps, i)|
    ensures ThinkPass(g, Rendered(g, ps[i]) + Render(g, ps, i + 1)[..n - |Rendered(g, ps[i])|], content, reasoning)
         == (content + Unthought(g, ps, i, n), Reasoned(g, ps, i, n, reasoning))
    decreases |ps| - i, 0
  {
    var p, r := ps[i], Rendered(g, ps[i]);
    var left := n - |r|;
    var rest := Render(g, ps, i + 1)[..left];
    assert Good(g, p);
    if p.Think? {
      ThinkWhole(g, p.body, rest, content, reasoning);
      ThinkPassSees(g, ps, i + 1, left, content, AddThought(reasoning, Trim(p.body)));
      assert "" + Unthought(g, ps, i + 1, left) == Unthought(g, ps, i + 1, left);
    } else {
      PieceHidesThink(g, p, rest);
      ThinkSkips(g, r, rest, content, reasoning);
      ThinkPassSees(g, ps, i + 1, left, content + r, reasoning);
      Assoc(content, r, Unthought(g, ps, i + 1, left));
    }
  }

  // ----- The call pass -----

  lemma CallWhole(g: Tags, j: JsonOps, body: string, rest: string, clean: string, calls: seq<ToolCall>)
    requires TagsOk(g) && Find(body, g.callClose) < 0
    ensures CallPass(g, j, g.callOpen + body + g.callClose + rest, clean, calls)
         == CallPass(g, j, rest, clean, AddCall(j, calls, body))
  {
    ClosedBlock(g.callOpen, body, g.callClose, rest);
    assert clean + "" == clean;
  }

  /** A proper beginning of another marker hides `m`. */
  lemma BeginningHides(o: string, k: nat, m: string)
    requires IsMarker(o) && IsMarker(m) && k < |o| && (o == m || Clash(o, m))
    ensures NoneStarts(o[..k], "", m)
  {
    if o == m {
      TooShort(o[..k], m);
    } else {
      MarkerHides(o, "", m);
      HiddenWhenCut(o, k, m);
    }
  }

  lemma CallBlockCut(g: Tags, j: JsonOps, body: string, n: nat, clean: string, calls: seq<ToolCall>)
    requires TagsOk(g) && Find(body, g.callClose) < 0 && n < |g.callOpen + body + g.callClose|
    ensures CallPass(g, j, (g.callOpen + body + g.callClose)[..n], clean, calls)
         == (clean + CleanCut(g, Call(body), n), calls)
  {
    var s := (g.callOpen + body + g.callClose)[..n];
    if n < |g.callOpen| {
      assert s == g.callOpen[..n];
      TooShort(s, g.callOpen);
      NoBlockHere(s, g.callOpen, g.callClose);
    } else {
      var k := n - |g.callOpen|;
      assert s == g.callOpen + (body + g.callClose)[..k];
      OpenBlock(g.callOpen, body, g.callClose, k);
      assert clean + "" == clean;
    }
  }

  lemma CallCut(g: Tags, j: JsonOps, p: Piece, n: nat, clean: string, calls: seq<ToolCall>)
    requires TagsOk(g) && Good(g, p) && n < |Rendered(g, p)|
    ensures CallPass(g, j, UnthoughtCut(g, p, n), clean, calls) == (clean + CleanCut(g, p, n), calls)
  {
    var s := UnthoughtCut(g, p, n);
    match p
    case Call(body) => CallBlockCut(g, j, body, n, clean, calls);
    case Prose(text) =>
      PlainHasNone(text[..n], "", g.callOpen);
      NoBlockHere(s, g.callOpen, g.callClose);
    case Think(_) =>
      if n < |g.thinkOpen| {
        BeginningHides(g.thinkOpen, n, g.callOpen);
      } else {
        TooShort("", g.callOpen);
      }
      NoBlockHere(s, g.callOpen, g.callClose);
  }

  /** The call pass over what the think pass leaves of the first `n` characters. */
  lemma {:induction false} CallPassSees(g: Tags, j: JsonOps, ps: seq<Piece>, i: nat, n: nat, clean: string, calls: seq<ToolCall>)
    requires TagsOk(g) && AllGood(g, ps) && i <= |ps| && n <= |Render(g, ps, i)|
    ensures CallPass(g, j, Unthought(g, ps, i, n), clean, calls)
         == (clean + Clean(g, ps, i, n), Called(g, j, ps, i, n, calls))
    decreases |ps| - i
  {
    if i == |ps| {
      TooShort("", g.callOpen);
      NoBlockHere("", g.callOpen, g.callClose);
    } else {
      assert Good(g, ps[i]);
      if n < |Rendered(g, ps[i])| {
        CallCut(g, j, ps[i], n, clean, calls);
      } else {
        CallPast(g, j, ps, i, n, clean, calls);
      }
    }
  }

  lemma CallPast(g: Tags, j: JsonOps, ps: seq<Piece>, i: nat, n: nat, clean: string, calls: seq<ToolCall>)
    requires TagsOk(g) && AllGood(g, ps) && i < |ps| && |Rendered(g, ps[i])| <= n <= |Render(g, ps, i)|
    ensures CallPass(g, j, Unthought(g, ps, i, n), clean, calls)
         == (clean + Clean(g, ps, i, n), Called(g, j, ps, i, n, calls))
    decreases |ps| - i, 0
  {
    hide CallPass;
    hide Unthought;
    hide Clean;
    hide Called;
    hide AddCall;
    hide TagsOk;
    var p, left := ps[i], n - |Rendered(g, ps[i])|;
    var kept, calls' := if p.Prose? then p.text else "", if p.Call? then AddCall(j, calls, p.body) else calls;
    assert Good(g, p);
    CallPiece(g, j, p, Unthought(g, ps, i + 1, left), clean, calls);
    CallPassSees(g, j, ps, i + 1, left, clean + kept, calls');
    PastUnfolds(g, j, ps, i, n, clean, calls);
  }

  lemma PastUnfolds(g: Tags, j: JsonOps, ps: seq<Piece>, i: nat, n: nat, clean: string, calls: seq<ToolCall>)
    requires i < |ps| && |Rendered(g, ps[i])| <= n <= |Render(g, ps, i)|
    ensures
      var p, left := ps[i], n - |Rendered(g, ps[i])|;
      var kept, calls' := if p.Prose? then p.text else "", if p.Call? then AddCall(j, calls, p.body) else calls;
      && Unthought(g, ps, i, n) == (if p.Think? then "" else Rendered(g, p)) + Unthought(g, ps, i + 1, left)
      && clean + Clean(g, ps, i, n) == clean + kept + Clean(g, ps, i + 1, left)
      && Called(g, j, ps, i, n, calls) == Called(g, j, ps, i + 1, left, calls')
  {
    Assoc(clean, if ps[i].Prose? then ps[i].text else "", Clean(g, ps, i + 1, n - |Rendered(g, ps[i])|));
  }

  /** One whole piece under the call pass. */
  lemma CallPiece(g: Tags, j: JsonOps, p: Piece, rest: string, clean: string, calls: seq<ToolCall>)
    requires TagsOk(g) && Good(g, p)
    ensures CallPass(g, j, (if p.Think? then "" else Rendered(g, p)) + rest, clean, calls)
         == CallPass(g, j, rest, clean + (if p.Prose? then p.text else ""), if p.Call? then AddCall(j, calls, p.body) else calls)
  {
    assert clean + "" == clean && "" + rest == rest;
    match p
    case Prose(text) =>
      PlainHasNone(text, rest, g.callOpen);
      CallSkips(g, j, text, rest, clean, calls);
    case Think(_) =>
    case Call(body) => CallWhole(g, j, body, rest, clean, calls);
  }

  // ----- Closing markers -----

  /** How many calls are complete. */
  function ClosedCalls(g: Tags, ps: seq<Piece>, i: nat, n: nat): nat
    requires i <= |ps| && n <= |Render(g, ps, i)|
    decreases |ps| - i
  {
    if i == |ps| || n < |Rendered(g, ps[i])| then 0
    else (if ps[i].Call? then 1 else 0) + ClosedCalls(g, ps, i + 1, n - |Rendered(g, ps[i])|)
  }

  /** Every complete call is in the list. */
  lemma {:induction false} CalledCount(g: Tags, j: JsonOps, ps: seq<Piece>, i: nat, n: nat, calls: seq<ToolCall>)
    requires AllGood(g, ps) && i <= |ps| && n <= |Render(g, ps, i)|
    ensures |Called(g, j, ps, i, n, calls)| == |calls| + ClosedCalls(g, ps, i, n)
    decreases |ps| - i
  {
    if i < |ps| && n >= |Rendered(g, ps[i])| {
      assert Good(g, ps[i]);
      CalledCount(g, j, ps, i + 1, n - |Rendered(g, ps[i])|, if ps[i].Call? then AddCall(j, calls, ps[i].body) else calls);
    }
  }

  lemma PieceHidesClose(g: Tags, p: Piece, rest: string)
    requires TagsOk(g) && Good(g, p) && !p.Call?
    ensures NoneStarts(Rendered(g, p), rest, g.callClose)
  {
    match p
    case Prose(text) => PlainHasNone(text, rest, g.callClose);
    case Think(body) =>
      PlainIsFree(body, g.callClose);
      BlockHides(g.thinkOpen, body, g.thinkClose, rest, g.callClose);
  }

  lemma CountCut(g: Tags, p: Piece, n: nat)
    requires TagsOk(g) && Good(g, p) && n < |Rendered(g, p)|
    ensures Count(Rendered(g, p)[..n], g.callClose) == 0
  {
    var r, m := Rendered(g, p), g.callClose;
    if p.Call? {
      CountCallCut(g, p.body, n);
    } else {
      PieceHidesClose(g, p, "");
      HiddenWhenCut(r, n, m);
      HiddenIsFree(r[..n], m);
    }
  }

  lemma CountCallCut(g: Tags, body: string, n: nat)
    requires TagsOk(g) && Find(body, g.callClose) < 0 && n < |g.callOpen + body + g.callClose|
    ensures Count((g.callOpen + body + g.callClose)[..n], g.callClose) == 0
  {
    var m := g.callClose;
    var r := g.callOpen + body + m;
    MarkerHides(g.callOpen, body + m, m);
    BodyHides(body, m, m);
    HidesJoin(g.callOpen, body, m, m);
    var s := r[..n];
    forall i: nat | i <= |s| ensures !OccursAt(s, i, m) {
      if i + |m| <= |s| {
        assert s[i..i + |m|] == r[i..i + |m|];
        assert !OccursAt(r, i, m);
      }
    }
  }

  lemma {:induction false} CountSees(g: Tags, ps: seq<Piece>, i: nat, n: nat)
    requires TagsOk(g) && AllGood(g, ps) && i <= |ps| && n <= |Render(g, ps, i)|
    ensures Count(Render(g, ps, i)[..n], g.callClose) == ClosedCalls(g, ps, i, n)
    decreases |ps| - i
  {
    if i == |ps| {
      TooShort("", g.callClose);
      HiddenIsFree("", g.callClose);
    } else {
      var p, r := ps[i], Rendered(g, ps[i]);
      assert Good(g, p);
      if n < |r| {
        CutWithin(g, ps, i, n);
        CountCut(g, p, n);
      } else {
        CutPast(g, ps, i, n);
        var rest := Render(g, ps, i + 1)[..n - |r|];
        CountSees(g, ps, i + 1, n - |r|);
        CountPast(g, p, rest);
      }
    }
  }

  lemma CountPast(g: Tags, p: Piece, rest: string)
    requires TagsOk(g) && Good(g, p)
    ensures Count(Rendered(g, p) + rest, g.callClose) == (if p.Call? then 1 else 0) + Count(rest, g.callClose)
  {
    if p.Call? {
      CountCall(g.callOpen, p.body, g.callClose, rest);
    } else {
      PieceHidesClose(g, p, rest);
      CountSkips(Rendered(g, p), rest, g.callClose);
    }
  }

  lemma CountCall(open: string, body: string, m: string, rest: string)
    requires IsMarker(open) && IsMarker(m) && Clash(open, m) && Find(body, m) < 0
    ensures Count(open + body + m + rest, m) == 1 + Count(rest, m)
  {
    var tail := m + rest;
    MarkerHides(open, body + tail, m);
    BodyHides(body, tail, m);
    HidesJoin(open, body, tail, m);
    CountSkips(open + body, tail, m);
    Assoc(open + body, m, rest);
    CountAt(m, rest);
  }

  // ----- The content -----

  /** The prose among the first `n` characters. */
  function ProseOf(g: Tags, ps: seq<Piece>, i: nat, n: nat): string
    requires i <= |ps| && n <= |Render(g, ps, i)|
    decreases |ps| - i
  {
    if i == |ps| then ""
    else
      var r := Rendered(g, ps[i]);
      if n < |r| then (if ps[i].Prose? then r[..n] else "")
      else (if ps[i].Prose? then r else "") + ProseOf(g, ps, i + 1, n - |r|)
  }

  /** The beginning of a marker that the cut has left at the end, if any. */
  function Dangling(g: Tags, ps: seq<Piece>, i: nat, n: nat): string
    requires i <= |ps| && n <= |Render(g, ps, i)|
    decreases |ps| - i
  {
    if i == |ps| then ""
    else if n < |Rendered(g, ps[i])| then (if ps[i].Prose? then "" else CleanCut(g, ps[i], n))
    else Dangling(g, ps, i + 1, n - |Rendered(g, ps[i])|)
  }

  predicate Begins(q: string, o: string) {
    |q| < |o| && q == o[..|q|]
  }

  lemma {:induction false} CleanSplits(g: Tags, ps: seq<Piece>, i: nat, n: nat)
    requires i <= |ps| && n <= |Render(g, ps, i)|
    ensures Clean(g, ps, i, n) == ProseOf(g, ps, i, n) + Dangling(g, ps, i, n)
    decreases |ps| - i
  {
    if i < |ps| {
      var r := Rendered(g, ps[i]);
      if n >= |r| {
        CleanSplits(g, ps, i + 1, n - |r|);
        Assoc(if ps[i].Prose? then r else "", ProseOf(g, ps, i + 1, n - |r|), Dangling(g, ps, i + 1, n - |r|));
      }
    }
  }

  lemma {:induction false} ProseIsPlain(g: Tags, ps: seq<Piece>, i: nat, n: nat)
    requires AllGood(g, ps) && i <= |ps| && n <= |Render(g, ps, i)|
    ensures Plain(ProseOf(g, ps, i, n))
    decreases |ps| - i
  {
    if i < |ps| {
      var r := Rendered(g, ps[i]);
      assert Good(g, ps[i]);
      if n >= |r| {
        ProseIsPlain(g, ps, i + 1, n - |r|);
      }
    }
  }

  lemma {:induction false} DanglingBegins(g: Tags, ps: seq<Piece>, i: nat, n: nat)
    requires TagsOk(g) && i <= |ps| && n <= |Render(g, ps, i)|
    ensures Begins(Dangling(g, ps, i, n), g.thinkOpen) || Begins(Dangling(g, ps, i, n), g.callOpen)
    decreases |ps| - i
  {
    if i < |ps| && n >= |Rendered(g, ps[i])| {
      DanglingBegins(g, ps, i + 1, n - |Rendered(g, ps[i])|);
    }
  }

  lemma CleanIs(g: Tags, ps: seq<Piece>, n: nat)
    requires TagsOk(g) && AllGood(g, ps) && n <= |Render(g, ps, 0)|
    ensures Clean(g, ps, 0, n) == ProseOf(g, ps, 0, n) + Dangling(g, ps, 0, n)
    ensures Plain(ProseOf(g, ps, 0, n))
    ensures Begins(Dangling(g, ps, 0, n), g.thinkOpen) || Begins(Dangling(g, ps, 0, n), g.callOpen)
  {
    CleanSplits(g, ps, 0, n);
    ProseIsPlain(g, ps, 0, n);
    DanglingBegins(g, ps, 0, n);
  }

  /** Plain text and a marker's beginning hold no whole marker. */
  lemma NoMarkerIn(text: string, q: string, o: string, m: string)
    requires Plain(text) && Begins(q, o) && IsMarker(o) && IsMarker(m) && (o == m || Clash(o, m))
    ensures Find(text + q, m) < 0 && Remove(text + q, m) == text + q
  {
    PlainHasNone(text, q, m);
    FindSkips(text, q, m);
    BeginningHides(o, |q|, m);
    HiddenIsFree(q, m);
  }

  lemma StripsNothing(g: Tags, text: string, q: string)
    requires TagsOk(g) && Plain(text) && (Begins(q, g.thinkOpen) || Begins(q, g.callOpen))
    ensures StripTags(g, text + q) == text + q
  {
    var o := if Begins(q, g.thinkOpen) then g.thinkOpen else g.callOpen;
    ClashSym(g.thinkOpen, g.callOpen);
    ClashSym(g.thinkClose, g.callOpen);
    NoMarkerIn(text, q, o, g.callOpen);
    NoMarkerIn(text, q, o, g.callClose);
    NoMarkerIn(text, q, o, g.thinkOpen);
    NoMarkerIn(text, q, o, g.thinkClose);
  }

  /** Only the dangling beginning is trimmed. */
  lemma TrimsDangling(g: Tags, text: string, q: string)
    requires TagsOk(g) && Plain(text) && (Begins(q, g.thinkOpen) || Begins(q, g.callOpen))
    ensures TrimPartial(g, text + q) == text
  {
    var s := text + q;
    assert |q| > 0 ==> TailPartial(g, s, |q|) by {
      assert s[|s| - |q|..] == q;
    }
    forall k | |q| < k <= |s| ensures !TailPartial(g, s, k) {
      assert s[|s| - k] == text[|s| - k];
      TailFirst(s, g.callOpen, k);
      TailFirst(s, g.callClose, k);
      TailFirst(s, g.thinkOpen, k);
      TailFirst(s, g.thinkClose, k);
    }
    LongestPartialIs(g, s, |q|);
    assert s[..|text|] == text;
  }

  lemma TailFirst(s: string, m: string, k: nat)
    requires IsMarker(m) && 0 < k <= |s|
    ensures TailBegins(s, m, k) ==> s[|s| - k] == '<'
  {
    if TailBegins(s, m, k) {
      assert s[|s| - k..][0] == m[..k][0];
    }
  }

  // ----- What the parsers return -----

  /** What the streaming parser should report after `n` characters. */
  function Seen(g: Tags, j: JsonOps, ps: seq<Piece>, n: nat): Parsed
    requires n <= |Render(g, ps, 0)|
  {
    Parsed(TrimEnd(ProseOf(g, ps, 0, n)), NonEmpty(Reasoned(g, ps, 0, n, "")), Called(g, j, ps, 0, n, []))
  }

  lemma ExtractedIs(g: Tags, j: JsonOps, ps: seq<Piece>, n: nat)
    requires TagsOk(g) && AllGood(g, ps) && n <= |Render(g, ps, 0)|
    ensures Extracted(g, j, Render(g, ps, 0)[..n])
         == Parsed(ProseOf(g, ps, 0, n) + Dangling(g, ps, 0, n), NonEmpty(Reasoned(g, ps, 0, n, "")), Called(g, j, ps, 0, n, []))
  {
    ThinkPassSees(g, ps, 0, n, "", "");
    var left := Unthought(g, ps, 0, n);
    assert "" + left == left;
    CallPassSees(g, j, ps, 0, n, "", []);
    assert "" + Clean(g, ps, 0, n) == Clean(g, ps, 0, n);
    CleanIs(g, ps, n);
    StripsNothing(g, ProseOf(g, ps, 0, n), Dangling(g, ps, 0, n));
  }

  /** The streaming parser on any part of a transcript, cut anywhere. */
  lemma StreamingSees(g: Tags, j: JsonOps, ps: seq<Piece>, n: nat)
    requires TagsOk(g) && AllGood(g, ps) && n <= |Render(g, ps, 0)|
    ensures Streaming(g, j, Render(g, ps, 0)[..n]) == Seen(g, j, ps, n)
    ensures Count(Render(g, ps, 0)[..n], g.callClose) == |Seen(g, j, ps, n).calls|
  {
    ExtractedIs(g, j, ps, n);
    CleanIs(g, ps, n);
    TrimsDangling(g, ProseOf(g, ps, 0, n), Dangling(g, ps, 0, n));
    CountSees(g, ps, 0, n);
    CalledCount(g, j, ps, 0, n, []);
  }

  lemma {:induction false} NothingDangles(g: Tags, ps: seq<Piece>, i: nat)
    requires i <= |ps|
    ensures Dangling(g, ps, i, |Render(g, ps, i)|) == ""
    decreases |ps| - i
  {
    if i < |ps| {
      NothingDangles(g, ps, i + 1);
    }
  }

  /** The batch parser on the whole transcript. */
  lemma BatchSees(g: Tags, j: JsonOps, ps: seq<Piece>)
    requires TagsOk(g) && AllGood(g, ps)
    ensures
      var n := |Render(g, ps, 0)|;
      Batch(g, j, Render(g, ps, 0))
      == Parsed(Trim(ProseOf(g, ps, 0, n)), NonEmpty(Reasoned(g, ps, 0, n, "")), Called(g, j, ps, 0, n, []))
  {
    var n := |Render(g, ps, 0)|;
    assert Render(g, ps, 0)[..n] == Render(g, ps, 0);
    ExtractedIs(g, j, ps, n);
    NothingDangles(g, ps, 0);
    assert ProseOf(g, ps, 0, n) + "" == ProseOf(g, ps, 0, n);
  }
}
