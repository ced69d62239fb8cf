/** Where markers can and cannot begin in text made of plain runs and marked blocks. */
module ChatMarkers {
  import opened Trimming
  import opened Strings
  import opened Wrappers
  import opened ChatParse

  // ----- Nothing begins here -----

  lemma OccursChar(s: string, i: nat, m: string, c: nat)
    requires c < |m| && i + c < |s|
    ensures OccursAt(s, i, m) ==> s[i + c] == m[c]
  {
    if OccursAt(s, i, m) {
      assert s[i..i + |m|][c] == m[c];
    }
  }

  lemma MarkerHides(a: string, rest: string, m: string)
    requires IsMarker(a) && IsMarker(m) && Clash(a, m)
    ensures NoneStarts(a, rest, m)
  {
    var c :| 0 <= c < |a| && c < |m| && a[c] != m[c];
    var s := a + rest;
    forall i: nat | i < |a| ensures !OccursAt(s, i, m) {
      if i == 0 {
        assert s[c] == a[c];
        OccursChar(s, 0, m, c);
      } else {
        assert s[i] == a[1..][i - 1];
        OccursFirst(s, i, m);
      }
    }
  }

  /** A body without `m`, followed by a marker, holds no beginning of `m`. */
  lemma BodyHides(body: string, tail: string, m: string)
    requires IsMarker(m) && tail != "" && tail[0] == '<' && Find(body, m) < 0
    ensures NoneStarts(body, tail, m)
  {
    var s := body + tail;
    forall i: nat | i < |body| ensures !OccursAt(s, i, m) {
      if i + |m| <= |body| {
        assert s[i..i + |m|] == body[i..i + |m|];
        assert !OccursAt(body, i, m);
      } else {
        var c := |body| - i;
        assert s[|body|] == '<' && m[c] == m[1..][c - 1] != '<';
        OccursChar(s, i, m, c);
      }
    }
  }

  lemma PlainIsFree(body: string, m: string)
    requires Plain(body) && IsMarker(m)
    ensures Find(body, m) < 0
  {
    PlainHasNone(body, "", m);
    HiddenIsFree(body, m);
  }

  lemma HidesJoin(a: string, b: string, rest: string, m: string)
    requires NoneStarts(a, b + rest, m) && NoneStarts(b, rest, m)
    ensures NoneStarts(a + b, rest, m)
  {
    var s := a + b + rest;
    assert s == a + (b + rest);
    forall i: nat | i < |a + b| ensures !OccursAt(s, i, m) {
      if i >= |a| {
        OccursShift(a, b + rest, i - |a|, m);
      }
    }
  }

  /** A whole block hides every marker that clashes with its own two and is not in its body. */
  lemma BlockHides(open: string, body: string, close: string, rest: string, m: string)
    requires IsMarker(open) && IsMarker(close) && IsMarker(m) && Clash(open, m) && Clash(close, m) && Find(body, m) < 0
    ensures NoneStarts(open + body + close, rest, m)
  {
    MarkerHides(close, rest, m);
    BodyHides(body, close + rest, m);
    HidesJoin(body, close, rest, m);
    MarkerHides(open, body + close + rest, m);
    assert body + close + rest == (body + close) + rest;
    HidesJoin(open, body + close, rest, m);
    assert open + body + close == open + (body + close);
  }

  /** What is hidden stays hidden when the text is cut. */
  lemma HiddenWhenCut(r: string, n: nat, m: string)
    requires n <= |r| && NoneStarts(r, "", m)
    ensures NoneStarts(r[..n], "", m)
  {
    assert r + "" == r && r[..n] + "" == r[..n];
    forall i: nat | i < n ensures !OccursAt(r[..n], i, m) {
      assert !OccursAt(r, i, m);
      if i + |m| <= n {
        assert r[..n][i..i + |m|] == r[i..i + |m|];
      }
    }
  }

  lemma HiddenIsFree(r: string, m: string)
    requires NoneStarts(r, "", m) && m != ""
    ensures Find(r, m) < 0
  {
    assert r + "" == r;
    assert forall i: nat :: i <= |r| ==> !OccursAt(r, i, m);
  }

  // ----- The next block -----

  /** A search stops at a body's closing marker. */
  lemma ClosedBlock(open: string, body: string, close: string, rest: string)
    requires IsMarker(open) && IsMarker(close) && Find(body, close) < 0
    ensures NextBlock(open + body + close + rest, open, close) == Closed("", body, rest)
  {
    var s, after := open + body + close + rest, body + (close + rest);
    assert s == open + after;
    assert s[0..0 + |open|] == open;
    FindIs(s, open, 0);
    assert s[|open|..] == after;
    BodyHides(body, close + rest, close);
    assert (close + rest)[0..0 + |close|] == close;
    FindIs(close + rest, close, 0);
    FindSkips(body, close + rest, close);
    assert after[..|body|] == body;
    assert after[|body| + |close|..] == rest;
  }

  /** An open block with an incomplete closing marker. */
  lemma OpenBlock(open: string, body: string, close: string, n: nat)
    requires IsMarker(open) && IsMarker(close) && Find(body, close) < 0 && n < |body + close|
    ensures NextBlock(open + (body + close)[..n], open, close) == Open("", (body + close)[..n])
  {
    var u := (body + close)[..n];
    var s := open + u;
    assert s[0..0 + |open|] == open;
    FindIs(s, open, 0);
    assert s[|open|..] == u;
    BodyHides(body, close, close);
    forall i: nat | i <= |u| ensures !OccursAt(u, i, close) {
      if i + |close| <= |u| {
        assert u[i..i + |close|] == (body + close)[i..i + |close|];
        assert !OccursAt(body + close, i, close);
      }
    }
  }

  lemma NoBlockHere(s: string, open: string, close: string)
    requires open != "" && NoneStarts(s, "", open)
    ensures NextBlock(s, open, close) == NoBlock
  {
    HiddenIsFree(s, open);
  }

  // ----- The passes skip what hides their marker -----

  lemma CutJoined(a: string, rest: string, k: nat)
    requires k <= |rest|
    ensures (a + rest)[|a| + k..] == rest[k..] && (a + rest)[..|a| + k] == a + rest[..k]
  {
  }

  /** A block found after a hiding part, with that part put back in front of it. */
  function InFront(a: string, block: Block): Block {
    match block
    case NoBlock => NoBlock
    case Open(before, body) => Open(a + before, body)
    case Closed(before, body, rest) => Closed(a + before, body, rest)
  }

  lemma BlockIs(s: string, open: string, close: string, at: nat, before: string, after: string)
    requires open != "" && Find(s, open) == at && s[..at] == before && s[at + |open|..] == after
    ensures NextBlock(s, open, close) == BlockAfter(before, after, close)
  {
  }

  lemma BlockBehind(a: string, rest: string, open: string, close: string, at: nat)
    requires open != "" && Find(rest, open) == at && Find(a + rest, open) == |a| + at
    ensures NextBlock(a + rest, open, close) == BlockAfter(a + rest[..at], rest[at + |open|..], close)
  {
    CutJoined(a, rest, at);
    CutJoined(a, rest, at + |open|);
    assert |a| + (at + |open|) == |a| + at + |open|;
    BlockIs(a + rest, open, close, |a| + at, a + rest[..at], rest[at + |open|..]);
  }

  lemma SkipBlock(a: string, rest: string, open: string, close: string)
    requires open != "" && NoneStarts(a, rest, open)
    ensures NextBlock(a + rest, open, close) == InFront(a, NextBlock(rest, open, close))
  {
    var at := Find(rest, open);
    FindSkips(a, rest, open);
    if at >= 0 {
      BlockBehind(a, rest, open, close, at);
      BlockIs(rest, open, close, at, rest[..at], rest[at + |open|..]);
    }
  }

  lemma Assoc(a: string, b: string, c: string)
    ensures a + (b + c) == a + b + c
  {
  }

  lemma ThinkSkips(g: Tags, a: string, rest: string, content: string, reasoning: string)
    requires Named(g) && NoneStarts(a, rest, g.thinkOpen)
    ensures ThinkPass(g, a + rest, content, reasoning) == ThinkPass(g, rest, content + a, reasoning)
  {
    SkipBlock(a, rest, g.thinkOpen, g.thinkClose);
    var block := NextBlock(rest, g.thinkOpen, g.thinkClose);
    Assoc(content, a, if block.NoBlock? then rest else block.before);
  }

  lemma CallSkips(g: Tags, j: JsonOps, a: string, rest: string, clean: string, calls: seq<ToolCall>)
    requires Named(g) && NoneStarts(a, rest, g.callOpen)
    ensures CallPass(g, j, a + rest, clean, calls) == CallPass(g, j, rest, clean + a, calls)
  {
    SkipBlock(a, rest, g.callOpen, g.callClose);
    var block := NextBlock(rest, g.callOpen, g.callClose);
    Assoc(clean, a, if block.NoBlock? then rest else block.before);
  }

  lemma CountSkips(a: string, rest: string, m: string)
    requires m != "" && NoneStarts(a, rest, m)
    ensures Count(a + rest, m) == Count(rest, m)
  {
    hide NoneStarts;
    hide Find;
    FindSkips(a, rest, m);
    var at := Find(rest, m);
    if at >= 0 {
      CutJoined(a, rest, at + |m|);
    }
  }

  lemma CountAt(m: string, rest: string)
    requires m != ""
    ensures Count(m + rest, m) == 1 + Count(rest, m)
  {
    assert (m + rest)[0..0 + |m|] == m;
    FindIs(m + rest, m, 0);
    assert (m + rest)[0 + |m|..] == rest;
  }
}
