/** Replacing placeholder spans of a token sequence by slots for encoded modality tokens. */
module Fusion {
  import opened Wrappers

  datatype Kind = Vision | Audio | Video

  datatype Span = Span(start: nat, end: nat, kind: Kind)

  /** What one encoder produced: its kind and how many tokens. */
  datatype Encoded = Encoded(kind: Kind, tokens: nat)

  /** A span paired with its encoder output, remembering the caller's order. */
  datatype Item = Item(idx: nat, span: Span, encoded: Encoded)

  datatype Error = CountMismatch | OutOfBounds | KindMismatch | Overlap

  datatype Outcome = Fused(tokens: seq<nat>, positions: seq<nat>, embeddings: seq<Encoded>) | Refused(error: Error)

  /** Not in any vocabulary. */
  const SENTINEL: nat := 0xffff_ffff

  function Items(spans: seq<Span>, encoded: seq<Encoded>): (r: seq<Item>)
    requires |spans| == |encoded|
    ensures |r| == |spans|
  {
    seq(|spans|, i requires 0 <= i < |spans| => Item(i, spans[i], encoded[i]))
  }

  // ----- The stable sort by start -----

  /** An earlier start, or the same start and earlier in the caller's order. */
  predicate Before(x: Item, y: Item) {
    x.span.start < y.span.start || (x.span.start == y.span.start && x.idx < y.idx)
  }

  predicate Sorted(s: seq<Item>) {
    forall i, j :: 0 <= i < j < |s| ==> Before(s[i], s[j])
  }

  predicate DistinctIds(s: seq<Item>) {
    forall i, j :: 0 <= i < j < |s| ==> s[i].idx != s[j].idx
  }

  /** Puts `x` after every item that starts no later. */
  function Insert(s: seq<Item>, x: Item): (r: seq<Item>)
    ensures |r| == |s| + 1 && forall y :: y in r <==> y in s || y == x
  {
    if s == [] || s[|s| - 1].span.start <= x.span.start then s + [x]
    else
      var last, rest := s[|s| - 1], Insert(s[..|s| - 1], x);
      assert s == s[..|s| - 1] + [last];
      rest + [last]
  }

  lemma {:induction false} InsertKeeps(s: seq<Item>, x: Item)
    requires Sorted(s) && DistinctIds(s) && forall y :: y in s ==> y.idx < x.idx
    ensures Sorted(Insert(s, x)) && DistinctIds(Insert(s, x))
  {
    if s != [] && s[|s| - 1].span.start > x.span.start {
      var init, last := s[..|s| - 1], s[|s| - 1];
      InsertKeeps(init, x);
      var rest := Insert(init, x);
      forall i | 0 <= i < |rest| ensures Before(rest[i], last) && rest[i].idx != last.idx {
        assert rest[i] in rest;
      }
    }
  }

  function SortUpto(items: seq<Item>, n: nat): (r: seq<Item>)
    requires n <= |items|
    ensures |r| == n && forall y :: y in r <==> y in items[..n]
  {
    if n == 0 then []
    else
      assert items[..n] == items[..n - 1] + [items[n - 1]];
      Insert(SortUpto(items, n - 1), items[n - 1])
  }

  function SortByStart(items: seq<Item>): (r: seq<Item>)
    ensures |r| == |items| && forall y :: y in r <==> y in items
  {
    assert items[..|items|] == items;
    SortUpto(items, |items|)
  }

  predicate Numbered(items: seq<Item>) {
    forall i :: 0 <= i < |items| ==> items[i].idx == i
  }

  lemma {:induction false} SortKeeps(items: seq<Item>, n: nat)
    requires Numbered(items) && n <= |items|
    ensures Sorted(SortUpto(items, n)) && DistinctIds(SortUpto(items, n))
  {
    if n > 0 {
      SortKeeps(items, n - 1);
      forall y | y in SortUpto(items, n - 1) ensures y.idx < items[n - 1].idx {
        assert y in items[..n - 1];
      }
      InsertKeeps(SortUpto(items, n - 1), items[n - 1]);
    }
  }

  // ----- The checks -----

  predicate InBounds(x: Item, len: nat) {
    x.span.start <= x.span.end <= len
  }

  predicate KindOk(x: Item) {
    x.span.kind == x.encoded.kind
  }

  /** No later item of the sequence starts before the one ahead of it ends. */
  predicate Chained(s: seq<Item>) {
    forall i :: 0 <= i < |s| - 1 ==> s[i].span.end <= s[i + 1].span.start
  }

  predicate Apart(x: Item, y: Item) {
    x.span.end <= y.span.start || y.span.end <= x.span.start
  }

  predicate PairwiseApart(s: seq<Item>) {
    forall x, y :: x in s && y in s && x.idx != y.idx ==> Apart(x, y)
  }

  /** Of any two spans, the one that comes first ends before the other starts. */
  predicate OrderedApart(s: seq<Item>) {
    forall x, y :: x in s && y in s && Before(x, y) ==> x.span.end <= y.span.start
  }

  predicate AllInBounds(s: seq<Item>, len: nat) {
    forall x :: x in s ==> InBounds(x, len)
  }

  predicate AllKindsOk(s: seq<Item>) {
    forall x :: x in s ==> KindOk(x)
  }

  predicate AllNonEmpty(s: seq<Item>) {
    forall x :: x in s ==> x.span.start < x.span.end
  }

  lemma {:induction false} ChainedSpansApart(s: seq<Item>, len: nat, i: nat, j: nat)
    requires AllInBounds(s, len) && Chained(s) && i < j < |s|
    ensures s[i].span.end <= s[j].span.start
    decreases j
  {
    if i + 1 < j {
      ChainedSpansApart(s, len, i, j - 1);
      assert InBounds(s[j - 1], len);
    }
  }

  /** Among sorted non-empty spans, comparing neighbours is enough. */
  lemma NeighboursSuffice(s: seq<Item>, len: nat)
    requires Sorted(s) && DistinctIds(s) && AllInBounds(s, len) && AllNonEmpty(s)
    ensures Chained(s) <==> PairwiseApart(s)
  {
    if Chained(s) {
      forall x, y | x in s && y in s && x.idx != y.idx ensures Apart(x, y) {
        var i :| 0 <= i < |s| && s[i] == x;
        var j :| 0 <= j < |s| && s[j] == y;
        if i < j {
          ChainedSpansApart(s, len, i, j);
        } else {
          ChainedSpansApart(s, len, j, i);
        }
      }
    }
    if PairwiseApart(s) {
      forall i | 0 <= i < |s| - 1 ensures s[i].span.end <= s[i + 1].span.start {
        assert s[i] in s && s[i + 1] in s && s[i].idx != s[i + 1].idx;
        assert Apart(s[i], s[i + 1]);
      }
    }
  }

  // ----- The fused sequence -----

  function Slots(n: nat): (r: seq<nat>)
    ensures |r| == n && forall i :: 0 <= i < n ==> r[i] == SENTINEL
  {
    seq(n, _ => SENTINEL)
  }

  predicate Walkable(s: seq<Item>, len: nat) {
    AllInBounds(s, len) && Chained(s)
  }

  /** From span `k` on, with the text consumed up to `cursor`. */
  function FusedFrom(text: seq<nat>, s: seq<Item>, k: nat, cursor: nat): seq<nat>
    requires Walkable(s, |text|) && k <= |s| && cursor <= |text| && (k < |s| ==> cursor <= s[k].span.start)
    decreases |s| - k
  {
    if k == |s| then text[cursor..]
    else
      assert InBounds(s[k], |text|);
      text[cursor..s[k].span.start] + Slots(s[k].encoded.tokens) + FusedFrom(text, s, k + 1, s[k].span.end)
  }

  function Counting(n: nat): (r: seq<nat>)
    ensures |r| == n
  {
    seq(n, i requires 0 <= i < n => i)
  }

  /** What `Fuse` returns; the embeddings stay in the caller's order. */
  function FuseSpec(text: seq<nat>, spans: seq<Span>, encoded: seq<Encoded>): Outcome {
    if |spans| != |encoded| then Refused(CountMismatch)
    else
      var s := SortByStart(Items(spans, encoded));
      match FirstBad(s, |text|, 0)
      case Some(e) => Refused(e)
      case None =>
        if !Chained(s) then Refused(Overlap)
        else
          NoneBad(s, |text|);
          var fused := FusedFrom(text, s, 0, 0);
          Fused(fused, Counting(|fused|), encoded)
  }

  /** The first failing check in sorted order. */
  function FirstBad(s: seq<Item>, len: nat, k: nat): Option<Error>
    requires k <= |s|
    decreases |s| - k
  {
    if k == |s| then None
    else if !InBounds(s[k], len) then Some(OutOfBounds)
    else if !KindOk(s[k]) then Some(KindMismatch)
    else FirstBad(s, len, k + 1)
  }

  lemma {:induction false} NoneBadFrom(s: seq<Item>, len: nat, k: nat)
    requires k <= |s|
    ensures FirstBad(s, len, k).None? <==> forall i :: k <= i < |s| ==> InBounds(s[i], len) && KindOk(s[i])
    decreases |s| - k
  {
    if k < |s| {
      NoneBadFrom(s, len, k + 1);
    }
  }

  lemma NoneBad(s: seq<Item>, len: nat)
    ensures FirstBad(s, len, 0).None? <==> AllInBounds(s, len) && AllKindsOk(s)
  {
    NoneBadFrom(s, len, 0);
    if AllInBounds(s, len) && AllKindsOk(s) {
      assert forall i :: 0 <= i < |s| ==> s[i] in s;
    }
  }

  /** Neighbours in sorted order are chained exactly when every pair is, empty spans included. */
  lemma ChainedIffOrdered(s: seq<Item>, len: nat)
    requires Sorted(s) && AllInBounds(s, len)
    ensures Chained(s) <==> OrderedApart(s)
  {
    if Chained(s) {
      forall x, y | x in s && y in s && Before(x, y) ensures x.span.end <= y.span.start {
        var i :| 0 <= i < |s| && s[i] == x;
        var j :| 0 <= j < |s| && s[j] == y;
        ChainedSpansApart(s, len, i, j);
      }
    } else {
      var i :| 0 <= i < |s| - 1 && s[i].span.end > s[i + 1].span.start;
      assert Before(s[i], s[i + 1]);
    }
  }

  /** Counts and kinds match, and the spans lie in the text. */
  predicate Matches(spans: seq<Span>, encoded: seq<Encoded>, len: nat) {
    |spans| == |encoded| && forall i :: 0 <= i < |spans| ==>
      spans[i].start <= spans[i].end <= len && spans[i].kind == encoded[i].kind
  }

  /** Span `i` comes first: an earlier start, or the same one and an earlier place in the list. */
  predicate First(spans: seq<Span>, i: nat, j: nat)
    requires i < |spans| && j < |spans|
  {
    spans[i].start < spans[j].start || (spans[i].start == spans[j].start && i < j)
  }

  lemma ItemsMatch(spans: seq<Span>, encoded: seq<Encoded>, len: nat)
    requires |spans| == |encoded|
    ensures var items := Items(spans, encoded);
      && (AllInBounds(items, len) && AllKindsOk(items) <==> Matches(spans, encoded, len))
      && (OrderedApart(items) <==>
            forall i: nat, j: nat :: i < |spans| && j < |spans| && First(spans, i, j) ==> spans[i].end <= spans[j].start)
      && (PairwiseApart(items) <==>
            forall i: nat, j: nat :: i < j < |spans| ==> spans[i].end <= spans[j].start || spans[j].end <= spans[i].start)
  {
    var items := Items(spans, encoded);
    assert forall i :: 0 <= i < |items| ==> items[i] in items;
    if AllInBounds(items, len) && AllKindsOk(items) {
      forall i | 0 <= i < |spans| ensures spans[i].start <= spans[i].end <= len && spans[i].kind == encoded[i].kind {
        assert InBounds(items[i], len) && KindOk(items[i]);
      }
    }
    if OrderedApart(items) {
      forall i: nat, j: nat | i < |spans| && j < |spans| && First(spans, i, j) ensures spans[i].end <= spans[j].start {
        assert Before(items[i], items[j]);
      }
    }
    if PairwiseApart(items) {
      forall i: nat, j: nat | i < j < |spans| ensures spans[i].end <= spans[j].start || spans[j].end <= spans[i].start {
        assert Apart(items[i], items[j]);
      }
    }
  }

  /** For any spans at all: fusion succeeds exactly when the counts and kinds match, the spans are
      in bounds, and of any two the one with the earlier start (with equal starts, the one the
      caller lists first) ends before the other starts. */
  lemma FusesIffOrdered(text: seq<nat>, spans: seq<Span>, encoded: seq<Encoded>)
    ensures FuseSpec(text, spans, encoded).Fused?
       <==> Matches(spans, encoded, |text|)
            && forall i: nat, j: nat :: i < |spans| && j < |spans| && First(spans, i, j) ==> spans[i].end <= spans[j].start
  {
    hide SortByStart;
    if |spans| == |encoded| {
      ItemsMatch(spans, encoded, |text|);
      var items := Items(spans, encoded);
      var s := SortByStart(items);
      SortedItems(items);
      NoneBad(s, |text|);
      assert AllInBounds(s, |text|) <==> AllInBounds(items, |text|);
      assert AllKindsOk(s) <==> AllKindsOk(items);
      assert OrderedApart(s) <==> OrderedApart(items);
      if AllInBounds(s, |text|) {
        ChainedIffOrdered(s, |text|);
      }
    }
  }

  /** When no span is empty, fusion succeeds exactly when the counts and kinds match and
      the spans are in bounds and pairwise apart: checking neighbours after sorting is
      as good as checking every pair. */
  lemma FusesIff(text: seq<nat>, spans: seq<Span>, encoded: seq<Encoded>)
    requires forall i :: 0 <= i < |spans| ==> spans[i].start != spans[i].end
    ensures FuseSpec(text, spans, encoded).Fused?
       <==> Matches(spans, encoded, |text|)
            && forall i: nat, j: nat :: i < j < |spans| ==> spans[i].end <= spans[j].start || spans[j].end <= spans[i].start
  {
    hide SortByStart;
    if |spans| == |encoded| {
      ItemsMatch(spans, encoded, |text|);
      var items := Items(spans, encoded);
      var s := SortByStart(items);
      SortedItems(items);
      NoneBad(s, |text|);
      assert AllInBounds(s, |text|) <==> AllInBounds(items, |text|);
      assert AllKindsOk(s) <==> AllKindsOk(items);
      assert PairwiseApart(s) <==> PairwiseApart(items);
      if AllInBounds(s, |text|) {
        NeighboursSuffice(s, |text|);
      }
    }
  }

  lemma SortedItems(items: seq<Item>)
    requires Numbered(items)
    ensures Sorted(SortByStart(items)) && DistinctIds(SortByStart(items))
  {
    SortKeeps(items, |items|);
  }

  /** An empty span at another's start is refused or accepted by the caller's order alone. */
  lemma EmptySpanDependsOnOrder(text: seq<nat>, encoded: Encoded)
    requires |text| == 5 && encoded.kind == Vision
    ensures FuseSpec(text, [Span(3, 5, Vision), Span(3, 3, Vision)], [encoded, encoded]) == Refused(Overlap)
    ensures FuseSpec(text, [Span(3, 3, Vision), Span(3, 5, Vision)], [encoded, encoded]).Fused?
  {
    var a, b := Span(3, 5, Vision), Span(3, 3, Vision);
    SortOfTwo(a, b, encoded);
    SortOfTwo(b, a, encoded);
    NoneBad(SortByStart(Items([a, b], [encoded, encoded])), 5);
    NoneBad(SortByStart(Items([b, a], [encoded, encoded])), 5);
  }

  lemma SortOfTwo(a: Span, b: Span, e: Encoded)
    requires a.start == b.start
    ensures SortByStart(Items([a, b], [e, e])) == [Item(0, a, e), Item(1, b, e)]
  {
    var items := Items([a, b], [e, e]);
    assert SortUpto(items, 1) == [items[0]];
  }

  // ----- Erasing the slots -----

  /** The first `n` tokens without sentinels. */
  function Erased(tokens: seq<nat>, n: nat): seq<nat>
    requires n <= |tokens|
  {
    if n == 0 then []
    else Erased(tokens, n - 1) + (if tokens[n - 1] == SENTINEL then [] else [tokens[n - 1]])
  }

  function Erase(tokens: seq<nat>): seq<nat> {
    Erased(tokens, |tokens|)
  }

  predicate Covered(s: seq<Item>, p: nat) {
    exists x :: x in s && x.span.start <= p < x.span.end
  }

  /** The text at positions [from, until) that no span covers. */
  function Kept(text: seq<nat>, s: seq<Item>, from: nat, until: nat): seq<nat>
    requires from <= until <= |text|
    decreases until
  {
    if from == until then []
    else Kept(text, s, from, until - 1) + (if Covered(s, until - 1) then [] else [text[until - 1]])
  }

  lemma {:induction false} ErasedPrefix(a: seq<nat>, b: seq<nat>, n: nat)
    requires a <= b && n <= |a|
    ensures Erased(a, n) == Erased(b, n)
  {
    if n > 0 {
      ErasedPrefix(a, b, n - 1);
    }
  }

  lemma {:induction false} ErasedJoin(a: seq<nat>, b: seq<nat>, n: nat)
    requires n <= |b|
    ensures Erased(a + b, |a| + n) == Erase(a) + Erased(b, n)
  {
    if n == 0 {
      ErasedPrefix(a, a + b, |a|);
    } else {
      ErasedJoin(a, b, n - 1);
    }
  }

  lemma EraseJoin(a: seq<nat>, b: seq<nat>)
    ensures Erase(a + b) == Erase(a) + Erase(b)
  {
    ErasedJoin(a, b, |b|);
  }

  lemma {:induction false} ErasedSlots(k: nat, n: nat)
    requires n <= k
    ensures Erased(Slots(k), n) == []
  {
    if n > 0 {
      ErasedSlots(k, n - 1);
    }
  }

  predicate SentinelFree(text: seq<nat>) {
    SENTINEL !in text
  }

  lemma {:induction false} ErasedText(text: seq<nat>, n: nat)
    requires SentinelFree(text) && n <= |text|
    ensures Erased(text, n) == text[..n]
  {
    if n > 0 {
      ErasedText(text, n - 1);
    }
  }

  lemma {:induction false} KeptJoin(text: seq<nat>, s: seq<Item>, a: nat, b: nat, c: nat)
    requires a <= b <= c <= |text|
    ensures Kept(text, s, a, c) == Kept(text, s, a, b) + Kept(text, s, b, c)
    decreases c
  {
    if b < c {
      KeptJoin(text, s, a, b, c - 1);
    }
  }

  lemma {:induction false} KeptAll(text: seq<nat>, s: seq<Item>, a: nat, b: nat)
    requires a <= b <= |text| && forall p :: a <= p < b ==> !Covered(s, p)
    ensures Kept(text, s, a, b) == text[a..b]
    decreases b
  {
    if a < b {
      KeptAll(text, s, a, b - 1);
    }
  }

  lemma {:induction false} KeptNone(text: seq<nat>, s: seq<Item>, a: nat, b: nat)
    requires a <= b <= |text| && forall p :: a <= p < b ==> Covered(s, p)
    ensures Kept(text, s, a, b) == []
    decreases b
  {
    if a < b {
      KeptNone(text, s, a, b - 1);
    }
  }

  /** `cursor` is where span `k` - 1 ended. */
  predicate CursorAt(s: seq<Item>, k: nat, cursor: nat) {
    k <= |s| && (if k == 0 then cursor == 0 else cursor == s[k - 1].span.end)
  }

  lemma GapIsUncovered(text: seq<nat>, s: seq<Item>, k: nat, cursor: nat, p: nat)
    requires Walkable(s, |text|) && CursorAt(s, k, cursor) && cursor <= p < |text|
    requires k < |s| ==> p < s[k].span.start
    ensures !Covered(s, p)
  {
    forall x | x in s ensures !(x.span.start <= p < x.span.end) {
      var i :| 0 <= i < |s| && s[i] == x;
      assert InBounds(s[i], |text|);
      if i < k {
        if i < k - 1 {
          ChainedSpansApart(s, |text|, i, k - 1);
          assert InBounds(s[k - 1], |text|);
        }
      } else if k < i {
        ChainedSpansApart(s, |text|, k, i);
        assert InBounds(s[k], |text|);
      }
    }
  }

  /** Erasing the slots leaves the text with the spans cut out. */
  lemma {:induction false} EraseFrom(text: seq<nat>, s: seq<Item>, k: nat, cursor: nat)
    requires Walkable(s, |text|) && CursorAt(s, k, cursor) && cursor <= |text| && SentinelFree(text)
    requires k < |s| ==> cursor <= s[k].span.start
    ensures Erase(FusedFrom(text, s, k, cursor)) == Kept(text, s, cursor, |text|)
    decreases |s| - k
  {
    hide Erase;
    hide Kept;
    hide Covered;
    if k == |s| {
      GapIsKept(text, s, k, cursor, |text|);
      assert text[cursor..] == text[cursor..|text|];
    } else {
      var x := s[k].span;
      assert InBounds(s[k], |text|);
      GapIsKept(text, s, k, cursor, x.start);
      SpanIsCut(text, s, k);
      EraseFrom(text, s, k + 1, x.end);
      EraseSlots(s[k].encoded.tokens);
      EraseThree(text[cursor..x.start], Slots(s[k].encoded.tokens), FusedFrom(text, s, k + 1, x.end));
      KeptJoin(text, s, cursor, x.start, |text|);
      KeptJoin(text, s, x.start, x.end, |text|);
      DropEmpty(text[cursor..x.start], Kept(text, s, x.end, |text|));
    }
  }

  lemma DropEmpty(a: seq<nat>, b: seq<nat>)
    ensures a + [] + b == a + b == a + ([] + b)
  {
  }

  lemma EraseSlots(n: nat)
    ensures Erase(Slots(n)) == []
  {
    ErasedSlots(n, n);
  }

  lemma EraseThree(a: seq<nat>, b: seq<nat>, c: seq<nat>)
    ensures Erase(a + b + c) == Erase(a) + Erase(b) + Erase(c)
  {
    EraseJoin(a + b, c);
    EraseJoin(a, b);
  }

  /** Text before span `k` is kept, and has no sentinel to erase. */
  lemma GapIsKept(text: seq<nat>, s: seq<Item>, k: nat, cursor: nat, until: nat)
    requires Walkable(s, |text|) && CursorAt(s, k, cursor) && cursor <= until <= |text| && SentinelFree(text)
    requires k < |s| ==> until <= s[k].span.start
    ensures Kept(text, s, cursor, until) == text[cursor..until] == Erase(text[cursor..until])
  {
    hide Covered;
    forall p | cursor <= p < until ensures !Covered(s, p) {
      GapIsUncovered(text, s, k, cursor, p);
    }
    KeptAll(text, s, cursor, until);
    ErasedText(text[cursor..until], until - cursor);
  }

  lemma SpanIsCut(text: seq<nat>, s: seq<Item>, k: nat)
    requires k < |s| && InBounds(s[k], |text|)
    ensures Kept(text, s, s[k].span.start, s[k].span.end) == []
  {
    assert s[k] in s;
    KeptNone(text, s, s[k].span.start, s[k].span.end);
  }

  // ----- Where the slots are -----

  /** Where the part from span `k` on begins in the fused sequence. */
  function PartStart(s: seq<Item>, k: nat): int
    requires k <= |s|
  {
    if k == 0 then 0
    else
      PartStart(s, k - 1) + (s[k - 1].span.start - (if k == 1 then 0 else s[k - 2].span.end)) + s[k - 1].encoded.tokens
  }

  lemma {:induction false} PartAt(text: seq<nat>, s: seq<Item>, k: nat, cursor: nat)
    requires Walkable(s, |text|) && CursorAt(s, k, cursor)
    ensures cursor <= |text| && (k < |s| ==> cursor <= s[k].span.start)
    ensures 0 <= PartStart(s, k) <= |FusedFrom(text, s, 0, 0)|
    ensures FusedFrom(text, s, 0, 0)[PartStart(s, k)..] == FusedFrom(text, s, k, cursor)
    decreases k
  {
    if k > 0 {
      assert InBounds(s[k - 1], |text|);
      var before := if k == 1 then 0 else s[k - 2].span.end;
      PartAt(text, s, k - 1, before);
      var all, part := FusedFrom(text, s, 0, 0), FusedFrom(text, s, k - 1, before);
      var head := text[before..s[k - 1].span.start] + Slots(s[k - 1].encoded.tokens);
      assert part == head + FusedFrom(text, s, k, cursor);
      assert part[|head|..] == FusedFrom(text, s, k, cursor);
      assert all[PartStart(s, k)..] == all[PartStart(s, k - 1)..][|head|..];
    }
  }

  /** Span `k` in start order owns a run of slots of its encoder's length, right after the
      text before it. */
  lemma SlotsOf(text: seq<nat>, s: seq<Item>, k: nat, cursor: nat)
    requires Walkable(s, |text|) && k < |s| && CursorAt(s, k, cursor)
    ensures
      var fused, at, n := FusedFrom(text, s, 0, 0), PartStart(s, k + 1) - s[k].encoded.tokens, s[k].encoded.tokens;
      && at >= 0 && at + n <= |fused| && fused[at..at + n] == Slots(n)
      && cursor <= s[k].span.start <= |text|
      && at - (s[k].span.start - cursor) >= 0
      && fused[at - (s[k].span.start - cursor)..at] == text[cursor..s[k].span.start]
  {
    PartAt(text, s, k, cursor);
    assert InBounds(s[k], |text|);
    var fused, p, gap, n := FusedFrom(text, s, 0, 0), PartStart(s, k), s[k].span.start - cursor, s[k].encoded.tokens;
    var part := FusedFrom(text, s, k, cursor);
    assert part[..gap] == text[cursor..s[k].span.start] && part[gap..gap + n] == Slots(n);
    SliceOfTail(fused, p, 0, gap);
    SliceOfTail(fused, p, gap, gap + n);
  }

  lemma SliceOfTail(a: seq<nat>, p: nat, x: nat, y: nat)
    requires p <= |a| && x <= y <= |a| - p
    ensures a[p..][x..y] == a[p + x..p + y]
  {
  }

  /** The whole result: slots erased, positions, and the caller's embeddings. */
  lemma FusedIsFaithful(text: seq<nat>, spans: seq<Span>, encoded: seq<Encoded>)
    requires FuseSpec(text, spans, encoded).Fused? && SentinelFree(text)
    ensures
      var r, items := FuseSpec(text, spans, encoded), Items(spans, encoded);
      && Erase(r.tokens) == Kept(text, items, 0, |text|)
      && r.positions == Counting(|r.tokens|)
      && r.embeddings == encoded
  {
    hide SortByStart;
    var items := Items(spans, encoded);
    var s := SortByStart(items);
    NoneBad(s, |text|);
    EraseFrom(text, s, 0, 0);
    SameCover(text, s, items, |text|);
  }

  /** Where the slots of the `k`-th span in start order are: right after the text between the span
      before it and its own start, and as many as its encoder produced. */
  lemma FusedSlots(text: seq<nat>, spans: seq<Span>, encoded: seq<Encoded>, k: nat) returns (at: nat)
    requires FuseSpec(text, spans, encoded).Fused? && k < |spans|
    ensures
      var tokens, s := FuseSpec(text, spans, encoded).tokens, SortByStart(Items(spans, encoded));
      var cursor, n := if k == 0 then 0 else s[k - 1].span.end, s[k].encoded.tokens;
      && Sorted(s) && s[k] in Items(spans, encoded)
      && cursor <= s[k].span.start <= |text| && s[k].span.start - cursor <= at && at + n <= |tokens|
      && tokens[at - (s[k].span.start - cursor)..at] == text[cursor..s[k].span.start]
      && tokens[at..at + n] == Slots(n)
  {
    hide SortByStart;
    hide FuseSpec;
    hide FusedFrom;
    hide PartStart;
    hide Slots;
    hide Walkable;
    hide Sorted;
    FusedIs(text, spans, encoded);
    var items := Items(spans, encoded);
    var s := SortByStart(items);
    SortedItems(items);
    assert s[k] in s;
    SlotsOf(text, s, k, if k == 0 then 0 else s[k - 1].span.end);
    at := PartStart(s, k + 1) - s[k].encoded.tokens;
  }

  lemma FusedIs(text: seq<nat>, spans: seq<Span>, encoded: seq<Encoded>)
    requires FuseSpec(text, spans, encoded).Fused?
    ensures |spans| == |encoded|
    ensures
      var s := SortByStart(Items(spans, encoded));
      Walkable(s, |text|) && FuseSpec(text, spans, encoded).tokens == FusedFrom(text, s, 0, 0)
  {
    hide SortByStart;
    hide FusedFrom;
    NoneBad(SortByStart(Items(spans, encoded)), |text|);
  }

  lemma {:induction false} SameCover(text: seq<nat>, s: seq<Item>, t: seq<Item>, n: nat)
    requires n <= |text| && forall x :: x in s <==> x in t
    ensures Kept(text, s, 0, n) == Kept(text, t, 0, n)
  {
    if n > 0 {
      SameCover(text, s, t, n - 1);
    }
  }

  // ----- The caller's order again -----

  predicate Ascending(s: seq<Item>) {
    forall i, j :: 0 <= i < j < |s| ==> s[i].idx < s[j].idx
  }

  function InsertById(s: seq<Item>, x: Item): (r: seq<Item>)
    ensures |r| == |s| + 1 && forall y :: y in r <==> y in s || y == x
  {
    if s == [] || s[|s| - 1].idx <= x.idx then s + [x]
    else
      var last, rest := s[|s| - 1], InsertById(s[..|s| - 1], x);
      assert s == s[..|s| - 1] + [last];
      rest + [last]
  }

  function SortById(s: seq<Item>): (r: seq<Item>)
    ensures |r| == |s| && forall y :: y in r <==> y in s
  {
    if s == [] then []
    else
      assert s == s[..|s| - 1] + [s[|s| - 1]];
      InsertById(SortById(s[..|s| - 1]), s[|s| - 1])
  }

  lemma {:induction false} InsertByIdKeeps(s: seq<Item>, x: Item)
    requires Ascending(s) && forall y :: y in s ==> y.idx != x.idx
    ensures Ascending(InsertById(s, x))
  {
    if s != [] && s[|s| - 1].idx > x.idx {
      var init, last := s[..|s| - 1], s[|s| - 1];
      InsertByIdKeeps(init, x);
      var rest := InsertById(init, x);
      forall i | 0 <= i < |rest| ensures rest[i].idx < last.idx {
        assert rest[i] in rest;
      }
    } else if s != [] {
      assert s[|s| - 1] in s;
    }
  }

  lemma {:induction false} SortByIdAscends(s: seq<Item>)
    requires DistinctIds(s)
    ensures Ascending(SortById(s))
  {
    if s != [] {
      var init, last := s[..|s| - 1], s[|s| - 1];
      SortByIdAscends(init);
      forall y | y in SortById(init) ensures y.idx != last.idx {
        var i :| 0 <= i < |init| && init[i] == y;
      }
      InsertByIdKeeps(SortById(init), last);
    }
  }

  /** Ascending ids below a sequence's length leave no gap. */
  lemma {:induction false} IdAtLeast(s: seq<Item>, k: nat)
    requires Ascending(s) && k < |s|
    ensures s[k].idx >= k
  {
    if k > 0 {
      IdAtLeast(s, k - 1);
    }
  }

  lemma {:induction false} IdAtMost(s: seq<Item>, k: nat)
    requires Ascending(s) && k < |s| && forall x :: x in s ==> x.idx < |s|
    ensures s[k].idx <= k
    decreases |s| - k
  {
    assert s[k] in s;
    if k + 1 < |s| {
      IdAtMost(s, k + 1);
    }
  }

  function EncodedOf(s: seq<Item>): (r: seq<Encoded>)
    ensures |r| == |s|
  {
    seq(|s|, i requires 0 <= i < |s| => s[i].encoded)
  }

  /** Sorting the fused spans by their original index restores the caller's list. */
  lemma RestoredIsCallers(spans: seq<Span>, encoded: seq<Encoded>)
    requires |spans| == |encoded|
    ensures EncodedOf(SortById(SortByStart(Items(spans, encoded)))) == encoded
  {
    hide SortByStart;
    hide SortById;
    var items := Items(spans, encoded);
    var s := SortByStart(items);
    SortedItems(items);
    SortByIdAscends(s);
    var r := SortById(s);
    forall k: nat | k < |r| ensures r[k] == items[k] {
      assert r[k] in r;
      IdAtLeast(r, k);
      IdAtMost(r, k);
    }
  }

  // ----- The loops -----

  /** Appends tokens, numbering each slot. */
  method Append(fused: seq<nat>, positions: seq<nat>, next: nat, more: seq<nat>)
    returns (fused': seq<nat>, positions': seq<nat>, next': nat)
    requires |fused| == next && positions == Counting(next)
    ensures fused' == fused + more && next' == next + |more| && positions' == Counting(next')
  {
    fused', positions', next' := fused, positions, next;
    for i := 0 to |more|
      invariant fused' == fused + more[..i] && next' == next + i && positions' == Counting(next')
    {
      fused', positions', next' := fused' + [more[i]], positions' + [next'], next' + 1;
      assert more[..i + 1] == more[..i] + [more[i]];
    }
    assert more[..|more|] == more;
  }

  method CheckSpans(s: seq<Item>, len: nat) returns (error: Option<Error>)
    ensures error == FirstBad(s, len, 0)
  {
    for k := 0 to |s|
      invariant FirstBad(s, len, 0) == FirstBad(s, len, k)
    {
      if !InBounds(s[k], len) {
        return Some(OutOfBounds);
      }
      if !KindOk(s[k]) {
        return Some(KindMismatch);
      }
    }
    return None;
  }

  method CheckNeighbours(s: seq<Item>) returns (ok: bool)
    ensures ok <==> Chained(s)
  {
    var k := 0;
    while k + 1 < |s|
      invariant forall i :: 0 <= i < k && i < |s| - 1 ==> s[i].span.end <= s[i + 1].span.start
    {
      if s[k].span.end > s[k + 1].span.start {
        return false;
      }
      k := k + 1;
    }
    return true;
  }

  method Fuse(text: seq<nat>, spans: seq<Span>, encoded: seq<Encoded>) returns (r: Outcome)
    ensures r == FuseSpec(text, spans, encoded)
  {
    if |spans| != |encoded| {
      return Refused(CountMismatch);
    }
    var s := SortByStart(Items(spans, encoded));
    var error := CheckSpans(s, |text|);
    if error.Some? {
      return Refused(error.value);
    }
    var ok := CheckNeighbours(s);
    if !ok {
      return Refused(Overlap);
    }
    NoneBad(s, |text|);
    var fused, positions := Walk(text, s);
    RestoredIsCallers(spans, encoded);
    return Fused(fused, positions, EncodedOf(SortById(s)));
  }

  method Walk(text: seq<nat>, s: seq<Item>) returns (fused: seq<nat>, positions: seq<nat>)
    requires Walkable(s, |text|)
    ensures fused == FusedFrom(text, s, 0, 0) && positions == Counting(|fused|)
  {
    var cursor: nat, next: nat := 0, 0;
    fused, positions := [], [];
    for k := 0 to |s|
      invariant CursorAt(s, k, cursor) && cursor <= |text| && (k < |s| ==> cursor <= s[k].span.start)
      invariant |fused| == next && positions == Counting(next)
      invariant fused + FusedFrom(text, s, k, cursor) == FusedFrom(text, s, 0, 0)
    {
      assert InBounds(s[k], |text|);
      ghost var gap, slots := text[cursor..s[k].span.start], Slots(s[k].encoded.tokens);
      Regroup(fused, gap, slots, FusedFrom(text, s, k + 1, s[k].span.end));
      fused, positions, next := Append(fused, positions, next, text[cursor..s[k].span.start]);
      fused, positions, next := Append(fused, positions, next, Slots(s[k].encoded.tokens));
      cursor := s[k].span.end;
    }
    fused, positions, next := Append(fused, positions, next, text[cursor..]);
  }

  lemma Regroup(a: seq<nat>, b: seq<nat>, c: seq<nat>, d: seq<nat>)
    ensures a + (b + c + d) == a + b + c + d
  {
  }
}
