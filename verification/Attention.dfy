/** Reference attention: one pass per head over the cached positions with a running
    maximum and rescaling. Scores and values are generic, so the same definition
    serves the rounded arithmetic of the forward pass and exact reals. */
module Attention {
  import opened Flat

  /** `score(q, k)` is the scaled dot product, `expDiff(a, b)` is `exp(a - b)`,
      `axpy(o, v, w)` is `o + w * v`. */
  datatype AttnOps<!S, !V> = AttnOps(
    negInf: S,
    score: (seq<V>, seq<V>) -> S,
    gt: (S, S) -> bool,
    expDiff: (S, S) -> V,
    zero: V,
    add: (V, V) -> V,
    mul: (V, V) -> V,
    axpy: (V, V, V) -> V,
    positive: V -> bool,
    recip: V -> V)

  /** The loop's running state. */
  datatype Acc<S, V> = Acc(max: S, sum: V, out: seq<V>)

  datatype Shape = Shape(heads: nat, kvHeads: nat, headDim: nat) {
    predicate Ok() {
      heads > 0 && kvHeads > 0 && headDim > 0 && heads % kvHeads == 0
    }

    function KvWidth(): nat {
      kvHeads * headDim
    }

    function QWidth(): nat {
      heads * headDim
    }

    function Group(): nat
      requires Ok()
    {
      heads / kvHeads
    }
  }

  datatype Status = Done | BadShape

  // ----- Index arithmetic -----

  function Offset(s: Shape, pos: nat, kvHead: nat): nat {
    (pos * s.kvHeads + kvHead) * s.headDim
  }

  lemma OffsetBounds(s: Shape, pos: nat, kvHead: nat, n: nat)
    requires pos < n && kvHead < s.kvHeads
    ensures Offset(s, pos, kvHead) + s.headDim <= (pos + 1) * s.KvWidth() <= n * s.KvWidth()
  {
    var k, d := s.kvHeads, s.headDim;
    MulMono(pos * k + kvHead + 1, pos * k + k, d);
    assert (pos + 1) * k == pos * k + k;
    MulAssoc(pos + 1, k, d);
    MulMono(pos + 1, n, s.KvWidth());
  }

  /** Query head `head` is one of the `Group()` consecutive heads that read kv head `g`. */
  predicate ReadBy(s: Shape, g: nat, head: nat)
    requires s.Ok()
  {
    g * s.Group() <= head < (g + 1) * s.Group()
  }

  lemma KvHeadBound(s: Shape, head: nat)
    requires s.Ok() && head < s.heads
    ensures s.Group() > 0 && head / s.Group() < s.kvHeads
  {
    assert s.heads == s.kvHeads * s.Group();
    if head / s.Group() >= s.kvHeads {
      GroupsCover(head, s.Group(), s.kvHeads);
    }
  }

  lemma Quotient(head: nat, group: nat)
    requires group > 0
    ensures (head / group) * group <= head < (head / group + 1) * group
  {
  }

  /** Every query head reads one kv head. */
  lemma ReadsOne(s: Shape, g: nat, head: nat)
    requires s.Ok() && head < s.heads && ReadBy(s, g, head)
    ensures s.Group() > 0 && g == head / s.Group() < s.kvHeads
  {
    KvHeadBound(s, head);
    Quotient(head, s.Group());
    var other := head / s.Group();
    if g < other {
      MulMono(g + 1, other, s.Group());
    } else if other < g {
      MulMono(other + 1, g, s.Group());
    }
  }

  lemma GroupsCover(head: nat, group: nat, kvHeads: nat)
    requires group > 0 && head / group >= kvHeads
    ensures head >= kvHeads * group
  {
    assert head >= (head / group) * group >= kvHeads * group;
  }

  /** Slice `pos` of the cache for one kv head. */
  function Slot<V>(s: Shape, cache: seq<V>, pos: nat, kvHead: nat): (r: seq<V>)
    requires kvHead < s.kvHeads && (pos + 1) * s.KvWidth() <= |cache|
    ensures |r| == s.headDim
  {
    OffsetBounds(s, pos, kvHead, pos + 1);
    cache[Offset(s, pos, kvHead)..Offset(s, pos, kvHead) + s.headDim]
  }

  // ----- One head -----

  function Scaled<S, V>(ops: AttnOps<S, V>, out: seq<V>, f: V): seq<V> {
    seq(|out|, j requires 0 <= j < |out| => ops.mul(out[j], f))
  }

  function Rescale<S, V>(ops: AttnOps<S, V>, acc: Acc<S, V>, score: S): Acc<S, V> {
    if ops.gt(score, acc.max) then
      var f := ops.expDiff(acc.max, score);
      Acc(score, ops.mul(acc.sum, f), Scaled(ops, acc.out, f))
    else acc
  }

  function Absorb<S, V>(ops: AttnOps<S, V>, acc: Acc<S, V>, score: S, v: seq<V>): Acc<S, V>
    requires |v| == |acc.out|
  {
    var r := Rescale(ops, acc, score);
    var w := ops.expDiff(score, r.max);
    Acc(r.max, ops.add(r.sum, w), seq(|v|, j requires 0 <= j < |v| => ops.axpy(r.out[j], v[j], w)))
  }

  /** The state after the first `n` positions. */
  function HeadAcc<S, V>(ops: AttnOps<S, V>, s: Shape, keys: seq<V>, values: seq<V>, n: nat, q: seq<V>, kvHead: nat): (acc: Acc<S, V>)
    requires kvHead < s.kvHeads && n * s.KvWidth() <= |keys| && n * s.KvWidth() <= |values|
    ensures |acc.out| == s.headDim
    decreases n
  {
    if n == 0 then Acc(ops.negInf, ops.zero, seq(s.headDim, _ => ops.zero))
    else
      RowBounds(n - 1, n, s.KvWidth());
      Absorb(ops, HeadAcc(ops, s, keys, values, n - 1, q, kvHead),
             ops.score(q, Slot(s, keys, n - 1, kvHead)), Slot(s, values, n - 1, kvHead))
  }

  function Normalized<S, V>(ops: AttnOps<S, V>, acc: Acc<S, V>): seq<V> {
    if ops.positive(acc.sum) then Scaled(ops, acc.out, ops.recip(acc.sum)) else acc.out
  }

  function HeadOut<S, V>(ops: AttnOps<S, V>, s: Shape, keys: seq<V>, values: seq<V>, n: nat, q: seq<V>, kvHead: nat): (r: seq<V>)
    requires kvHead < s.kvHeads && n * s.KvWidth() <= |keys| && n * s.KvWidth() <= |values|
    ensures |r| == s.headDim
  {
    Normalized(ops, HeadAcc(ops, s, keys, values, n, q, kvHead))
  }

  // ----- All heads of one token -----

  predicate CacheHolds<V>(s: Shape, keys: seq<V>, values: seq<V>, n: nat) {
    n * s.KvWidth() <= |keys| && n * s.KvWidth() <= |values|
  }

  function HeadQuery<V>(s: Shape, q: seq<V>, head: nat): (r: seq<V>)
    requires |q| == s.QWidth() && head < s.heads
    ensures |r| == s.headDim
  {
    RowBounds(head, s.heads, s.headDim);
    q[head * s.headDim..head * s.headDim + s.headDim]
  }

  /** The first `count` heads' outputs, one after the other. */
  function Heads<S, V>(ops: AttnOps<S, V>, s: Shape, keys: seq<V>, values: seq<V>, n: nat, q: seq<V>, count: nat): (r: seq<V>)
    requires s.Ok() && CacheHolds(s, keys, values, n) && |q| == s.QWidth() && count <= s.heads
    ensures |r| == count * s.headDim
  {
    if count == 0 then []
    else
      KvHeadBound(s, count - 1);
      RowBounds(count - 1, count, s.headDim);
      Heads(ops, s, keys, values, n, q, count - 1)
      + HeadOut(ops, s, keys, values, n, HeadQuery(s, q, count - 1), (count - 1) / s.Group())
  }

  /** Attention of one query token over the first `n` cached positions. */
  function Attend<S, V>(ops: AttnOps<S, V>, s: Shape, keys: seq<V>, values: seq<V>, n: nat, q: seq<V>): (r: seq<V>)
    requires s.Ok() && CacheHolds(s, keys, values, n) && |q| == s.QWidth()
    ensures |r| == s.QWidth()
  {
    Heads(ops, s, keys, values, n, q, s.heads)
  }

  /** Coordinate `j` of query head `h` in a flat row of heads. */
  function HeadCell(s: Shape, h: nat, j: nat): (i: nat)
    requires h < s.heads && j < s.headDim
    ensures i < s.QWidth()
  {
    RowBounds(h, s.heads, s.headDim);
    h * s.headDim + j
  }

  /** Each head's output has its own place, and comes from its own query and the kv head it reads. */
  lemma {:induction false} HeadsAt<S, V>(ops: AttnOps<S, V>, s: Shape, keys: seq<V>, values: seq<V>, n: nat, q: seq<V>, count: nat,
                                         h: nat, g: nat, j: nat)
    requires s.Ok() && CacheHolds(s, keys, values, n) && |q| == s.QWidth() && count <= s.heads
    requires h < count && ReadBy(s, g, h) && j < s.headDim
    ensures g < s.kvHeads && HeadCell(s, h, j) < count * s.headDim
    ensures Heads(ops, s, keys, values, n, q, count)[HeadCell(s, h, j)]
         == HeadOut(ops, s, keys, values, n, HeadQuery(s, q, h), g)[j]
    decreases count
  {
    hide HeadOut;
    hide HeadQuery;
    ReadsOne(s, g, h);
    RowBounds(h, count, s.headDim);
    if h < count - 1 {
      HeadsAt(ops, s, keys, values, n, q, count - 1, h, g, j);
    } else {
      KvHeadBound(s, h);
    }
  }

  // ----- Only the first n positions matter -----

  lemma SlotPrefix<V>(s: Shape, a: seq<V>, b: seq<V>, n: nat, pos: nat, kvHead: nat)
    requires pos < n && kvHead < s.kvHeads && n * s.KvWidth() <= |a| && n * s.KvWidth() <= |b|
    requires a[..n * s.KvWidth()] == b[..n * s.KvWidth()]
    ensures (pos + 1) * s.KvWidth() <= n * s.KvWidth()
    ensures Slot(s, a, pos, kvHead) == Slot(s, b, pos, kvHead)
  {
    OffsetBounds(s, pos, kvHead, n);
    var lo, cut := Offset(s, pos, kvHead), n * s.KvWidth();
    assert a[lo..lo + s.headDim] == a[..cut][lo..lo + s.headDim];
    assert b[lo..lo + s.headDim] == b[..cut][lo..lo + s.headDim];
  }

  lemma {:induction false} HeadAccPrefix<S, V>(ops: AttnOps<S, V>, s: Shape, keys: seq<V>, values: seq<V>,
                                               keys': seq<V>, values': seq<V>, m: nat, n: nat, q: seq<V>, kvHead: nat)
    requires m <= n && kvHead < s.kvHeads && CacheHolds(s, keys, values, n) && CacheHolds(s, keys', values', n)
    requires keys[..n * s.KvWidth()] == keys'[..n * s.KvWidth()] && values[..n * s.KvWidth()] == values'[..n * s.KvWidth()]
    ensures m * s.KvWidth() <= n * s.KvWidth()
    ensures HeadAcc(ops, s, keys, values, m, q, kvHead) == HeadAcc(ops, s, keys', values', m, q, kvHead)
    decreases m
  {
    if m > 0 {
      HeadAccPrefix(ops, s, keys, values, keys', values', m - 1, n, q, kvHead);
      SlotPrefix(s, keys, keys', n, m - 1, kvHead);
      SlotPrefix(s, values, values', n, m - 1, kvHead);
    }
  }

  lemma {:induction false} HeadsPrefix<S, V>(ops: AttnOps<S, V>, s: Shape, keys: seq<V>, values: seq<V>,
                                             keys': seq<V>, values': seq<V>, n: nat, q: seq<V>, count: nat)
    requires s.Ok() && CacheHolds(s, keys, values, n) && CacheHolds(s, keys', values', n)
    requires |q| == s.QWidth() && count <= s.heads
    requires keys[..n * s.KvWidth()] == keys'[..n * s.KvWidth()] && values[..n * s.KvWidth()] == values'[..n * s.KvWidth()]
    ensures Heads(ops, s, keys, values, n, q, count) == Heads(ops, s, keys', values', n, q, count)
  {
    hide HeadAcc;
    hide HeadQuery;
    if count > 0 {
      HeadsPrefix(ops, s, keys, values, keys', values', n, q, count - 1);
      KvHeadBound(s, count - 1);
      HeadAccPrefix(ops, s, keys, values, keys', values', n, n, HeadQuery(s, q, count - 1), (count - 1) / s.Group());
    }
  }

  /** Causality: attention over `n` positions ignores every later key and value. */
  lemma AttendIsCausal<S, V>(ops: AttnOps<S, V>, s: Shape, keys: seq<V>, values: seq<V>,
                             keys': seq<V>, values': seq<V>, n: nat, q: seq<V>)
    requires s.Ok() && CacheHolds(s, keys, values, n) && CacheHolds(s, keys', values', n) && |q| == s.QWidth()
    requires keys[..n * s.KvWidth()] == keys'[..n * s.KvWidth()] && values[..n * s.KvWidth()] == values'[..n * s.KvWidth()]
    ensures Attend(ops, s, keys, values, n, q) == Attend(ops, s, keys', values', n, q)
  {
    HeadsPrefix(ops, s, keys, values, keys', values', n, q, s.heads);
  }

  // ----- The loops -----

  /** One head's loop, in place on `out[base..base + headDim]`. */
  method HeadInto<S, V>(ops: AttnOps<S, V>, s: Shape, keys: seq<V>, values: seq<V>, n: nat, q: seq<V>, kvHead: nat,
                        out: array<V>, base: nat)
    requires kvHead < s.kvHeads && CacheHolds(s, keys, values, n) && base + s.headDim <= out.Length
    modifies out
    ensures out[base..base + s.headDim] == HeadOut(ops, s, keys, values, n, q, kvHead)
    ensures out[..base] == old(out[..base]) && out[base + s.headDim..] == old(out[base + s.headDim..])
  {
    hide Absorb;
    hide Slot;
    hide Scaled;
    ghost var before := out[..];
    var max := ops.negInf;
    var sum := ops.zero;
    Fill(out, base, s.headDim, ops.zero);
    var pos := 0;
    while pos < n
      invariant pos <= n && pos * s.KvWidth() <= n * s.KvWidth()
      invariant out[..base] == before[..base] && out[base + s.headDim..] == before[base + s.headDim..]
      invariant Acc(max, sum, out[base..base + s.headDim]) == HeadAcc(ops, s, keys, values, pos, q, kvHead)
    {
      RowBounds(pos, n, s.KvWidth());
      max, sum := AbsorbInto(ops, ops.score(q, Slot(s, keys, pos, kvHead)), Slot(s, values, pos, kvHead), out, base, max, sum);
      pos := pos + 1;
    }
    if ops.positive(sum) {
      ScaleInPlace(ops, out, base, s.headDim, ops.recip(sum));
    }
  }

  /** One position of the loop: rescale on a new maximum, then add the weighted value. */
  method AbsorbInto<S, V>(ops: AttnOps<S, V>, score: S, v: seq<V>, out: array<V>, base: nat, max: S, sum: V)
    returns (max': S, sum': V)
    requires base + |v| <= out.Length
    modifies out
    ensures Acc(max', sum', out[base..base + |v|]) == Absorb(ops, Acc(max, sum, old(out[base..base + |v|])), score, v)
    ensures out[..base] == old(out[..base]) && out[base + |v|..] == old(out[base + |v|..])
  {
    ghost var acc := Acc(max, sum, out[base..base + |v|]);
    max', sum' := max, sum;
    if ops.gt(score, max) {
      var f := ops.expDiff(max, score);
      ScaleInPlace(ops, out, base, |v|, f);
      sum' := ops.mul(sum, f);
      max' := score;
    }
    assert Acc(max', sum', out[base..base + |v|]) == Rescale(ops, acc, score);
    var weight := ops.expDiff(score, max');
    sum' := ops.add(sum', weight);
    Axpy(ops, out, base, v, weight);
  }

  method Fill<V>(out: array<V>, base: nat, len: nat, v: V)
    requires base + len <= out.Length
    modifies out
    ensures out[base..base + len] == seq(len, _ => v)
    ensures out[..base] == old(out[..base]) && out[base + len..] == old(out[base + len..])
  {
    for j := 0 to len
      invariant forall k :: 0 <= k < out.Length ==> out[k] == if base <= k < base + j then v else old(out[k])
    {
      out[base + j] := v;
    }
  }

  method ScaleInPlace<S, V>(ops: AttnOps<S, V>, out: array<V>, base: nat, len: nat, f: V)
    requires base + len <= out.Length
    modifies out
    ensures out[base..base + len] == Scaled(ops, old(out[base..base + len]), f)
    ensures out[..base] == old(out[..base]) && out[base + len..] == old(out[base + len..])
  {
    for j := 0 to len
      invariant forall k :: 0 <= k < out.Length ==>
        out[k] == (if base <= k < base + j then ops.mul(old(out[k]), f) else old(out[k]))
    {
      out[base + j] := ops.mul(out[base + j], f);
    }
  }

  method Axpy<S, V>(ops: AttnOps<S, V>, out: array<V>, base: nat, v: seq<V>, w: V)
    requires base + |v| <= out.Length
    modifies out
    ensures out[base..base + |v|] == seq(|v|, j requires 0 <= j < |v| => ops.axpy(old(out[base..base + |v|])[j], v[j], w))
    ensures out[..base] == old(out[..base]) && out[base + |v|..] == old(out[base + |v|..])
  {
    for j := 0 to |v|
      invariant forall k :: 0 <= k < out.Length ==>
        out[k] == (if base <= k < base + j then ops.axpy(old(out[k]), v[k - base], w) else old(out[k]))
    {
      out[base + j] := ops.axpy(out[base + j], v[j], w);
    }
  }

  /** All heads of one token, into `out[base..base + QWidth]`. */
  method TokenInto<S, V>(ops: AttnOps<S, V>, s: Shape, keys: seq<V>, values: seq<V>, n: nat, q: seq<V>, out: array<V>, base: nat)
    requires s.Ok() && CacheHolds(s, keys, values, n) && |q| == s.QWidth() && base + s.QWidth() <= out.Length
    modifies out
    ensures out[base..base + s.QWidth()] == Attend(ops, s, keys, values, n, q)
    ensures out[..base] == old(out[..base]) && out[base + s.QWidth()..] == old(out[base + s.QWidth()..])
  {
    ghost var before := out[..];
    var head, at := 0, base;
    ghost var end := base + s.QWidth();
    while head < s.heads
      invariant head <= s.heads && at == base + head * s.headDim <= end
      invariant out[base..at] == Heads(ops, s, keys, values, n, q, head)
      invariant out[..base] == before[..base] && out[end..] == before[end..]
    {
      KvHeadBound(s, head);
      RowBounds(head, s.heads, s.headDim);
      HeadAfter(ops, s, keys, values, n, HeadQuery(s, q, head), head / s.Group(), out, base, at, end);
      head, at := head + 1, at + s.headDim;
    }
  }

  /** One head's output, placed after the ones already in `out[base..at]`. */
  method HeadAfter<S, V>(ops: AttnOps<S, V>, s: Shape, keys: seq<V>, values: seq<V>, n: nat, q: seq<V>, kvHead: nat,
                         out: array<V>, ghost base: nat, at: nat, ghost end: nat)
    requires kvHead < s.kvHeads && CacheHolds(s, keys, values, n)
    requires base <= at && at + s.headDim <= end <= out.Length
    modifies out
    ensures out[base..at + s.headDim] == old(out[base..at]) + HeadOut(ops, s, keys, values, n, q, kvHead)
    ensures out[..base] == old(out[..base]) && out[end..] == old(out[end..])
  {
    ghost var was := out[..];
    HeadInto(ops, s, keys, values, n, q, kvHead, out, at);
    Placed(was, out[..], base, at, s.headDim, end);
  }

  lemma Placed<V>(a: seq<V>, b: seq<V>, base: nat, at: nat, len: nat, end: nat)
    requires |a| == |b| && base <= at && at + len <= end <= |a|
    requires b[..at] == a[..at] && b[at + len..] == a[at + len..]
    ensures b[base..at + len] == a[base..at] + b[at..at + len]
    ensures b[..base] == a[..base] && b[end..] == a[end..]
  {
    assert b[base..at] == b[..at][base..] == a[..at][base..] == a[base..at];
    assert b[..base] == b[..at][..base];
    assert b[end..] == b[at + len..][end - (at + len)..];
    assert a[end..] == a[at + len..][end - (at + len)..];
  }

  /** Decode: one query over the first `n` cached positions. */
  method DecodeInto<S, V>(ops: AttnOps<S, V>, s: Shape, keys: seq<V>, values: seq<V>, n: nat, q: seq<V>, out: array<V>)
    returns (status: Status)
    modifies out
    ensures status.Done? <==> s.Ok() && |q| == out.Length == s.QWidth() && CacheHolds(s, keys, values, n)
    ensures status.Done? ==> out[..] == Attend(ops, s, keys, values, n, q)
    ensures status.BadShape? ==> out[..] == old(out[..])
  {
    if !s.Ok() || |q| != s.QWidth() || out.Length != s.QWidth() || !CacheHolds(s, keys, values, n) {
      return BadShape;
    }
    TokenInto(ops, s, keys, values, n, q, out, 0);
    assert out[..] == out[0..0 + s.QWidth()];
    return Done;
  }

  /** Prefill: token `i` of the batch attends to the first `start + i + 1` positions,
      so its row is what decode gives at that length. */
  method PrefillInto<S, V>(ops: AttnOps<S, V>, s: Shape, keys: seq<V>, values: seq<V>, start: nat, batch: nat,
                           query: seq<V>, out: array<V>) returns (status: Status)
    modifies out
    ensures status.Done? <==>
      s.Ok() && |query| == out.Length == batch * s.QWidth() && CacheHolds(s, keys, values, start + batch)
    ensures status.Done? ==> forall i: nat :: i < batch ==> PrefillRow(ops, s, keys, values, start, query, out[..], i)
    ensures status.BadShape? ==> out[..] == old(out[..])
  {
    if !s.Ok() || |query| != batch * s.QWidth() || out.Length != batch * s.QWidth()
       || !CacheHolds(s, keys, values, start + batch) {
      return BadShape;
    }
    var width := s.QWidth();
    var i := 0;
    while i < batch
      invariant i <= batch
      invariant forall t: nat :: t < i ==> PrefillRow(ops, s, keys, values, start, query, out[..], t)
    {
      RowBounds(i, batch, width);
      CacheShorter(s, keys, values, start + i + 1, start + batch);
      PrefillToken(ops, s, keys, values, start, query, out, i);
      i := i + 1;
    }
    return Done;
  }

  /** Row `i` of `out` is decode's output for row `i` of `query` at length `start + i + 1`. */
  ghost predicate PrefillRow<S, V>(ops: AttnOps<S, V>, s: Shape, keys: seq<V>, values: seq<V>, start: nat,
                                   query: seq<V>, out: seq<V>, i: nat)
  {
    && s.Ok() && CacheHolds(s, keys, values, start + i + 1)
    && (i + 1) * s.QWidth() <= |query| && (i + 1) * s.QWidth() <= |out|
    && Row(out, i, s.QWidth()) == Attend(ops, s, keys, values, start + i + 1, Row(query, i, s.QWidth()))
  }

  method PrefillToken<S, V>(ops: AttnOps<S, V>, s: Shape, keys: seq<V>, values: seq<V>, start: nat,
                            query: seq<V>, out: array<V>, i: nat)
    requires s.Ok() && CacheHolds(s, keys, values, start + i + 1)
    requires (i + 1) * s.QWidth() <= |query| && (i + 1) * s.QWidth() <= out.Length
    modifies out
    ensures PrefillRow(ops, s, keys, values, start, query, out[..], i)
    ensures forall t: nat :: t < i && PrefillRow(ops, s, keys, values, start, query, old(out[..]), t) ==>
      PrefillRow(ops, s, keys, values, start, query, out[..], t)
  {
    var width := s.QWidth();
    RowBounds(i, i + 1, width);
    ghost var before := out[..];
    TokenInto(ops, s, keys, values, start + i + 1, Row(query, i, width), out, i * width);
    assert out[..] [i * width..i * width + width] == out[i * width..i * width + width];
    forall t: nat | t < i && PrefillRow(ops, s, keys, values, start, query, before, t)
      ensures PrefillRow(ops, s, keys, values, start, query, out[..], t)
    {
      assert out[..][..i * width] == out[..i * width] == before[..i * width];
      RowKept(before, out[..], t, i, width);
    }
  }

  lemma CacheShorter<V>(s: Shape, keys: seq<V>, values: seq<V>, m: nat, n: nat)
    requires m <= n && CacheHolds(s, keys, values, n)
    ensures CacheHolds(s, keys, values, m)
  {
    assert m * s.KvWidth() <= n * s.KvWidth();
  }
}
