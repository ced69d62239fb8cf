/** The CPU transformer's forward pass on values: one token through all layers, and a
    chunk of tokens layer by layer, with the result that the two orders agree. */
module Forward {
  import opened Floats
  import L = Linear
  import A = Attention
  import opened Interchange

  /** `rmsAt(h, w, i)` is element `i` of the normalised row, `ropeAt(x, pos, heads, headDim, i)`
      element `i` of the rotated row, `swiglu(g, u)` is `silu(g) * u`. */
  datatype Ops = Ops(
    lin: L.LinearOps,
    attn: A.AttnOps<Float, Float>,
    rmsAt: (seq<Float>, seq<Float>, nat) -> Float,
    ropeAt: (seq<Float>, nat, nat, nat, nat) -> Float,
    add: (Float, Float) -> Float,
    swiglu: (Float, Float) -> Float,
    logits: seq<Float> -> seq<Float>)

  datatype Layer = Layer(inputNorm: seq<Float>, postNorm: seq<Float>, q: L.Linear, k: L.Linear, v: L.Linear,
                         o: L.Linear, gate: L.Linear, up: L.Linear, down: L.Linear)

  datatype Model = Model(hidden: nat, intermediate: nat, shape: A.Shape, embed: seq<seq<Float>>, finalNorm: seq<Float>,
                         layers: seq<Layer>, ctx: nat)
  {
    predicate Valid() {
      && shape.Ok()
      && (forall t :: 0 <= t < |embed| ==> |embed[t]| == hidden)
      && (forall l :: l in layers ==> Fits(l))
    }

    /** The layer's projections chain, and their input scales are ordered floats. */
    predicate Fits(l: Layer) {
      && Joins(l.q, hidden, shape.QWidth())
      && Joins(l.k, hidden, shape.KvWidth())
      && Joins(l.v, hidden, shape.KvWidth())
      && Joins(l.o, shape.QWidth(), hidden)
      && Joins(l.gate, hidden, intermediate)
      && Joins(l.up, hidden, intermediate)
      && Joins(l.down, intermediate, hidden)
    }

    predicate Joins(lin: L.Linear, cols: nat, rows: nat) {
      lin.Valid() && lin.Sized() && lin.cols == cols && lin.rows == rows
    }
  }

  /** No projection's input scale is a NaN. */
  ghost predicate Ordered(ops: Ops, m: Model) {
    forall l :: l in m.layers ==> OrderedLayer(ops, l)
  }

  predicate OrderedLayer(ops: Ops, l: Layer) {
    && L.Ordered(ops.lin, l.q.inputScale) && L.Ordered(ops.lin, l.k.inputScale) && L.Ordered(ops.lin, l.v.inputScale)
    && L.Ordered(ops.lin, l.o.inputScale) && L.Ordered(ops.lin, l.gate.inputScale) && L.Ordered(ops.lin, l.up.inputScale)
    && L.Ordered(ops.lin, l.down.inputScale)
  }

  /** One layer's cache. */
  datatype Kv = Kv(keys: seq<Float>, values: seq<Float>, seqLen: nat)

  datatype State = State(position: nat, kvs: seq<Kv>)

  predicate KvOk(m: Model, kv: Kv) {
    |kv.keys| == |kv.values| == kv.seqLen * m.shape.KvWidth()
  }

  /** Every layer has cached exactly the tokens processed so far. */
  predicate InStep(m: Model, s: State) {
    && |s.kvs| == |m.layers|
    && forall j :: 0 <= j < |s.kvs| ==> KvAt(m, s.kvs[j], s.position)
  }

  predicate KvAt(m: Model, kv: Kv, position: nat) {
    KvOk(m, kv) && kv.seqLen == position
  }

  // ----- Row operations -----

  function Rms(ops: Ops, h: seq<Float>, weight: seq<Float>): (r: seq<Float>)
    ensures |r| == |h|
  {
    seq(|h|, i requires 0 <= i < |h| => ops.rmsAt(h, weight, i))
  }

  function Rope(ops: Ops, x: seq<Float>, position: nat, heads: nat, headDim: nat): (r: seq<Float>)
    ensures |r| == |x|
  {
    seq(|x|, i requires 0 <= i < |x| => ops.ropeAt(x, position, heads, headDim, i))
  }

  function Add(ops: Ops, a: seq<Float>, b: seq<Float>): (r: seq<Float>)
    requires |a| == |b|
    ensures |r| == |a|
  {
    seq(|a|, i requires 0 <= i < |a| => ops.add(a[i], b[i]))
  }

  function Swiglu(ops: Ops, gate: seq<Float>, up: seq<Float>): (r: seq<Float>)
    requires |gate| == |up|
    ensures |r| == |gate|
  {
    seq(|gate|, i requires 0 <= i < |gate| => ops.swiglu(gate[i], up[i]))
  }

  // ----- One layer, one token -----

  function Query(ops: Ops, m: Model, l: Layer, h: seq<Float>, position: nat): (r: seq<Float>)
    requires m.Fits(l) && |h| == m.hidden
    ensures |r| == m.shape.QWidth()
  {
    Rope(ops, L.MatVec(ops.lin, l.q, Rms(ops, h, l.inputNorm)), position, m.shape.heads, m.shape.headDim)
  }

  function KeyOf(ops: Ops, m: Model, l: Layer, h: seq<Float>, position: nat): (r: seq<Float>)
    requires m.Fits(l) && |h| == m.hidden
    ensures |r| == m.shape.KvWidth()
  {
    Rope(ops, L.MatVec(ops.lin, l.k, Rms(ops, h, l.inputNorm)), position, m.shape.kvHeads, m.shape.headDim)
  }

  function ValueOf(ops: Ops, m: Model, l: Layer, h: seq<Float>): (r: seq<Float>)
    requires m.Fits(l) && |h| == m.hidden
    ensures |r| == m.shape.KvWidth()
  {
    L.MatVec(ops.lin, l.v, Rms(ops, h, l.inputNorm))
  }

  function Residual(ops: Ops, m: Model, l: Layer, h: seq<Float>, context: seq<Float>): (r: seq<Float>)
    requires m.Fits(l) && |h| == m.hidden && |context| == m.shape.QWidth()
    ensures |r| == m.hidden
  {
    Add(ops, h, L.MatVec(ops.lin, l.o, context))
  }

  function Mlp(ops: Ops, m: Model, l: Layer, residual: seq<Float>): (r: seq<Float>)
    requires m.Fits(l) && |residual| == m.hidden
    ensures |r| == m.hidden
  {
    var normed := Rms(ops, residual, l.postNorm);
    L.MatVec(ops.lin, l.down,
             Swiglu(ops, L.MatVec(ops.lin, l.gate, normed), L.MatVec(ops.lin, l.up, normed)))
  }

  /** Everything after attention. */
  function Finish(ops: Ops, m: Model, l: Layer, h: seq<Float>, context: seq<Float>): (r: seq<Float>)
    requires m.Fits(l) && |h| == m.hidden && |context| == m.shape.QWidth()
    ensures |r| == m.hidden
  {
    var residual := Residual(ops, m, l, h, context);
    Add(ops, residual, Mlp(ops, m, l, residual))
  }

  function Pushed(kv: Kv, key: seq<Float>, value: seq<Float>): Kv {
    Kv(kv.keys + key, kv.values + value, kv.seqLen + 1)
  }

  function StepKv(ops: Ops, m: Model, l: Layer, h: seq<Float>, position: nat, kv: Kv): (r: Kv)
    requires m.Fits(l) && |h| == m.hidden && KvOk(m, kv)
    ensures KvOk(m, r) && r.seqLen == kv.seqLen + 1
  {
    NextLen(kv.seqLen, m.shape.KvWidth());
    Pushed(kv, KeyOf(ops, m, l, h, position), ValueOf(ops, m, l, h))
  }

  lemma NextLen(n: nat, width: nat)
    ensures (n + 1) * width == n * width + width
  {
  }

  function StepHidden(ops: Ops, m: Model, l: Layer, h: seq<Float>, position: nat, kv: Kv): (r: seq<Float>)
    requires m.shape.Ok() && m.Fits(l) && |h| == m.hidden && KvOk(m, kv)
    ensures |r| == m.hidden
  {
    seq(m.hidden, i requires 0 <= i < m.hidden => Decoded(ops, m, l, h, position, StepKv(ops, m, l, h, position, kv))[i])
  }

  /** The layer's output for a token whose key and value are already in the cache. */
  function Decoded(ops: Ops, m: Model, l: Layer, h: seq<Float>, position: nat, cache: Kv): (r: seq<Float>)
    requires m.shape.Ok() && m.Fits(l) && |h| == m.hidden && KvOk(m, cache)
    ensures |r| == m.hidden
  {
    Finish(ops, m, l, h,
           A.Attend(ops.attn, m.shape, cache.keys, cache.values, cache.seqLen, Query(ops, m, l, h, position)))
  }

  /** A layer applied to one token, for the generic loops. The guard holds throughout a
      run from a consistent state (`PassShapes`). */
  function StepOf(ops: Ops, m: Model): Step<Layer, seq<Float>, Kv> {
    (l: Layer, h: seq<Float>, position: nat, kv: Kv) =>
      if Ready(m, l, h, kv) then (StepHidden(ops, m, l, h, position, kv), StepKv(ops, m, l, h, position, kv)) else (h, kv)
  }

  predicate Ready(m: Model, l: Layer, h: seq<Float>, kv: Kv) {
    m.shape.Ok() && m.Fits(l) && |h| == m.hidden && KvOk(m, kv)
  }

  // ----- One layer, many tokens -----

  predicate AllHidden(m: Model, hs: seq<seq<Float>>) {
    forall i :: 0 <= i < |hs| ==> |hs[i]| == m.hidden
  }

  /** The layer's cache after pushing every token of the chunk. */
  function ChunkKv(ops: Ops, m: Model, l: Layer, hs: seq<seq<Float>>, start: nat, kv: Kv): (r: Kv)
    requires m.Fits(l) && AllHidden(m, hs) && KvOk(m, kv)
    ensures KvOk(m, r) && r.seqLen == kv.seqLen + |hs|
    decreases |hs|
  {
    if hs == [] then kv
    else
      var n := |hs| - 1;
      StepKv(ops, m, l, hs[n], start + n, ChunkKv(ops, m, l, hs[..n], start, kv))
  }

  lemma ChunkHolds(m: Model, kv: Kv, position: nat)
    requires KvOk(m, kv) && position <= kv.seqLen
    ensures A.CacheHolds(m.shape, kv.keys, kv.values, position)
  {
    A.CacheShorter(m.shape, kv.keys, kv.values, position, kv.seqLen);
  }

  /** Batched: the chunk's keys and values are all in the cache before any token attends,
      and the token at `position` looks at the first `position + 1` of them. */
  function BatchRow(ops: Ops, m: Model, l: Layer, h: seq<Float>, cache: Kv, position: nat): (r: seq<Float>)
    requires m.shape.Ok() && m.Fits(l) && |h| == m.hidden && KvOk(m, cache) && position < cache.seqLen
    ensures |r| == m.hidden
  {
    seq(m.hidden, i requires 0 <= i < m.hidden => Batched(ops, m, l, h, cache, position)[i])
  }

  function Batched(ops: Ops, m: Model, l: Layer, h: seq<Float>, cache: Kv, position: nat): (r: seq<Float>)
    requires m.shape.Ok() && m.Fits(l) && |h| == m.hidden && KvOk(m, cache) && position < cache.seqLen
    ensures |r| == m.hidden
  {
    ChunkHolds(m, cache, position + 1);
    Finish(ops, m, l, h,
           A.Attend(ops.attn, m.shape, cache.keys, cache.values, position + 1, Query(ops, m, l, h, position)))
  }

  function BatchHidden(ops: Ops, m: Model, l: Layer, hs: seq<seq<Float>>, start: nat, kv: Kv): (r: seq<seq<Float>>)
    requires m.shape.Ok() && m.Fits(l) && AllHidden(m, hs) && KvAt(m, kv, start)
    ensures |r| == |hs| && AllHidden(m, r)
  {
    var cache := ChunkKv(ops, m, l, hs, start, kv);
    seq(|hs|, i requires 0 <= i < |hs| => BatchRow(ops, m, l, hs[i], cache, start + i))
  }

  // ----- A batched layer is its tokens one by one -----

  lemma {:induction false} ChunkKvIsState(ops: Ops, m: Model, l: Layer, hs: seq<seq<Float>>, start: nat, kv: Kv)
    requires m.shape.Ok() && m.Fits(l) && AllHidden(m, hs) && KvOk(m, kv)
    ensures LayerState(StepOf(ops, m), l, hs, start, kv) == ChunkKv(ops, m, l, hs, start, kv)
    decreases |hs|
  {
    if hs != [] {
      ChunkKvIsState(ops, m, l, hs[..|hs| - 1], start, kv);
    }
  }

  lemma {:induction false} LayerRowsAt(ops: Ops, m: Model, l: Layer, hs: seq<seq<Float>>, start: nat, kv: Kv, i: nat)
    requires m.shape.Ok() && m.Fits(l) && AllHidden(m, hs) && KvOk(m, kv) && i < |hs|
    ensures LayerRows(StepOf(ops, m), l, hs, start, kv)[i]
         == StepHidden(ops, m, l, hs[i], start + i, ChunkKv(ops, m, l, hs[..i], start, kv))
    decreases |hs|
  {
    var n := |hs| - 1;
    if i < n {
      assert hs[..n][..i] == hs[..i];
      LayerRowsAt(ops, m, l, hs[..n], start, kv, i);
    } else {
      ChunkKvIsState(ops, m, l, hs[..n], start, kv);
    }
  }

  /** Later tokens only extend the cache. */
  lemma {:induction false} ChunkKvGrows(ops: Ops, m: Model, l: Layer, hs: seq<seq<Float>>, start: nat, kv: Kv, i: nat)
    requires m.Fits(l) && AllHidden(m, hs) && KvOk(m, kv) && i <= |hs|
    ensures ChunkKv(ops, m, l, hs[..i], start, kv).keys <= ChunkKv(ops, m, l, hs, start, kv).keys
    ensures ChunkKv(ops, m, l, hs[..i], start, kv).values <= ChunkKv(ops, m, l, hs, start, kv).values
    decreases |hs|
  {
    if i == |hs| {
      assert hs[..i] == hs;
    } else {
      var n := |hs| - 1;
      ChunkKvGrows(ops, m, l, hs[..n], start, kv, i);
      assert hs[..n][..i] == hs[..i];
    }
  }

  lemma ChunkKvStep(ops: Ops, m: Model, l: Layer, hs: seq<seq<Float>>, start: nat, kv: Kv, i: nat)
    requires m.Fits(l) && AllHidden(m, hs) && KvOk(m, kv) && i < |hs|
    ensures ChunkKv(ops, m, l, hs[..i + 1], start, kv)
         == StepKv(ops, m, l, hs[i], start + i, ChunkKv(ops, m, l, hs[..i], start, kv))
  {
    assert hs[..i + 1][..i] == hs[..i];
  }

  lemma ChunkKvExtends(ops: Ops, m: Model, l: Layer, hs: seq<seq<Float>>, start: nat, kv: Kv, i: nat, before: Kv, all: Kv)
    requires m.Fits(l) && AllHidden(m, hs) && KvAt(m, kv, start) && i < |hs|
    requires before == ChunkKv(ops, m, l, hs[..i], start, kv) && all == ChunkKv(ops, m, l, hs, start, kv)
    ensures KvAt(m, before, start + i) && KvAt(m, all, start + |hs|)
    ensures StepKv(ops, m, l, hs[i], start + i, before).keys <= all.keys
    ensures StepKv(ops, m, l, hs[i], start + i, before).values <= all.values
  {
    ChunkKvGrows(ops, m, l, hs, start, kv, i + 1);
    ChunkKvStep(ops, m, l, hs, start, kv, i);
  }

  lemma BatchRowIsStep(ops: Ops, m: Model, l: Layer, h: seq<Float>, position: nat, before: Kv, all: Kv)
    requires m.shape.Ok() && m.Fits(l) && |h| == m.hidden && KvAt(m, before, position)
    requires KvOk(m, all) && position < all.seqLen
    requires StepKv(ops, m, l, h, position, before).keys <= all.keys
    requires StepKv(ops, m, l, h, position, before).values <= all.values
    ensures BatchRow(ops, m, l, h, all, position) == StepHidden(ops, m, l, h, position, before)
  {
    var cache := StepKv(ops, m, l, h, position, before);
    ChunkHolds(m, all, position + 1);
    A.AttendIsCausal(ops.attn, m.shape, cache.keys, cache.values, all.keys, all.values, position + 1,
                     Query(ops, m, l, h, position));
    assert Batched(ops, m, l, h, all, position) == Decoded(ops, m, l, h, position, cache);
  }

  lemma BatchRowAgrees(ops: Ops, m: Model, l: Layer, hs: seq<seq<Float>>, start: nat, kv: Kv, i: nat, all: Kv)
    requires m.shape.Ok() && m.Fits(l) && AllHidden(m, hs) && KvAt(m, kv, start) && i < |hs|
    requires all == ChunkKv(ops, m, l, hs, start, kv) && start + i < all.seqLen
    ensures LayerRows(StepOf(ops, m), l, hs, start, kv)[i] == BatchRow(ops, m, l, hs[i], all, start + i)
  {
    var before := ChunkKv(ops, m, l, hs[..i], start, kv);
    LayerRowsAt(ops, m, l, hs, start, kv, i);
    assert BatchRow(ops, m, l, hs[i], all, start + i) == StepHidden(ops, m, l, hs[i], start + i, before) by {
      ChunkKvExtends(ops, m, l, hs, start, kv, i, before, all);
      BatchRowIsStep(ops, m, l, hs[i], start + i, before, all);
    }
  }

  /** A causal prefill row is a decode step: batching the tokens of one layer changes nothing. */
  lemma BatchIsSequential(ops: Ops, m: Model, l: Layer, hs: seq<seq<Float>>, start: nat, kv: Kv)
    requires m.shape.Ok() && m.Fits(l) && AllHidden(m, hs) && KvAt(m, kv, start)
    ensures LayerRows(StepOf(ops, m), l, hs, start, kv) == BatchHidden(ops, m, l, hs, start, kv)
    ensures LayerState(StepOf(ops, m), l, hs, start, kv) == ChunkKv(ops, m, l, hs, start, kv)
  {
    ChunkKvIsState(ops, m, l, hs, start, kv);
    var rows := LayerRows(StepOf(ops, m), l, hs, start, kv);
    var all := ChunkKv(ops, m, l, hs, start, kv);
    forall i: nat | i < |hs| ensures rows[i] == BatchRow(ops, m, l, hs[i], all, start + i) {
      BatchRowAgrees(ops, m, l, hs, start, kv, i, all);
    }
  }

  // ----- Shapes are kept -----

  ghost predicate Layered(m: Model, layers: seq<Layer>, kvs: seq<Kv>, position: nat) {
    && m.shape.Ok() && |kvs| == |layers|
    && (forall j :: 0 <= j < |layers| ==> m.Fits(layers[j]))
    && (forall j :: 0 <= j < |kvs| ==> KvAt(m, kvs[j], position))
  }

  lemma StepShapes(ops: Ops, m: Model, l: Layer, h: seq<Float>, position: nat, kv: Kv)
    requires m.shape.Ok() && m.Fits(l) && |h| == m.hidden && KvAt(m, kv, position)
    ensures |StepOf(ops, m)(l, h, position, kv).0| == m.hidden
    ensures KvAt(m, StepOf(ops, m)(l, h, position, kv).1, position + 1)
  {
  }

  lemma {:induction false} ThroughShapes(ops: Ops, m: Model, layers: seq<Layer>, h: seq<Float>, position: nat, kvs: seq<Kv>)
    requires Layered(m, layers, kvs, position) && |h| == m.hidden
    ensures |Through(StepOf(ops, m), layers, h, position, kvs).0| == m.hidden
    ensures Layered(m, layers, Through(StepOf(ops, m), layers, h, position, kvs).1, position + 1)
    decreases |layers|
  {
    if layers != [] {
      var n := |layers| - 1;
      ThroughShapes(ops, m, layers[..n], h, position, kvs[..n]);
      var before := Through(StepOf(ops, m), layers[..n], h, position, kvs[..n]);
      StepShapes(ops, m, layers[n], before.0, position, kvs[n]);
    }
  }

  lemma {:induction false} LayerOuterShapes(ops: Ops, m: Model, layers: seq<Layer>, hs: seq<seq<Float>>, start: nat, kvs: seq<Kv>)
    requires Layered(m, layers, kvs, start) && AllHidden(m, hs)
    ensures AllHidden(m, LayerOuter(StepOf(ops, m), layers, hs, start, kvs).rows)
    ensures Layered(m, layers, LayerOuter(StepOf(ops, m), layers, hs, start, kvs).states, start + |hs|)
    decreases |layers|
  {
    if layers != [] {
      var n := |layers| - 1;
      LayerOuterShapes(ops, m, layers[..n], hs, start, kvs[..n]);
      var before := LayerOuter(StepOf(ops, m), layers[..n], hs, start, kvs[..n]);
      BatchIsSequential(ops, m, layers[n], before.rows, start, kvs[n]);
    }
  }

  // ----- Runs -----

  datatype Error = EmptyPrompt | ContextExhausted | BadToken | BadShape

  datatype Result<T> = Ok(value: T) | Err(error: Error)

  /** One token: its hidden row, and the state with every layer's cache one longer. */
  function Advance(step: Step<Layer, seq<Float>, Kv>, m: Model, s: State, token: nat): Result<(State, seq<Float>)>
    requires |s.kvs| == |m.layers|
  {
    if s.position >= m.ctx then Err(ContextExhausted)
    else if token >= |m.embed| then Err(BadToken)
    else
      var after := Through(step, m.layers, m.embed[token], s.position, s.kvs);
      Ok((State(s.position + 1, after.1), after.0))
  }

  /** Tokens fed one at a time; a failing token stops the run. */
  function Run(step: Step<Layer, seq<Float>, Kv>, m: Model, s: State, tokens: seq<nat>): (r: Result<State>)
    requires |s.kvs| == |m.layers|
    ensures r.Ok? ==> |r.value.kvs| == |m.layers|
    decreases |tokens|
  {
    if tokens == [] then Ok(s)
    else
      var n := |tokens| - 1;
      match Run(step, m, s, tokens[..n])
      case Err(e) => Err(e)
      case Ok(t) =>
        match Advance(step, m, t, tokens[n])
        case Err(e) => Err(e)
        case Ok((u, _)) => Ok(u)
  }

  predicate InVocab(m: Model, tokens: seq<nat>) {
    forall i :: 0 <= i < |tokens| ==> tokens[i] < |m.embed|
  }

  function Embedded(m: Model, tokens: seq<nat>): (r: seq<seq<Float>>)
    requires InVocab(m, tokens)
    ensures |r| == |tokens|
  {
    seq(|tokens|, i requires 0 <= i < |tokens| => m.embed[tokens[i]])
  }

  lemma EmbeddedPrefix(m: Model, tokens: seq<nat>, n: nat)
    requires InVocab(m, tokens) && n <= |tokens|
    ensures InVocab(m, tokens[..n]) && Embedded(m, tokens)[..n] == Embedded(m, tokens[..n])
  {
  }

  lemma RunNext(step: Step<Layer, seq<Float>, Kv>, m: Model, s: State, tokens: seq<nat>, t: State)
    requires |s.kvs| == |m.layers| == |t.kvs| && tokens != [] && Run(step, m, s, tokens[..|tokens| - 1]) == Ok(t)
    requires t.position < m.ctx && tokens[|tokens| - 1] < |m.embed|
    ensures Run(step, m, s, tokens)
         == Ok(State(t.position + 1,
                     Through(step, m.layers, m.embed[tokens[|tokens| - 1]], t.position, t.kvs).1))
  {
  }

  /** Within the context and vocabulary a run never fails, and is the token-outer loop. */
  lemma {:induction false} RunIsTokenOuter(step: Step<Layer, seq<Float>, Kv>, m: Model, s: State, tokens: seq<nat>,
                                           hs: seq<seq<Float>>)
    requires |s.kvs| == |m.layers| && s.position + |tokens| <= m.ctx && InVocab(m, tokens) && hs == Embedded(m, tokens)
    ensures Run(step, m, s, tokens)
         == Ok(State(s.position + |tokens|, TokenOuter(step, m.layers, hs, s.position, s.kvs).states))
    decreases |tokens|
  {
    if tokens != [] {
      var n := |tokens| - 1;
      assert InVocab(m, tokens[..n]) && hs[..n] == Embedded(m, tokens[..n]) by {
        EmbeddedPrefix(m, tokens, n);
      }
      RunIsTokenOuter(step, m, s, tokens[..n], hs[..n]);
      RunNext(step, m, s, tokens, State(s.position + n, TokenOuter(step, m.layers, hs[..n], s.position, s.kvs).states));
    }
  }

  /** A prefill chunk leaves exactly what feeding its tokens one at a time leaves. */
  lemma ChunkIsRun(step: Step<Layer, seq<Float>, Kv>, m: Model, s: State, tokens: seq<nat>, hs: seq<seq<Float>>)
    requires |s.kvs| == |m.layers| && s.position + |tokens| <= m.ctx && InVocab(m, tokens) && hs == Embedded(m, tokens)
    ensures Run(step, m, s, tokens)
         == Ok(State(s.position + |tokens|, LayerOuter(step, m.layers, hs, s.position, s.kvs).states))
  {
    RunIsTokenOuter(step, m, s, tokens, hs);
    LayerOuterIsTokenOuter(step, m.layers, hs, s.position, s.kvs);
  }

  /** What a layer-outer chunk with embedded rows `hs` leaves. */
  predicate AfterChunk(step: Step<Layer, seq<Float>, Kv>, m: Model, s: State, hs: seq<seq<Float>>, t: State)
    requires |s.kvs| == |m.layers|
  {
    t.position == s.position + |hs| && t.kvs == LayerOuter(step, m.layers, hs, s.position, s.kvs).states
  }

  lemma AfterChunkInStep(ops: Ops, m: Model, s: State, hs: seq<seq<Float>>, t: State)
    requires m.Valid() && InStep(m, s) && AllHidden(m, hs) && AfterChunk(StepOf(ops, m), m, s, hs, t)
    ensures InStep(m, t)
  {
    LayerOuterShapes(ops, m, m.layers, hs, s.position, s.kvs);
  }

  lemma AdvanceInStep(ops: Ops, m: Model, s: State, token: nat)
    requires m.Valid() && InStep(m, s)
    ensures Advance(StepOf(ops, m), m, s, token).Ok? <==> s.position < m.ctx && token < |m.embed|
    ensures Advance(StepOf(ops, m), m, s, token).Ok? ==>
      var (t, hidden) := Advance(StepOf(ops, m), m, s, token).value;
      InStep(m, t) && t.position == s.position + 1 && |hidden| == m.hidden
  {
    if s.position < m.ctx && token < |m.embed| {
      ThroughShapes(ops, m, m.layers, m.embed[token], s.position, s.kvs);
    }
  }

  /** Runs compose: cutting a prompt into chunks does not change where it leads. */
  lemma {:induction false} RunConcat(step: Step<Layer, seq<Float>, Kv>, m: Model, s: State, a: seq<nat>, b: seq<nat>)
    requires |s.kvs| == |m.layers| && Run(step, m, s, a).Ok?
    ensures Run(step, m, s, a + b) == Run(step, m, Run(step, m, s, a).value, b)
    decreases |b|
  {
    if b == [] {
      assert a + b == a;
    } else {
      var n, ab := |b| - 1, a + b;
      assert ab[..|ab| - 1] == a + b[..n] && ab[|ab| - 1] == b[n];
      RunConcat(step, m, s, a, b[..n]);
    }
  }

  lemma {:induction false} RunInStep(ops: Ops, m: Model, s: State, tokens: seq<nat>)
    requires m.Valid() && InStep(m, s) && Run(StepOf(ops, m), m, s, tokens).Ok?
    ensures InStep(m, Run(StepOf(ops, m), m, s, tokens).value)
    ensures Run(StepOf(ops, m), m, s, tokens).value.position == s.position + |tokens|
    ensures InVocab(m, tokens)
    decreases |tokens|
  {
    if tokens != [] {
      hide InStep;
      hide Advance;
      var n := |tokens| - 1;
      RunInStep(ops, m, s, tokens[..n]);
      AdvanceInStep(ops, m, Run(StepOf(ops, m), m, s, tokens[..n]).value, tokens[n]);
      assert tokens == tokens[..n] + [tokens[n]];
    }
  }
}
