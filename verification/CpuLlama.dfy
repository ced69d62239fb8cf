/** The CPU executor's mutable state: the position and each layer's KV cache, changed in
    place by the decode step and by the batched prefill. */
module CpuLlama {
  import opened Floats
  import opened Flat
  import opened Interchange
  import opened Forward
  import opened BatchRows
  import L = Linear
  import A = Attention
  import T = Transformer

  /** Shortest prefix that takes the batched path, and the largest chunk. */
  const PREFILL_BATCH_THRESHOLD: nat := 4
  const PREFILL_MAX_BATCH: nat := 64

  /** One projection of one token. */
  method Matvec(ops: Ops, lin: L.Linear, x: seq<Float>) returns (y: seq<Float>)
    requires lin.Valid() && lin.Sized() && |x| == lin.cols
    ensures y == L.MatVec(ops.lin, lin, x)
  {
    var output := new Float[lin.rows](_ => ops.lin.zero);
    var status := L.MatvecInto(ops.lin, lin, x, output);
    y := output[..];
  }

  /** What follows attention, for one token. */
  method FinishToken(ops: Ops, m: Model, l: Layer, h: seq<Float>, context: seq<Float>) returns (out: seq<Float>)
    requires m.Fits(l) && |h| == m.hidden && |context| == m.shape.QWidth()
    ensures out == Finish(ops, m, l, h, context)
  {
    var attnOut := Matvec(ops, l.o, context);
    var residual := Add(ops, h, attnOut);
    var postNormed := Rms(ops, residual, l.postNorm);
    var gate := Matvec(ops, l.gate, postNormed);
    var up := Matvec(ops, l.up, postNormed);
    var mlpOut := Matvec(ops, l.down, Swiglu(ops, gate, up));
    out := Add(ops, residual, mlpOut);
  }

  /** What follows attention, for a batch. */
  method FinishBatch(ops: Ops, m: Model, l: Layer, hidden: seq<Float>, context: seq<Float>, batch: nat,
                     ghost hs: seq<seq<Float>>, ghost contexts: seq<seq<Float>>) returns (out: seq<Float>)
    requires m.Fits(l) && OrderedLayer(ops, l) && batch > 0 && |hs| == |contexts| == batch
    requires AllHidden(m, hs) && Wide(contexts, m.shape.QWidth())
    requires Holds(hidden, hs, m.hidden) && Holds(context, contexts, m.shape.QWidth())
    ensures Holds(out, FinishRows(ops, m, l, hs, contexts), m.hidden)
  {
    ghost var outs := MatRows(ops, l.o, contexts);
    var attnOut := Matmul(ops, l.o, context, batch, contexts);
    ghost var residuals := SumRows(ops, hs, outs, m.hidden);
    var residual := AddBatch(ops, hidden, attnOut, batch, m.hidden, hs, outs);
    ghost var normeds := RmsRows(ops, residuals, l.postNorm);
    var postNormed := NormBatch(ops, residual, batch, m.hidden, l.postNorm, residuals);
    ghost var gates, ups := MatRows(ops, l.gate, normeds), MatRows(ops, l.up, normeds);
    var gate := Matmul(ops, l.gate, postNormed, batch, normeds);
    var up := Matmul(ops, l.up, postNormed, batch, normeds);
    ghost var swiglus := SwigluRows(ops, gates, ups, m.intermediate);
    var swiglu := SwigluBatch(ops, gate, up, batch, m.intermediate, gates, ups);
    var mlpOut := Matmul(ops, l.down, swiglu, batch, swiglus);
    out := AddBatch(ops, residual, mlpOut, batch, m.hidden, residuals, MatRows(ops, l.down, swiglus));
    assert SumRows(ops, residuals, MatRows(ops, l.down, swiglus), m.hidden) == FinishRows(ops, m, l, hs, contexts);
  }

  function FinishRows(ops: Ops, m: Model, l: Layer, hs: seq<seq<Float>>, contexts: seq<seq<Float>>): (r: seq<seq<Float>>)
    requires m.Fits(l) && AllHidden(m, hs) && Wide(contexts, m.shape.QWidth()) && |hs| == |contexts|
    ensures |r| == |hs|
  {
    seq(|hs|, t requires 0 <= t < |hs| => Finish(ops, m, l, hs[t], contexts[t]))
  }

  function QueryRows(ops: Ops, m: Model, l: Layer, hs: seq<seq<Float>>, start: nat): (r: seq<seq<Float>>)
    requires m.Fits(l) && AllHidden(m, hs)
    ensures |r| == |hs| && Wide(r, m.shape.QWidth())
  {
    seq(|hs|, t requires 0 <= t < |hs| => Query(ops, m, l, hs[t], start + t))
  }

  function KeyRows(ops: Ops, m: Model, l: Layer, hs: seq<seq<Float>>, start: nat): (r: seq<seq<Float>>)
    requires m.Fits(l) && AllHidden(m, hs)
    ensures |r| == |hs| && Wide(r, m.shape.KvWidth())
  {
    seq(|hs|, t requires 0 <= t < |hs| => KeyOf(ops, m, l, hs[t], start + t))
  }

  function ValueRows(ops: Ops, m: Model, l: Layer, hs: seq<seq<Float>>): (r: seq<seq<Float>>)
    requires m.Fits(l) && AllHidden(m, hs)
    ensures |r| == |hs| && Wide(r, m.shape.KvWidth())
  {
    seq(|hs|, t requires 0 <= t < |hs| => ValueOf(ops, m, l, hs[t]))
  }

  /** The batched Q, K and V buffers, rotated at consecutive positions. */
  method ProjectBatch(ops: Ops, m: Model, l: Layer, hidden: seq<Float>, batch: nat, start: nat, ghost hs: seq<seq<Float>>)
    returns (q: seq<Float>, k: seq<Float>, v: seq<Float>)
    requires m.Fits(l) && OrderedLayer(ops, l) && batch > 0 && |hs| == batch && AllHidden(m, hs) && Holds(hidden, hs, m.hidden)
    ensures Holds(q, QueryRows(ops, m, l, hs, start), m.shape.QWidth())
    ensures Holds(k, KeyRows(ops, m, l, hs, start), m.shape.KvWidth())
    ensures Holds(v, ValueRows(ops, m, l, hs), m.shape.KvWidth())
  {
    ghost var normeds := RmsRows(ops, hs, l.inputNorm);
    var normed := NormBatch(ops, hidden, batch, m.hidden, l.inputNorm, hs);
    q := Matmul(ops, l.q, normed, batch, normeds);
    k := Matmul(ops, l.k, normed, batch, normeds);
    v := Matmul(ops, l.v, normed, batch, normeds);
    q := RopeBatch(ops, q, batch, m.shape.QWidth(), start, m.shape.heads, m.shape.headDim, MatRows(ops, l.q, normeds));
    k := RopeBatch(ops, k, batch, m.shape.KvWidth(), start, m.shape.kvHeads, m.shape.headDim, MatRows(ops, l.k, normeds));
    assert RopeRows(ops, MatRows(ops, l.q, normeds), start, m.shape.heads, m.shape.headDim) == QueryRows(ops, m, l, hs, start);
    assert RopeRows(ops, MatRows(ops, l.k, normeds), start, m.shape.kvHeads, m.shape.headDim) == KeyRows(ops, m, l, hs, start);
    assert MatRows(ops, l.v, normeds) == ValueRows(ops, m, l, hs);
  }

  /** The contexts of a chunk whose keys and values are already in `cache`. */
  function ContextRows(ops: Ops, m: Model, l: Layer, hs: seq<seq<Float>>, start: nat, cache: Kv): (r: seq<seq<Float>>)
    requires m.shape.Ok() && m.Fits(l) && AllHidden(m, hs) && KvAt(m, cache, start + |hs|)
    ensures |r| == |hs| && Wide(r, m.shape.QWidth())
  {
    seq(|hs|, t requires 0 <= t < |hs| => ContextRow(ops, m, l, hs[t], start + t, cache))
  }

  function ContextRow(ops: Ops, m: Model, l: Layer, h: seq<Float>, position: nat, cache: Kv): (r: seq<Float>)
    requires m.shape.Ok() && m.Fits(l) && |h| == m.hidden && KvOk(m, cache) && position < cache.seqLen
    ensures |r| == m.shape.QWidth()
  {
    ChunkHolds(m, cache, position + 1);
    A.Attend(ops.attn, m.shape, cache.keys, cache.values, position + 1, Query(ops, m, l, h, position))
  }

  /** A fresh context buffer and the causal prefill attention into it. */
  method AttendBatch(ops: Ops, m: Model, cache: Kv, start: nat, batch: nat, q: seq<Float>) returns (context: seq<Float>)
    requires m.shape.Ok() && KvAt(m, cache, start + batch) && |q| == batch * m.shape.QWidth()
    ensures |context| == batch * m.shape.QWidth()
    ensures forall t: nat :: t < batch ==>
      A.PrefillRow(ops.attn, m.shape, cache.keys, cache.values, start, q, context, t)
  {
    var out := new Float[batch * m.shape.QWidth()](_ => ops.attn.zero);
    var status := A.PrefillInto(ops.attn, m.shape, cache.keys, cache.values, start, batch, q, out);
    context := out[..];
  }

  lemma AttendedRows(ops: Ops, m: Model, l: Layer, hs: seq<seq<Float>>, start: nat, cache: Kv,
                     q: seq<Float>, context: seq<Float>)
    requires m.shape.Ok() && m.Fits(l) && AllHidden(m, hs) && KvAt(m, cache, start + |hs|)
    requires Holds(q, QueryRows(ops, m, l, hs, start), m.shape.QWidth()) && |context| == |hs| * m.shape.QWidth()
    requires forall t: nat :: t < |hs| ==>
      A.PrefillRow(ops.attn, m.shape, cache.keys, cache.values, start, q, context, t)
    ensures Holds(context, ContextRows(ops, m, l, hs, start, cache), m.shape.QWidth())
  {
    var queries, want := QueryRows(ops, m, l, hs, start), ContextRows(ops, m, l, hs, start, cache);
    forall t: nat | t < |hs| ensures RowIs(context, t, m.shape.QWidth(), want[t]) {
      assert RowIs(q, t, m.shape.QWidth(), queries[t]);
      PrefillRowIsContext(ops, m, l, hs[t], start, cache, q, context, t);
    }
  }

  lemma PrefillRowIsContext(ops: Ops, m: Model, l: Layer, h: seq<Float>, start: nat, cache: Kv,
                            q: seq<Float>, context: seq<Float>, t: nat)
    requires m.shape.Ok() && m.Fits(l) && |h| == m.hidden && KvOk(m, cache) && start + t < cache.seqLen
    requires A.PrefillRow(ops.attn, m.shape, cache.keys, cache.values, start, q, context, t)
    requires RowIs(q, t, m.shape.QWidth(), Query(ops, m, l, h, start + t))
    ensures RowIs(context, t, m.shape.QWidth(), ContextRow(ops, m, l, h, start + t, cache))
  {
  }

  lemma FinishedContext(ops: Ops, m: Model, l: Layer, h: seq<Float>, position: nat, cache: Kv, context: seq<Float>)
    requires m.shape.Ok() && m.Fits(l) && |h| == m.hidden && KvOk(m, cache) && position < cache.seqLen
    requires context == ContextRow(ops, m, l, h, position, cache)
    ensures Finish(ops, m, l, h, context) == BatchRow(ops, m, l, h, cache, position)
  {
    assert Finish(ops, m, l, h, context) == Batched(ops, m, l, h, cache, position);
  }

  lemma FinishedContextAt(ops: Ops, m: Model, l: Layer, hs: seq<seq<Float>>, start: nat, cache: Kv, t: nat)
    requires m.shape.Ok() && m.Fits(l) && AllHidden(m, hs) && KvAt(m, cache, start + |hs|) && t < |hs|
    ensures FinishRows(ops, m, l, hs, ContextRows(ops, m, l, hs, start, cache))[t]
         == BatchRow(ops, m, l, hs[t], cache, start + t)
  {
    var contexts := ContextRows(ops, m, l, hs, start, cache);
    FinishedContext(ops, m, l, hs[t], start + t, cache, contexts[t]);
  }

  /** Finishing the contexts gives the batched layer's rows. */
  lemma FinishedContexts(ops: Ops, m: Model, l: Layer, hs: seq<seq<Float>>, start: nat, kv: Kv, cache: Kv)
    requires m.shape.Ok() && m.Fits(l) && AllHidden(m, hs) && KvAt(m, kv, start)
    requires cache == ChunkKv(ops, m, l, hs, start, kv)
    ensures FinishRows(ops, m, l, hs, ContextRows(ops, m, l, hs, start, cache)) == BatchHidden(ops, m, l, hs, start, kv)
  {
    var finished := FinishRows(ops, m, l, hs, ContextRows(ops, m, l, hs, start, cache));
    forall t: nat | t < |hs| ensures finished[t] == BatchRow(ops, m, l, hs[t], cache, start + t) {
      FinishedContextAt(ops, m, l, hs, start, cache, t);
    }
  }

  /** The chunk's embedding rows in one flat buffer. */
  method EmbedChunk(m: Model, tokens: seq<nat>) returns (r: Result<seq<Float>>)
    requires m.Valid()
    ensures r.Ok? <==> InVocab(m, tokens)
    ensures r.Ok? ==> AllHidden(m, Embedded(m, tokens)) && Holds(r.value, Embedded(m, tokens), m.hidden)
    ensures r.Err? ==> r.error == BadToken
  {
    var hidden: seq<Float> := [];
    for i := 0 to |tokens|
      invariant InVocab(m, tokens[..i]) && Holds(hidden, Embedded(m, tokens[..i]), m.hidden)
    {
      if tokens[i] >= |m.embed| {
        return Err(BadToken);
      }
      HoldsSnoc(hidden, Embedded(m, tokens[..i]), m.hidden, m.embed[tokens[i]]);
      assert tokens[..i + 1] == tokens[..i] + [tokens[i]];
      assert Embedded(m, tokens[..i + 1]) == Embedded(m, tokens[..i]) + [m.embed[tokens[i]]];
      hidden := hidden + m.embed[tokens[i]];
    }
    assert tokens[..|tokens|] == tokens;
    return Ok(hidden);
  }

  /** A failed prefill leaves the state some prefix of the prompt leads to. */
  ghost predicate FedPrefix(step: Step<Layer, seq<Float>, Kv>, m: Model, s: State, tokens: seq<nat>, t: State)
    requires |s.kvs| == |m.layers|
  {
    exists n: nat :: n <= |tokens| && Run(step, m, s, tokens[..n]) == Ok(t)
  }

  lemma RunOfNone(step: Step<Layer, seq<Float>, Kv>, m: Model, s: State, tokens: seq<nat>)
    requires |s.kvs| == |m.layers|
    ensures Run(step, m, s, tokens[..0]) == Ok(s)
  {
  }

  /** One more token of a run. */
  lemma RunAdvances(step: Step<Layer, seq<Float>, Kv>, m: Model, s: State, tokens: seq<nat>, i: nat, t: State)
    requires |s.kvs| == |m.layers| == |t.kvs| && i < |tokens| && Run(step, m, s, tokens[..i]) == Ok(t)
    ensures match Advance(step, m, t, tokens[i])
            case Ok((u, _)) => Run(step, m, s, tokens[..i + 1]) == Ok(u)
            case Err(e) => Run(step, m, s, tokens[..i + 1]) == Err(e)
  {
    assert tokens[..i + 1][..i] == tokens[..i];
  }

  lemma FedNothing(step: Step<Layer, seq<Float>, Kv>, m: Model, s: State, tokens: seq<nat>)
    requires |s.kvs| == |m.layers|
    ensures FedPrefix(step, m, s, tokens, s)
  {
    assert Run(step, m, s, tokens[..0]) == Ok(s);
  }

  lemma FedLonger(step: Step<Layer, seq<Float>, Kv>, m: Model, s: State, a: seq<nat>, tokens: seq<nat>, t: State)
    requires |s.kvs| == |m.layers| && a <= tokens
    requires FedPrefix(step, m, s, a, t) || Run(step, m, s, a) == Ok(t)
    ensures FedPrefix(step, m, s, tokens, t)
  {
    assert a[..|a|] == a;
    var n: nat :| n <= |a| && Run(step, m, s, a[..n]) == Ok(t);
    assert tokens[..n] == a[..n];
  }

  lemma FedChunk(step: Step<Layer, seq<Float>, Kv>, m: Model, s: State, tokens: seq<nat>, at: nat, size: nat,
                 before: State, hs: seq<seq<Float>>, after: State)
    requires |s.kvs| == |m.layers| == |before.kvs| && at + size <= |tokens|
    requires InVocab(m, tokens[at..at + size]) && hs == Embedded(m, tokens[at..at + size])
    requires Run(step, m, s, tokens[..at]) == Ok(before) && before.position + size <= m.ctx
    requires AfterChunk(step, m, before, hs, after)
    ensures Run(step, m, s, tokens[..at + size]) == Ok(after)
  {
    var chunk := tokens[at..at + size];
    assert tokens[..at] + chunk == tokens[..at + size];
    assert Run(step, m, s, tokens[..at + size]) == Run(step, m, before, chunk) by {
      RunConcat(step, m, s, tokens[..at], chunk);
    }
    var states := LayerOuter(step, m.layers, hs, before.position, before.kvs).states;
    assert Run(step, m, before, chunk) == Ok(State(before.position + |chunk|, states)) by {
      ChunkIsRun(step, m, before, chunk, hs);
    }
    assert after == State(before.position + |chunk|, states);
  }

  lemma NotInVocab(m: Model, tokens: seq<nat>, lo: nat, hi: nat)
    requires lo <= hi <= |tokens| && !InVocab(m, tokens[lo..hi])
    ensures !InVocab(m, tokens)
  {
    var i :| 0 <= i < hi - lo && tokens[lo..hi][i] >= |m.embed|;
    assert tokens[lo + i] >= |m.embed|;
  }

  /** The logits of a prompt fed one token at a time. */
  function LastLogits(ops: Ops, m: Model, s: State, prompt: seq<nat>): seq<Float>
    requires |s.kvs| == |m.layers| && prompt != [] && Run(StepOf(ops, m), m, s, prompt).Ok?
  {
    ops.logits(Rms(ops, T.LastHidden(StepOf(ops, m), m, s, prompt), m.finalNorm))
  }

  class CpuLlamaState {
    var position: nat
    var kvs: seq<Kv>

    /** A new state: nothing cached. */
    constructor (m: Model)
      ensures Snapshot() == State(0, seq(|m.layers|, _ => Kv([], [], 0))) && InStep(m, Snapshot())
    {
      position := 0;
      kvs := seq(|m.layers|, _ => Kv([], [], 0));
    }

    function Snapshot(): State
      reads this
    {
      State(position, kvs)
    }

    /** Appends one token's key and value to one layer's cache. */
    method Push(layer: nat, key: seq<Float>, value: seq<Float>, width: nat) returns (ok: bool)
      requires layer < |kvs|
      modifies this`kvs
      ensures ok <==> |key| == |value| == width
      ensures kvs == if ok then old(kvs)[layer := Pushed(old(kvs)[layer], key, value)] else old(kvs)
    {
      if |key| != width || |value| != width {
        return false;
      }
      kvs := kvs[layer := Kv(kvs[layer].keys + key, kvs[layer].values + value, kvs[layer].seqLen + 1)];
      return true;
    }

    /** One token through one layer. */
    method LayerToken(ops: Ops, m: Model, j: nat, h: seq<Float>) returns (out: seq<Float>)
      requires j < |m.layers| && j < |kvs| && Ready(m, m.layers[j], h, kvs[j])
      modifies this`kvs
      ensures out == StepHidden(ops, m, m.layers[j], h, position, old(kvs)[j])
      ensures kvs == old(kvs)[j := StepKv(ops, m, m.layers[j], h, position, old(kvs)[j])]
    {
      var l := m.layers[j];
      var normed := Rms(ops, h, l.inputNorm);
      var q := Matvec(ops, l.q, normed);
      var k := Matvec(ops, l.k, normed);
      var v := Matvec(ops, l.v, normed);
      q := Rope(ops, q, position, m.shape.heads, m.shape.headDim);
      k := Rope(ops, k, position, m.shape.kvHeads, m.shape.headDim);
      var ok := Push(j, k, v, m.shape.KvWidth());
      ghost var cache := StepKv(ops, m, l, h, position, old(kvs)[j]);
      assert kvs[j] == cache;
      var context := AttendToken(ops, m, kvs[j], q);
      out := FinishToken(ops, m, l, h, context);
      assert out == Decoded(ops, m, l, h, position, cache);
    }

    /** One token through all layers. */
    method ForwardHidden(ops: Ops, m: Model, token: nat) returns (r: Result<seq<Float>>)
      requires m.Valid() && InStep(m, Snapshot())
      modifies this
      ensures InStep(m, Snapshot())
      ensures match Advance(StepOf(ops, m), m, old(Snapshot()), token)
              case Ok((s, h)) => Snapshot() == s && r == Ok(h)
              case Err(e) => Snapshot() == old(Snapshot()) && r == Err(e)
      ensures r.Ok? ==> T.TokenTransformed(ops, m, old(position), token, kvs, r.value)
    {
      hide T.TokenTransformed;
      if position < m.ctx && token < |m.embed| {
        T.AdvanceTransforms(ops, m, Snapshot(), token);
      }
      AdvanceInStep(ops, m, Snapshot(), token);
      if position >= m.ctx {
        return Err(ContextExhausted);
      }
      if token >= |m.embed| {
        return Err(BadToken);
      }
      var h := m.embed[token];
      ghost var kvs0, step := kvs, StepOf(ops, m);
      for j := 0 to |m.layers|
        invariant position == old(position) && |kvs| == |m.layers| && kvs[j..] == kvs0[j..]
        invariant (h, kvs[..j]) == Through(step, m.layers[..j], m.embed[token], position, kvs0[..j])
      {
        assert kvs[j] == kvs[j..][0] == kvs0[j];
        ThroughReady(ops, m, m.layers, m.embed[token], position, kvs0, j);
        ghost var was := kvs;
        h := LayerToken(ops, m, j, h);
        Updated(was, kvs, kvs0, j);
      }
      assert m.layers[..|m.layers|] == m.layers && kvs0[..|m.layers|] == kvs0 && kvs[..|m.layers|] == kvs;
      position := position + 1;
      return Ok(h);
    }

    /** The chunk's keys and values, pushed in token order. */
    method PushBatch(ops: Ops, m: Model, j: nat, k: seq<Float>, v: seq<Float>, batch: nat, start: nat,
                     ghost hs: seq<seq<Float>>)
      requires j < |m.layers| && j < |kvs| && m.Fits(m.layers[j]) && KvOk(m, kvs[j])
      requires |hs| == batch && AllHidden(m, hs)
      requires Holds(k, KeyRows(ops, m, m.layers[j], hs, start), m.shape.KvWidth())
      requires Holds(v, ValueRows(ops, m, m.layers[j], hs), m.shape.KvWidth())
      modifies this`kvs
      ensures kvs == old(kvs)[j := ChunkKv(ops, m, m.layers[j], hs, start, old(kvs)[j])]
    {
      ghost var l, kv0 := m.layers[j], kvs[j];
      var width := m.shape.KvWidth();
      for t := 0 to batch
        invariant j < |kvs| && kvs == old(kvs)[j := ChunkKv(ops, m, l, hs[..t], start, kv0)]
      {
        HoldsAt(k, KeyRows(ops, m, l, hs, start), width, t);
        HoldsAt(v, ValueRows(ops, m, l, hs), width, t);
        ChunkKvStep(ops, m, l, hs, start, kv0, t);
        var ok := Push(j, Row(k, t, width), Row(v, t, width), width);
      }
      assert hs[..batch] == hs;
    }

    /** A chunk through one layer. */
    method LayerBatch(ops: Ops, m: Model, j: nat, hidden: seq<Float>, batch: nat, start: nat, ghost hs: seq<seq<Float>>)
      returns (out: seq<Float>)
      requires j < |m.layers| && j < |kvs| && m.shape.Ok() && m.Fits(m.layers[j]) && OrderedLayer(ops, m.layers[j])
      requires KvAt(m, kvs[j], start) && batch > 0 && |hs| == batch && AllHidden(m, hs) && Holds(hidden, hs, m.hidden)
      modifies this`kvs
      ensures Holds(out, BatchHidden(ops, m, m.layers[j], hs, start, old(kvs)[j]), m.hidden)
      ensures kvs == old(kvs)[j := ChunkKv(ops, m, m.layers[j], hs, start, old(kvs)[j])]
    {
      var l := m.layers[j];
      var q, k, v := ProjectBatch(ops, m, l, hidden, batch, start, hs);
      PushBatch(ops, m, j, k, v, batch, start, hs);
      ghost var cache := ChunkKv(ops, m, l, hs, start, old(kvs)[j]);
      assert kvs[j] == cache;
      var context := AttendBatch(ops, m, kvs[j], start, batch, q);
      AttendedRows(ops, m, l, hs, start, cache, q, context);
      out := FinishBatch(ops, m, l, hidden, context, batch, hs, ContextRows(ops, m, l, hs, start, cache));
      FinishedContexts(ops, m, l, hs, start, old(kvs)[j], cache);
    }

    /** A chunk through all layers, layer outer. */
    method PrefillChunk(ops: Ops, m: Model, tokens: seq<nat>) returns (r: Result<()>)
      requires m.Valid() && Ordered(ops, m) && InStep(m, Snapshot()) && tokens != []
      modifies this
      ensures r == if InVocab(m, tokens) then Ok(()) else Err(BadToken)
      ensures r.Ok? ==> AfterChunk(StepOf(ops, m), m, old(Snapshot()), Embedded(m, tokens), Snapshot())
      ensures r.Err? ==> Snapshot() == old(Snapshot())
    {
      var embedded := EmbedChunk(m, tokens);
      if embedded.Err? {
        return Err(embedded.error);
      }
      var hidden := AllLayers(ops, m, embedded.value, |tokens|, position, Embedded(m, tokens));
      position := position + |tokens|;
      return Ok(());
    }

    /** The next chunk of a prefill that has fed `tokens[..at]` since state `s`. */
    method PrefillNext(ops: Ops, m: Model, tokens: seq<nat>, at: nat, size: nat, ghost s: State) returns (r: Result<()>)
      requires m.Valid() && Ordered(ops, m) && InStep(m, Snapshot()) && |s.kvs| == |m.layers|
      requires 0 < size && at + size <= |tokens| && position + size <= m.ctx
      requires Run(StepOf(ops, m), m, s, tokens[..at]) == Ok(Snapshot())
      modifies this
      ensures r.Ok? ==> InStep(m, Snapshot()) && position == old(position) + size
      ensures r.Ok? ==> Run(StepOf(ops, m), m, s, tokens[..at + size]) == Ok(Snapshot())
      ensures r.Err? ==> r == Err(BadToken) && !InVocab(m, tokens) && Snapshot() == old(Snapshot())
    {
      hide Run;
      hide StepOf;
      hide Ordered;
      var chunk := tokens[at..at + size];
      ghost var before := Snapshot();
      r := PrefillChunk(ops, m, chunk);
      if r.Err? {
        NotInVocab(m, tokens, at, at + size);
        return r;
      }
      ghost var hs := Embedded(m, chunk);
      FedChunk(StepOf(ops, m), m, s, tokens, at, size, before, hs, Snapshot());
      AfterChunkInStep(ops, m, before, hs, Snapshot());
    }

    /** Chunks of at most 64 tokens; a chunk with an unknown token stops the prefill
        before it touches the caches. */
    method PrefillBatched(ops: Ops, m: Model, tokens: seq<nat>) returns (r: Result<()>)
      requires m.Valid() && Ordered(ops, m) && InStep(m, Snapshot()) && position + |tokens| <= m.ctx
      modifies this
      ensures r == if InVocab(m, tokens) then Ok(()) else Err(BadToken)
      ensures r.Ok? ==> Run(StepOf(ops, m), m, old(Snapshot()), tokens) == Ok(Snapshot())
      ensures r.Err? ==> FedPrefix(StepOf(ops, m), m, old(Snapshot()), tokens, Snapshot())
    {
      assert |kvs| == |m.layers|;
      hide Run;
      hide InStep;
      hide StepOf;
      hide Ordered;
      hide InVocab;
      ghost var s := Snapshot();
      RunOfNone(StepOf(ops, m), m, s, tokens);
      var at := 0;
      r := Ok(());
      while at < |tokens|
        invariant at <= |tokens| && InStep(m, Snapshot()) && position == s.position + at
        invariant Run(StepOf(ops, m), m, s, tokens[..at]) == Ok(Snapshot())
      {
        var size := if |tokens| - at < PREFILL_MAX_BATCH then |tokens| - at else PREFILL_MAX_BATCH;
        r := PrefillNext(ops, m, tokens, at, size, s);
        if r.Err? {
          return r;
        }
        at := at + size;
      }
      assert tokens[..at] == tokens;
      RunInStep(ops, m, s, tokens);
      return Ok(());
    }

    /** Prefill of a prompt up to the last token's logits: on success, exactly feeding the
        prompt one token at a time, for every prompt length, chunking and start state. */
    method PrefillPrompt(ops: Ops, m: Model, prompt: seq<nat>) returns (r: Result<seq<Float>>)
      requires m.Valid() && Ordered(ops, m) && InStep(m, Snapshot())
      modifies this
      ensures r.Ok? <==> prompt != [] && old(position) + |prompt| <= m.ctx && InVocab(m, prompt)
      ensures r.Ok? ==> Run(StepOf(ops, m), m, old(Snapshot()), prompt) == Ok(Snapshot()) && InStep(m, Snapshot())
      ensures r.Ok? ==> r.value == LastLogits(ops, m, old(Snapshot()), prompt)
      ensures r.Ok? ==> T.PromptTransformed(ops, m, old(position), prompt, kvs, r.value)
      ensures prompt == [] ==> r == Err(EmptyPrompt) && Snapshot() == old(Snapshot())
      ensures prompt != [] && old(position) + |prompt| > m.ctx ==> r == Err(ContextExhausted) && Snapshot() == old(Snapshot())
      ensures r.Err? ==> FedPrefix(StepOf(ops, m), m, old(Snapshot()), prompt, Snapshot())
    {
      hide T.PromptTransformed;
      hide T.TokenTransformed;
      ghost var s := Snapshot();
      if prompt == [] {
        FedNothing(StepOf(ops, m), m, s, prompt);
        return Err(EmptyPrompt);
      }
      if position + |prompt| > m.ctx {
        FedNothing(StepOf(ops, m), m, s, prompt);
        return Err(ContextExhausted);
      }
      var prefix, last := prompt[..|prompt| - 1], prompt[|prompt| - 1];
      var fed: Result<()>;
      if |prefix| >= PREFILL_BATCH_THRESHOLD {
        fed := PrefillBatched(ops, m, prefix);
      } else {
        fed := PrefillTokens(ops, m, prefix);
      }
      if fed.Err? {
        FedLonger(StepOf(ops, m), m, s, prefix, prompt, Snapshot());
        NotInVocab(m, prompt, 0, |prefix|);
        return Err(BadToken);
      }
      RunInStep(ops, m, s, prefix);
      ghost var before := Snapshot();
      var hidden := ForwardHidden(ops, m, last);
      AdvanceInStep(ops, m, before, last);
      assert prompt == prefix + [last];
      if hidden.Err? {
        FedLonger(StepOf(ops, m), m, s, prefix, prompt, Snapshot());
        return Err(hidden.error);
      }
      T.PromptTransforms(ops, m, s, prompt);
      return Ok(ops.logits(Rms(ops, hidden.value, m.finalNorm)));
    }

    method PrefillTokens(ops: Ops, m: Model, tokens: seq<nat>) returns (r: Result<()>)
      requires m.Valid() && InStep(m, Snapshot()) && position + |tokens| <= m.ctx
      modifies this
      ensures r == if InVocab(m, tokens) then Ok(()) else Err(BadToken)
      ensures r.Ok? ==> Run(StepOf(ops, m), m, old(Snapshot()), tokens) == Ok(Snapshot())
      ensures r.Err? ==> FedPrefix(StepOf(ops, m), m, old(Snapshot()), tokens, Snapshot())
    {
      assert |kvs| == |m.layers|;
      hide Run;
      hide InStep;
      hide StepOf;
      ghost var s := Snapshot();
      RunOfNone(StepOf(ops, m), m, s, tokens);
      for i := 0 to |tokens|
        invariant InStep(m, Snapshot()) && position == s.position + i && InVocab(m, tokens[..i])
        invariant Run(StepOf(ops, m), m, s, tokens[..i]) == Ok(Snapshot())
      {
        ghost var before := Snapshot();
        AdvanceInStep(ops, m, before, tokens[i]);
        var hidden := ForwardHidden(ops, m, tokens[i]);
        RunAdvances(StepOf(ops, m), m, s, tokens, i, before);
        assert tokens[..i + 1] == tokens[..i] + [tokens[i]];
        if hidden.Err? {
          assert FedPrefix(StepOf(ops, m), m, s, tokens, Snapshot());
          return Err(hidden.error);
        }
      }
      assert tokens[..|tokens|] == tokens;
      return Ok(());
    }

    method AllLayers(ops: Ops, m: Model, hidden: seq<Float>, batch: nat, start: nat, ghost hs: seq<seq<Float>>)
      returns (out: seq<Float>)
      requires m.Valid() && Ordered(ops, m) && InStep(m, Snapshot()) && start == position
      requires batch > 0 && |hs| == batch && AllHidden(m, hs) && Holds(hidden, hs, m.hidden)
      modifies this`kvs
      ensures Holds(out, LayerOuter(StepOf(ops, m), m.layers, hs, start, old(kvs)).rows, m.hidden)
      ensures kvs == LayerOuter(StepOf(ops, m), m.layers, hs, start, old(kvs)).states
    {
      out := hidden;
      ghost var kvs0, step, rows := kvs, StepOf(ops, m), hs;
      for j := 0 to |m.layers|
        invariant |kvs| == |m.layers| && kvs[j..] == kvs0[j..]
        invariant Pass(rows, kvs[..j]) == LayerOuter(step, m.layers[..j], hs, start, kvs0[..j])
        invariant |rows| == batch && AllHidden(m, rows) && Holds(out, rows, m.hidden)
      {
        assert kvs[j] == kvs[j..][0] == kvs0[j];
        LayerOuterBatched(ops, m, m.layers, hs, start, kvs0, j, rows);
        ghost var was := kvs;
        out := LayerBatch(ops, m, j, out, batch, start, rows);
        rows := BatchHidden(ops, m, m.layers[j], rows, start, was[j]);
        Updated(was, kvs, kvs0, j);
      }
      assert m.layers[..|m.layers|] == m.layers && kvs0[..|m.layers|] == kvs0 && kvs[..|m.layers|] == kvs;
    }
  }

  /** Writing element `j` of the caches finishes one more and leaves the rest. */
  lemma Updated(was: seq<Kv>, now: seq<Kv>, kvs0: seq<Kv>, j: nat)
    requires |was| == |now| == |kvs0| && j < |was| && now == was[j := now[j]] && was[j..] == kvs0[j..]
    ensures now[j + 1..] == kvs0[j + 1..] && now[..j + 1] == was[..j] + [now[j]]
  {
    assert now[j + 1..] == was[j..][1..];
    assert kvs0[j + 1..] == kvs0[j..][1..];
  }

  lemma LayerOuterBatched(ops: Ops, m: Model, layers: seq<Layer>, hs: seq<seq<Float>>, start: nat, kvs: seq<Kv>, j: nat,
                          rows: seq<seq<Float>>)
    requires |kvs| == |layers| && j < |layers|
    requires m.shape.Ok() && m.Fits(layers[j]) && KvAt(m, kvs[j], start) && AllHidden(m, rows)
    requires rows == LayerOuter(StepOf(ops, m), layers[..j], hs, start, kvs[..j]).rows
    ensures LayerOuter(StepOf(ops, m), layers[..j + 1], hs, start, kvs[..j + 1])
         == Pass(BatchHidden(ops, m, layers[j], rows, start, kvs[j]),
                 LayerOuter(StepOf(ops, m), layers[..j], hs, start, kvs[..j]).states
                 + [ChunkKv(ops, m, layers[j], rows, start, kvs[j])])
  {
    LayerOuterNext(StepOf(ops, m), layers, hs, start, kvs, j);
    BatchIsSequential(ops, m, layers[j], rows, start, kvs[j]);
  }

  lemma LayerOuterNext(step: Step<Layer, seq<Float>, Kv>, layers: seq<Layer>, hs: seq<seq<Float>>, start: nat, kvs: seq<Kv>, j: nat)
    requires |kvs| == |layers| && j < |layers|
    ensures
      var before := LayerOuter(step, layers[..j], hs, start, kvs[..j]);
      LayerOuter(step, layers[..j + 1], hs, start, kvs[..j + 1])
      == Pass(LayerRows(step, layers[j], before.rows, start, kvs[j]),
              before.states + [LayerState(step, layers[j], before.rows, start, kvs[j])])
  {
    assert layers[..j + 1][..j] == layers[..j] && kvs[..j + 1][..j] == kvs[..j];
  }

  /** Within a consistent state the next layer is always ready, and the generic step is its work. */
  lemma ThroughReady(ops: Ops, m: Model, layers: seq<Layer>, h: seq<Float>, position: nat, kvs: seq<Kv>, j: nat)
    requires Layered(m, layers, kvs, position) && |h| == m.hidden && j < |layers|
    ensures
      var before := Through(StepOf(ops, m), layers[..j], h, position, kvs[..j]);
      && Ready(m, layers[j], before.0, kvs[j])
      && Through(StepOf(ops, m), layers[..j + 1], h, position, kvs[..j + 1])
         == (StepHidden(ops, m, layers[j], before.0, position, kvs[j]),
             before.1 + [StepKv(ops, m, layers[j], before.0, position, kvs[j])])
  {
    ThroughShapes(ops, m, layers[..j], h, position, kvs[..j]);
    ThroughNext(StepOf(ops, m), layers, h, position, kvs, j);
  }

  lemma ThroughNext(step: Step<Layer, seq<Float>, Kv>, layers: seq<Layer>, h: seq<Float>, position: nat, kvs: seq<Kv>, j: nat)
    requires |kvs| == |layers| && j < |layers|
    ensures
      var before := Through(step, layers[..j], h, position, kvs[..j]);
      var after := step(layers[j], before.0, position, kvs[j]);
      Through(step, layers[..j + 1], h, position, kvs[..j + 1]) == (after.0, before.1 + [after.1])
  {
    assert layers[..j + 1][..j] == layers[..j] && kvs[..j + 1][..j] == kvs[..j];
  }

  method AttendToken(ops: Ops, m: Model, cache: Kv, q: seq<Float>) returns (context: seq<Float>)
    requires m.shape.Ok() && KvOk(m, cache) && |q| == m.shape.QWidth()
    ensures context == A.Attend(ops.attn, m.shape, cache.keys, cache.values, cache.seqLen, q)
  {
    var out := new Float[m.shape.QWidth()](_ => ops.attn.zero);
    var status := A.DecodeInto(ops.attn, m.shape, cache.keys, cache.values, cache.seqLen, q, out);
    context := out[..];
  }
}
