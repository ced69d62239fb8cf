/** What a run of the forward pass computes, coordinate by coordinate: for every token and layer the
    rows in between, each tied to the one before by the primitive operations. */
module Transformer {
  import opened Floats
  import opened Flat
  import opened Interchange
  import opened Forward
  import L = Linear
  import A = Attention

  // ----- One operation on a row -----

  predicate Normed(ops: Ops, h: seq<Float>, weight: seq<Float>, r: seq<Float>) {
    |r| == |h| && forall i :: 0 <= i < |r| ==> r[i] == ops.rmsAt(h, weight, i)
  }

  predicate Rotated(ops: Ops, x: seq<Float>, position: nat, heads: nat, headDim: nat, r: seq<Float>) {
    |r| == |x| && forall i :: 0 <= i < |r| ==> r[i] == ops.ropeAt(x, position, heads, headDim, i)
  }

  predicate Summed(ops: Ops, a: seq<Float>, b: seq<Float>, r: seq<Float>) {
    |r| == |a| == |b| && forall i :: 0 <= i < |r| ==> r[i] == ops.add(a[i], b[i])
  }

  predicate Gated(ops: Ops, gate: seq<Float>, up: seq<Float>, r: seq<Float>) {
    |r| == |gate| == |up| && forall i :: 0 <= i < |r| ==> r[i] == ops.swiglu(gate[i], up[i])
  }

  predicate Applied(ops: Ops, lin: L.Linear, x: seq<Float>, r: seq<Float>) {
    && lin.Valid() && |x| == lin.cols && |r| == lin.rows
    && forall i :: 0 <= i < |r| ==> r[i] == L.ProductAt(ops.lin, lin, x, i)
  }

  /** Every query head has its own query slice's attention over the first `n` positions of the kv head
      it reads. */
  predicate Attended(ops: Ops, s: A.Shape, keys: seq<Float>, values: seq<Float>, n: nat, q: seq<Float>, r: seq<Float>) {
    && s.Ok() && A.CacheHolds(s, keys, values, n) && |q| == |r| == s.QWidth()
    && forall h: nat, g: nat, j: nat :: h < s.heads && g < s.kvHeads && A.ReadBy(s, g, h) && j < s.headDim ==>
         r[A.HeadCell(s, h, j)] == A.HeadOut(ops.attn, s, keys, values, n, A.HeadQuery(s, q, h), g)[j]
  }

  // ----- One layer -----

  /** The rows between a layer's input and output for one token. */
  datatype Trace = Trace(
    normed: seq<Float>, q: seq<Float>, k: seq<Float>, value: seq<Float>, query: seq<Float>, key: seq<Float>,
    context: seq<Float>, attn: seq<Float>, residual: seq<Float>, post: seq<Float>, gate: seq<Float>, up: seq<Float>,
    act: seq<Float>, mlp: seq<Float>)

  /** Up to attention: the normed row projected three ways, query and key rotated to the position. */
  predicate Projected(ops: Ops, m: Model, l: Layer, h: seq<Float>, position: nat, t: Trace) {
    && Normed(ops, h, l.inputNorm, t.normed)
    && Applied(ops, l.q, t.normed, t.q) && Applied(ops, l.k, t.normed, t.k) && Applied(ops, l.v, t.normed, t.value)
    && Rotated(ops, t.q, position, m.shape.heads, m.shape.headDim, t.query)
    && Rotated(ops, t.k, position, m.shape.kvHeads, m.shape.headDim, t.key)
  }

  /** From the context on: two residuals, the second around the gated projections. */
  predicate Finished(ops: Ops, l: Layer, h: seq<Float>, t: Trace, out: seq<Float>) {
    && Applied(ops, l.o, t.context, t.attn) && Summed(ops, h, t.attn, t.residual)
    && Normed(ops, t.residual, l.postNorm, t.post)
    && Applied(ops, l.gate, t.post, t.gate) && Applied(ops, l.up, t.post, t.up)
    && Gated(ops, t.gate, t.up, t.act)
    && Applied(ops, l.down, t.act, t.mlp) && Summed(ops, t.residual, t.mlp, out)
  }

  /** One token through one layer, given the caches with its own key and value at `position`. */
  predicate Traced(ops: Ops, m: Model, l: Layer, h: seq<Float>, position: nat, kv: Kv, t: Trace, out: seq<Float>) {
    && Projected(ops, m, l, h, position, t)
    && RowIs(kv.keys, position, m.shape.KvWidth(), t.key) && RowIs(kv.values, position, m.shape.KvWidth(), t.value)
    && Attended(ops, m.shape, kv.keys, kv.values, position + 1, t.query, t.context)
    && Finished(ops, l, h, t, out)
  }

  lemma AppliedIs(ops: Ops, lin: L.Linear, x: seq<Float>)
    requires lin.Valid() && |x| == lin.cols
    ensures Applied(ops, lin, x, L.MatVec(ops.lin, lin, x))
  {
    hide L.ProductAt;
    var y := L.MatVec(ops.lin, lin, x);
    forall i | 0 <= i < |y| ensures y[i] == L.ProductAt(ops.lin, lin, x, i) {
      L.MatVecAt(ops.lin, lin, x, i);
    }
  }

  lemma AttendedIs(ops: Ops, s: A.Shape, keys: seq<Float>, values: seq<Float>, n: nat, q: seq<Float>)
    requires s.Ok() && A.CacheHolds(s, keys, values, n) && |q| == s.QWidth()
    ensures Attended(ops, s, keys, values, n, q, A.Attend(ops.attn, s, keys, values, n, q))
  {
    hide A.HeadOut;
    hide A.HeadQuery;
    hide A.ReadBy;
    var r := A.Attend(ops.attn, s, keys, values, n, q);
    forall h: nat, g: nat, j: nat | h < s.heads && g < s.kvHeads && A.ReadBy(s, g, h) && j < s.headDim
      ensures r[A.HeadCell(s, h, j)] == A.HeadOut(ops.attn, s, keys, values, n, A.HeadQuery(s, q, h), g)[j]
    {
      A.HeadsAt(ops.attn, s, keys, values, n, q, s.heads, h, g, j);
    }
  }

  lemma ProjectedIs(ops: Ops, m: Model, l: Layer, h: seq<Float>, position: nat, t: Trace)
    requires m.Fits(l) && |h| == m.hidden && t.normed == Rms(ops, h, l.inputNorm)
    requires t.q == L.MatVec(ops.lin, l.q, t.normed) && t.k == L.MatVec(ops.lin, l.k, t.normed)
    requires t.value == L.MatVec(ops.lin, l.v, t.normed)
    requires t.query == Query(ops, m, l, h, position) && t.key == KeyOf(ops, m, l, h, position)
    ensures Projected(ops, m, l, h, position, t) && t.value == ValueOf(ops, m, l, h)
  {
    hide Applied;
    AppliedIs(ops, l.q, t.normed);
    AppliedIs(ops, l.k, t.normed);
    AppliedIs(ops, l.v, t.normed);
  }

  lemma FinishedIs(ops: Ops, m: Model, l: Layer, h: seq<Float>, t: Trace)
    requires m.Fits(l) && |h| == m.hidden && |t.context| == m.shape.QWidth()
    requires t.attn == L.MatVec(ops.lin, l.o, t.context) && t.residual == Residual(ops, m, l, h, t.context)
    requires t.post == Rms(ops, t.residual, l.postNorm)
    requires t.gate == L.MatVec(ops.lin, l.gate, t.post) && t.up == L.MatVec(ops.lin, l.up, t.post)
    requires t.act == Swiglu(ops, t.gate, t.up) && t.mlp == L.MatVec(ops.lin, l.down, t.act)
    ensures Finished(ops, l, h, t, Finish(ops, m, l, h, t.context))
  {
    hide Applied;
    AppliedIs(ops, l.o, t.context);
    AppliedIs(ops, l.gate, t.post);
    AppliedIs(ops, l.up, t.post);
    AppliedIs(ops, l.down, t.act);
  }

  lemma PushedRows(m: Model, kv: Kv, position: nat, key: seq<Float>, value: seq<Float>)
    requires KvAt(m, kv, position) && |key| == |value| == m.shape.KvWidth()
    ensures RowIs(kv.keys + key, position, m.shape.KvWidth(), key) && RowIs(kv.values + value, position, m.shape.KvWidth(), value)
  {
    RowBounds(position, position + 1, m.shape.KvWidth());
  }

  /** The generic step's work on one token leaves a trace. */
  lemma StepTraced(ops: Ops, m: Model, l: Layer, h: seq<Float>, position: nat, kv: Kv) returns (t: Trace)
    requires m.shape.Ok() && m.Fits(l) && |h| == m.hidden && KvAt(m, kv, position)
    ensures Traced(ops, m, l, h, position, StepKv(ops, m, l, h, position, kv), t, StepHidden(ops, m, l, h, position, kv))
  {
    hide Applied;
    hide Attended;
    hide Normed;
    hide Rotated;
    hide Summed;
    hide Gated;
    var cache := StepKv(ops, m, l, h, position, kv);
    var normed, query := Rms(ops, h, l.inputNorm), Query(ops, m, l, h, position);
    var context := A.Attend(ops.attn, m.shape, cache.keys, cache.values, position + 1, query);
    var residual := Residual(ops, m, l, h, context);
    var post := Rms(ops, residual, l.postNorm);
    var gate, up := L.MatVec(ops.lin, l.gate, post), L.MatVec(ops.lin, l.up, post);
    var act := Swiglu(ops, gate, up);
    t := Trace(normed, L.MatVec(ops.lin, l.q, normed), L.MatVec(ops.lin, l.k, normed), L.MatVec(ops.lin, l.v, normed),
               query, KeyOf(ops, m, l, h, position), context, L.MatVec(ops.lin, l.o, context), residual, post, gate, up, act,
               L.MatVec(ops.lin, l.down, act));
    ProjectedIs(ops, m, l, h, position, t);
    FinishedIs(ops, m, l, h, t);
    PushedRows(m, kv, position, t.key, t.value);
    AttendedIs(ops, m.shape, cache.keys, cache.values, position + 1, query);
    StepIsFinish(ops, m, l, h, position, kv);
    hide Projected;
    hide Finished;
    hide StepHidden;
    hide Finish;
    hide Query;
    hide KeyOf;
  }

  lemma StepIsFinish(ops: Ops, m: Model, l: Layer, h: seq<Float>, position: nat, kv: Kv)
    requires m.shape.Ok() && m.Fits(l) && |h| == m.hidden && KvAt(m, kv, position)
    ensures
      var cache := StepKv(ops, m, l, h, position, kv);
      && A.CacheHolds(m.shape, cache.keys, cache.values, position + 1)
      && StepHidden(ops, m, l, h, position, kv)
         == Finish(ops, m, l, h, A.Attend(ops.attn, m.shape, cache.keys, cache.values, position + 1, Query(ops, m, l, h, position)))
      && cache.keys == kv.keys + KeyOf(ops, m, l, h, position) && cache.values == kv.values + ValueOf(ops, m, l, h)
  {
    hide Finish;
    hide Query;
    hide KeyOf;
    hide ValueOf;
    var cache := StepKv(ops, m, l, h, position, kv);
    assert StepHidden(ops, m, l, h, position, kv) == Decoded(ops, m, l, h, position, cache);
  }

  // ----- Longer caches -----

  predicate Extends(a: Kv, b: Kv) {
    a.keys <= b.keys && a.values <= b.values
  }

  lemma AttendedLonger(ops: Ops, s: A.Shape, a: Kv, b: Kv, n: nat, q: seq<Float>, r: seq<Float>)
    requires Attended(ops, s, a.keys, a.values, n, q, r) && Extends(a, b)
    ensures Attended(ops, s, b.keys, b.values, n, q, r)
  {
    hide A.HeadQuery;
    hide A.ReadBy;
    var cut := n * s.KvWidth();
    assert a.keys[..cut] == b.keys[..cut] && a.values[..cut] == b.values[..cut];
    forall h: nat, g: nat, j: nat | h < s.heads && g < s.kvHeads && A.ReadBy(s, g, h) && j < s.headDim
      ensures r[A.HeadCell(s, h, j)] == A.HeadOut(ops.attn, s, b.keys, b.values, n, A.HeadQuery(s, q, h), g)[j]
    {
      A.HeadAccPrefix(ops.attn, s, a.keys, a.values, b.keys, b.values, n, n, A.HeadQuery(s, q, h), g);
    }
  }

  lemma RowLonger(a: seq<Float>, b: seq<Float>, t: nat, width: nat, row: seq<Float>)
    requires RowIs(a, t, width, row) && a <= b
    ensures RowIs(b, t, width, row)
  {
    RowBounds(t, t + 1, width);
  }

  /** Later tokens do not change what an earlier one computed. */
  lemma TracedLonger(ops: Ops, m: Model, l: Layer, h: seq<Float>, position: nat, a: Kv, b: Kv, t: Trace, out: seq<Float>)
    requires Traced(ops, m, l, h, position, a, t, out) && Extends(a, b)
    ensures Traced(ops, m, l, h, position, b, t, out)
  {
    hide Projected;
    hide Finished;
    hide Attended;
    hide RowIs;
    AttendedLonger(ops, m.shape, a, b, position + 1, t.query, t.context);
    RowLonger(a.keys, b.keys, position, m.shape.KvWidth(), t.key);
    RowLonger(a.values, b.values, position, m.shape.KvWidth(), t.value);
  }

  // ----- One token through all layers -----

  /** `rows[j]` enters layer `j` and `rows[j + 1]` leaves it. */
  predicate TokenTraced(ops: Ops, m: Model, layers: seq<Layer>, position: nat, kvs: seq<Kv>, rows: seq<seq<Float>>, ts: seq<Trace>) {
    && |kvs| == |ts| == |layers| && |rows| == |layers| + 1
    && forall j: nat :: j < |layers| ==> LayerTraced(ops, m, layers, position, kvs, rows, ts, j)
  }

  predicate LayerTraced(ops: Ops, m: Model, layers: seq<Layer>, position: nat, kvs: seq<Kv>, rows: seq<seq<Float>>, ts: seq<Trace>,
                        j: nat)
    requires |kvs| == |ts| == |layers| && |rows| == |layers| + 1 && j < |layers|
  {
    Traced(ops, m, layers[j], rows[j], position, kvs[j], ts[j], rows[j + 1])
  }

  lemma TokenNext(ops: Ops, m: Model, layers: seq<Layer>, position: nat, kvs: seq<Kv>, rows: seq<seq<Float>>, ts: seq<Trace>,
                  kv: Kv, t: Trace, out: seq<Float>)
    requires layers != [] && TokenTraced(ops, m, layers[..|layers| - 1], position, kvs, rows, ts)
    requires Traced(ops, m, layers[|layers| - 1], rows[|layers| - 1], position, kv, t, out)
    ensures TokenTraced(ops, m, layers, position, kvs + [kv], rows + [out], ts + [t])
  {
    hide Traced;
    var n := |layers| - 1;
    forall j: nat | j < |layers| ensures LayerTraced(ops, m, layers, position, kvs + [kv], rows + [out], ts + [t], j) {
      if j < n {
        assert LayerTraced(ops, m, layers[..n], position, kvs, rows, ts, j);
      }
    }
  }

  lemma {:induction false} ThroughTraced(ops: Ops, m: Model, layers: seq<Layer>, h: seq<Float>, position: nat, kvs: seq<Kv>)
    returns (rows: seq<seq<Float>>, ts: seq<Trace>)
    requires Layered(m, layers, kvs, position) && |h| == m.hidden
    ensures var after := Through(StepOf(ops, m), layers, h, position, kvs);
      && TokenTraced(ops, m, layers, position, after.1, rows, ts)
      && rows[0] == h && rows[|layers|] == after.0 && |after.0| == m.hidden
      && forall j :: 0 <= j < |layers| ==> Extends(kvs[j], after.1[j])
    decreases |layers|
  {
    if layers == [] {
      rows, ts := [h], [];
    } else {
      var n := |layers| - 1;
      rows, ts := ThroughTraced(ops, m, layers[..n], h, position, kvs[..n]);
      var before := Through(StepOf(ops, m), layers[..n], h, position, kvs[..n]);
      var t := StepTraced(ops, m, layers[n], before.0, position, kvs[n]);
      var out, cache := StepHidden(ops, m, layers[n], before.0, position, kvs[n]), StepKv(ops, m, layers[n], before.0, position, kvs[n]);
      TokenNext(ops, m, layers, position, before.1, rows, ts, cache, t, out);
      rows, ts := rows + [out], ts + [t];
      hide StepHidden;
      hide TokenTraced;
      hide Through;
    }
  }

  // ----- A run -----

  /** Token `n` of a run from position `start`, with the caches the run leaves: its embedding enters
      the first layer, and its keys and values are at its own position in every layer's cache. */
  predicate TokenComputed(ops: Ops, m: Model, start: nat, tokens: seq<nat>, kvs: seq<Kv>, rows: seq<seq<seq<Float>>>,
                          ts: seq<seq<Trace>>, n: nat)
    requires |rows| == |ts| == |tokens| && n < |tokens|
  {
    && TokenTraced(ops, m, m.layers, start + n, kvs, rows[n], ts[n])
    && tokens[n] < |m.embed| && rows[n][0] == m.embed[tokens[n]]
  }

  predicate Computes(ops: Ops, m: Model, start: nat, tokens: seq<nat>, kvs: seq<Kv>, rows: seq<seq<seq<Float>>>, ts: seq<seq<Trace>>) {
    |rows| == |ts| == |tokens| && forall n: nat :: n < |tokens| ==> TokenComputed(ops, m, start, tokens, kvs, rows, ts, n)
  }

  lemma TokenLonger(ops: Ops, m: Model, layers: seq<Layer>, position: nat, a: seq<Kv>, b: seq<Kv>, rows: seq<seq<Float>>, ts: seq<Trace>)
    requires TokenTraced(ops, m, layers, position, a, rows, ts) && |b| == |a|
    requires forall j: nat :: j < |a| ==> Extends(a[j], b[j])
    ensures TokenTraced(ops, m, layers, position, b, rows, ts)
  {
    hide Traced;
    hide Extends;
    forall j: nat | j < |layers| ensures LayerTraced(ops, m, layers, position, b, rows, ts, j) {
      assert LayerTraced(ops, m, layers, position, a, rows, ts, j);
      TracedLonger(ops, m, layers[j], rows[j], position, a[j], b[j], ts[j], rows[j + 1]);
    }
  }

  lemma ComputesNext(ops: Ops, m: Model, start: nat, tokens: seq<nat>, token: nat, a: seq<Kv>, b: seq<Kv>,
                     rows: seq<seq<seq<Float>>>, ts: seq<seq<Trace>>, row: seq<seq<Float>>, t: seq<Trace>)
    requires Computes(ops, m, start, tokens, a, rows, ts) && |a| == |b| && token < |m.embed|
    requires forall j: nat :: j < |a| ==> Extends(a[j], b[j])
    requires TokenTraced(ops, m, m.layers, start + |tokens|, b, row, t) && row[0] == m.embed[token]
    ensures Computes(ops, m, start, tokens + [token], b, rows + [row], ts + [t])
  {
    hide TokenTraced;
    hide Extends;
    var all, rs, us := tokens + [token], rows + [row], ts + [t];
    forall n: nat | n < |all| ensures TokenComputed(ops, m, start, all, b, rs, us, n) {
      if n < |tokens| {
        assert TokenComputed(ops, m, start, tokens, a, rows, ts, n);
        TokenLonger(ops, m, m.layers, start + n, a, b, rows[n], ts[n]);
      }
    }
  }

  /** One token from a consistent state. */
  lemma AdvanceTraced(ops: Ops, m: Model, s: State, token: nat) returns (rows: seq<seq<Float>>, ts: seq<Trace>)
    requires m.Valid() && InStep(m, s) && Advance(StepOf(ops, m), m, s, token).Ok?
    ensures var (t, hidden) := Advance(StepOf(ops, m), m, s, token).value;
      && TokenTraced(ops, m, m.layers, s.position, t.kvs, rows, ts)
      && token < |m.embed| && rows[0] == m.embed[token] && rows[|m.layers|] == hidden && |hidden| == m.hidden
      && |t.kvs| == |s.kvs| == |m.layers| && forall j: nat :: j < |m.layers| ==> Extends(s.kvs[j], t.kvs[j])
  {
    rows, ts := ThroughTraced(ops, m, m.layers, m.embed[token], s.position, s.kvs);
  }

  /** The last token of a run is one step from what the others leave. */
  lemma RunLast(step: Step<Layer, seq<Float>, Kv>, m: Model, s: State, tokens: seq<nat>) returns (mid: State)
    requires |s.kvs| == |m.layers| && tokens != [] && Run(step, m, s, tokens).Ok?
    ensures
      var n := |tokens| - 1;
      && Run(step, m, s, tokens[..n]) == Ok(mid) && |mid.kvs| == |m.layers| && Advance(step, m, mid, tokens[n]).Ok?
      && (Run(step, m, s, tokens).value, LastHidden(step, m, s, tokens)) == Advance(step, m, mid, tokens[n]).value
  {
    hide Advance;
    mid := Run(step, m, s, tokens[..|tokens| - 1]).value;
  }

  /** The row the last token of a run ends with. */
  function LastHidden(step: Step<Layer, seq<Float>, Kv>, m: Model, s: State, tokens: seq<nat>): seq<Float>
    requires |s.kvs| == |m.layers| && tokens != [] && Run(step, m, s, tokens).Ok?
  {
    var n := |tokens| - 1;
    Advance(step, m, Run(step, m, s, tokens[..n]).value, tokens[n]).value.1
  }

  predicate EndsWith(m: Model, prompt: seq<nat>, rows: seq<seq<seq<Float>>>, last: seq<Float>) {
    |rows| == |prompt| > 0 && |rows[|prompt| - 1]| == |m.layers| + 1 && last == rows[|prompt| - 1][|m.layers|]
  }

  lemma EndsWithLast(m: Model, tokens: seq<nat>, rows: seq<seq<seq<Float>>>, row: seq<seq<Float>>, last: seq<Float>)
    requires |rows| == |tokens| - 1 && |row| == |m.layers| + 1 && row[|m.layers|] == last
    ensures EndsWith(m, tokens, rows + [row], last)
  {
  }

  lemma NothingComputed(ops: Ops, m: Model, start: nat, kvs: seq<Kv>)
    ensures Computes(ops, m, start, [], kvs, [], [])
  {
  }

  /** One more token. */
  lemma TracedNext(ops: Ops, m: Model, start: nat, tokens: seq<nat>, mid: State, rows: seq<seq<seq<Float>>>, ts: seq<seq<Trace>>)
    returns (rows': seq<seq<seq<Float>>>, ts': seq<seq<Trace>>)
    requires m.Valid() && InStep(m, mid) && tokens != [] && mid.position == start + |tokens| - 1
    requires Computes(ops, m, start, tokens[..|tokens| - 1], mid.kvs, rows, ts)
    requires Advance(StepOf(ops, m), m, mid, tokens[|tokens| - 1]).Ok?
    ensures var (after, hidden) := Advance(StepOf(ops, m), m, mid, tokens[|tokens| - 1]).value;
      Computes(ops, m, start, tokens, after.kvs, rows', ts') && EndsWith(m, tokens, rows', hidden)
  {
    assert |mid.kvs| == |m.layers|;
    hide *;
    var n := |tokens| - 1;
    var row, t := AdvanceTraced(ops, m, mid, tokens[n]);
    var (after, hidden) := Advance(StepOf(ops, m), m, mid, tokens[n]).value;
    ComputesNext(ops, m, start, tokens[..n], tokens[n], mid.kvs, after.kvs, rows, ts, row, t);
    assert tokens == tokens[..n] + [tokens[n]];
    LengthsOf(ops, m, start, tokens[..n], mid.kvs, rows, ts);
    RowCount(ops, m, start + n, after.kvs, row, t);
    EndsWithLast(m, tokens, rows, row, hidden);
    rows', ts' := rows + [row], ts + [t];
  }

  /** Every run: the rows and traces of all its tokens, against the caches it leaves. The last row of
      the last token is the hidden row the run ends with. */
  lemma {:induction false} RunTraced(ops: Ops, m: Model, s: State, tokens: seq<nat>)
    returns (rows: seq<seq<seq<Float>>>, ts: seq<seq<Trace>>)
    requires m.Valid() && InStep(m, s) && Run(StepOf(ops, m), m, s, tokens).Ok?
    ensures Computes(ops, m, s.position, tokens, Run(StepOf(ops, m), m, s, tokens).value.kvs, rows, ts)
    ensures tokens != [] ==> EndsWith(m, tokens, rows, LastHidden(StepOf(ops, m), m, s, tokens))
    decreases |tokens|
  {
    if tokens == [] {
      rows, ts := [], [];
    } else {
      assert |s.kvs| == |m.layers|;
      var mid := RunLast(StepOf(ops, m), m, s, tokens);
      hide *;
      rows, ts := RunTraced(ops, m, s, tokens[..|tokens| - 1]);
      RunInStep(ops, m, s, tokens[..|tokens| - 1]);
      rows, ts := TracedNext(ops, m, s.position, tokens, mid, rows, ts);
    }
  }

  lemma LengthsOf(ops: Ops, m: Model, start: nat, tokens: seq<nat>, kvs: seq<Kv>, rows: seq<seq<seq<Float>>>, ts: seq<seq<Trace>>)
    requires Computes(ops, m, start, tokens, kvs, rows, ts)
    ensures |rows| == |ts| == |tokens|
  {
  }

  lemma RowCount(ops: Ops, m: Model, position: nat, kvs: seq<Kv>, rows: seq<seq<Float>>, ts: seq<Trace>)
    requires TokenTraced(ops, m, m.layers, position, kvs, rows, ts)
    ensures |rows| == |m.layers| + 1
  {
  }

  // ----- What an entry point leaves behind -----

  /** `hidden` is the last layer's row for `token`, and every layer's cache holds what it computed. */
  ghost predicate TokenTransformed(ops: Ops, m: Model, position: nat, token: nat, kvs: seq<Kv>, hidden: seq<Float>) {
    exists rows, ts ::
      && TokenTraced(ops, m, m.layers, position, kvs, rows, ts)
      && token < |m.embed| && rows[0] == m.embed[token] && rows[|m.layers|] == hidden
  }

  /** Every prompt token has gone through every layer, and `logits` come from the normalised last row of
      the last one. */
  ghost predicate PromptTransformed(ops: Ops, m: Model, start: nat, prompt: seq<nat>, kvs: seq<Kv>, logits: seq<Float>)
    requires prompt != []
  {
    exists rows, ts, last, final ::
      && Computes(ops, m, start, prompt, kvs, rows, ts) && EndsWith(m, prompt, rows, last)
      && Normed(ops, last, m.finalNorm, final) && logits == ops.logits(final)
  }

  lemma AdvanceTransforms(ops: Ops, m: Model, s: State, token: nat)
    requires m.Valid() && InStep(m, s) && Advance(StepOf(ops, m), m, s, token).Ok?
    ensures var (t, hidden) := Advance(StepOf(ops, m), m, s, token).value;
      TokenTransformed(ops, m, s.position, token, t.kvs, hidden)
  {
    hide TokenTraced;
    hide Advance;
    var rows, ts := AdvanceTraced(ops, m, s, token);
    RowCount(ops, m, s.position, Advance(StepOf(ops, m), m, s, token).value.0.kvs, rows, ts);
  }

  lemma PromptTransforms(ops: Ops, m: Model, s: State, prompt: seq<nat>)
    requires m.Valid() && InStep(m, s) && prompt != [] && Run(StepOf(ops, m), m, s, prompt).Ok?
    ensures PromptTransformed(ops, m, s.position, prompt, Run(StepOf(ops, m), m, s, prompt).value.kvs,
                              ops.logits(Rms(ops, LastHidden(StepOf(ops, m), m, s, prompt), m.finalNorm)))
  {
    assert |s.kvs| == |m.layers|;
    hide Run;
    hide LastHidden;
    hide Computes;
    hide InStep;
    hide EndsWith;
    hide StepOf;
    hide Model.Valid;
    var rows, ts := RunTraced(ops, m, s, prompt);
    var hidden := LastHidden(StepOf(ops, m), m, s, prompt);
    assert Normed(ops, hidden, m.finalNorm, Rms(ops, hidden, m.finalNorm));
  }
}
