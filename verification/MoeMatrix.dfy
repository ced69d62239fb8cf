/** What a MoE layer computes when its operations are exact: weighted sums of matrix products,
    written with the matrices' entries. */
module MoeMatrix {
  import opened Floats
  import opened Packing
  import opened MoeLayer

  /** How the layer's values read as reals: a value's real, the activation, and the value of a
      block-scale byte. */
  datatype Reading = Reading(val: Float -> real, gelu: real -> real, scaleOf: Byte -> real)

  function Vals(rd: Reading, x: seq<Float>): (r: seq<real>)
    ensures |r| == |x|
  {
    seq(|x|, i requires 0 <= i < |x| => rd.val(x[i]))
  }

  // ----- One packed row -----

  function Term(code: int, scale: real, x: real): real {
    code as real * scale * x
  }

  /** One packed row against a vector: code times block scale times element. */
  function PackedDot(scaleOf: Byte -> real, packed: seq<Byte>, scales: seq<Byte>, x: seq<real>, n: nat): real
    requires n <= |x| == 2 * |packed| == 16 * |scales|
  {
    if n == 0 then 0.0
    else
      var c := n - 1;
      PackedDot(scaleOf, packed, scales, x, c) + Term(Code(Nibble(packed[c / 2], c)), scaleOf(scales[c / 16]), x[c])
  }

  function Scale(s: real, a: real): real {
    s * a
  }

  function Part(code: int, x: real): real {
    code as real * x
  }

  /** The kernel, block by block: the sum of a block's codes times elements, then times its scale. */
  method FusedRowDot(scaleOf: Byte -> real, packed: seq<Byte>, scales: seq<Byte>, x: seq<real>) returns (acc: real)
    requires |x| == 2 * |packed| == 16 * |scales|
    ensures acc == PackedDot(scaleOf, packed, scales, x, |x|)
  {
    hide Code;
    hide Term;
    hide Scale;
    hide Part;
    acc := 0.0;
    for b := 0 to |scales|
      invariant acc == PackedDot(scaleOf, packed, scales, x, 16 * b)
    {
      var blockScale, blockAcc := scaleOf(scales[b]), 0.0;
      ZeroTimes(blockScale);
      for j := 0 to 8
        invariant acc + Scale(blockScale, blockAcc) == PackedDot(scaleOf, packed, scales, x, 16 * b + 2 * j)
      {
        var at, byte := 16 * b + 2 * j, packed[8 * b + j];
        PairAt(scaleOf, packed, scales, x, b, j);
        Distribute(blockScale, blockAcc, Code(byte % 16), x[at], Code(byte / 16), x[at + 1]);
        blockAcc := blockAcc + Part(Code(byte % 16), x[at]);
        blockAcc := blockAcc + Part(Code(byte / 16), x[at + 1]);
      }
      acc := acc + Scale(blockScale, blockAcc);
    }
  }

  lemma ZeroTimes(s: real)
    ensures Scale(s, 0.0) == 0.0
  {
  }

  lemma Distribute(s: real, a: real, p: int, x: real, q: int, y: real)
    ensures Scale(s, a + Part(p, x) + Part(q, y)) == Scale(s, a) + Term(p, s, x) + Term(q, s, y)
  {
    var low, high := p as real * x, q as real * y;
    assert s * low == p as real * s * x && s * high == q as real * s * y;
    assert s * (a + low + high) == s * a + s * low + s * high;
  }

  /** Two columns share a byte and a block. */
  lemma PairAt(scaleOf: Byte -> real, packed: seq<Byte>, scales: seq<Byte>, x: seq<real>, b: nat, j: nat)
    requires |x| == 2 * |packed| == 16 * |scales| && b < |scales| && j < 8
    ensures
      var at, byte, s := 16 * b + 2 * j, packed[8 * b + j], scaleOf(scales[b]);
      PackedDot(scaleOf, packed, scales, x, at + 2)
      == PackedDot(scaleOf, packed, scales, x, at) + Term(Code(byte % 16), s, x[at]) + Term(Code(byte / 16), s, x[at + 1])
  {
    hide Code;
    hide Term;
    var at := 16 * b + 2 * j;
    assert at / 2 == (at + 1) / 2 == 8 * b + j && at / 16 == (at + 1) / 16 == b;
    assert PackedDot(scaleOf, packed, scales, x, at + 2)
        == PackedDot(scaleOf, packed, scales, x, at + 1) + Term(Code(Nibble(packed[(at + 1) / 2], at + 1)), scaleOf(scales[(at + 1) / 16]), x[at + 1]);
  }

  // ----- Exact operations -----

  ghost predicate Sums(ops: FloatOps, rd: Reading, a: Float, b: Float) {
    rd.val(ops.add(a, b)) == rd.val(a) + rd.val(b)
  }

  ghost predicate Multiplies(ops: FloatOps, rd: Reading, a: Float, b: Float) {
    rd.val(ops.mul(a, b)) == rd.val(a) * rd.val(b)
  }

  ghost predicate Dots(ops: FloatOps, rd: Reading, packed: seq<Byte>, scales: seq<Byte>, x: seq<Float>)
    requires |x| == 2 * |packed| == 16 * |scales|
  {
    rd.val(ops.dot(packed, scales, x)) == PackedDot(rd.scaleOf, packed, scales, Vals(rd, x), |x|)
  }

  /** The operations are exact: no rounding. */
  ghost predicate Exact(ops: FloatOps, rd: Reading) {
    && rd.val(ops.zero) == 0.0
    && (forall a, b :: Sums(ops, rd, a, b))
    && (forall a, b :: Multiplies(ops, rd, a, b))
    && (forall a :: rd.val(ops.gelu(a)) == rd.gelu(rd.val(a)))
    && (forall packed, scales, x :: |x| == 2 * |packed| == 16 * |scales| ==> Dots(ops, rd, packed, scales, x))
  }

  // ----- Matrices -----

  /** Entry (r, c) of a projection: code times block scale times output scale. A row is `cols / 2`
      bytes and `cols / 16` scales. */
  function Entry(rd: Reading, w: PackedWeights, r: nat, c: nat): real
    requires w.Valid() && r < w.rows && c < w.cols
  {
    EntryInside(w, r, c);
    Decoded(Code(Nibble(w.packed[r * (w.cols / 2) + c / 2], c)), rd.scaleOf(w.scales[r * (w.cols / 16) + c / 16]),
            rd.val(w.outputScale))
  }

  function Decoded(code: int, blockScale: real, outputScale: real): real {
    code as real * blockScale * outputScale
  }

  lemma EntryInside(w: PackedWeights, r: nat, c: nat)
    requires w.Valid() && r < w.rows && c < w.cols
    ensures r * (w.cols / 2) + c / 2 < |w.packed| && r * (w.cols / 16) + c / 16 < |w.scales|
  {
    RowBounds(w, r);
    RowWidths(r, w.cols / 2, w.cols / 16, w.cols);
  }

  /** Row `r` of a projection times a vector, over the first `n` columns. */
  function Times(rd: Reading, w: PackedWeights, r: nat, x: seq<real>, n: nat): real
    requires w.Valid() && r < w.rows && n <= w.cols == |x|
  {
    if n == 0 then 0.0 else Times(rd, w, r, x, n - 1) + Entry(rd, w, r, n - 1) * x[n - 1]
  }

  /** The expert's hidden vector: the activation of gate row `k` times up row `k`. */
  function Activated(rd: Reading, ex: Expert, x: seq<real>, intermediate: nat): (r: seq<real>)
    requires FitsLayer(ex, intermediate, |x|)
    ensures |r| == intermediate
  {
    seq(intermediate, k requires 0 <= k < intermediate =>
      rd.gelu(Times(rd, ex.gate, k, x, |x|)) * Times(rd, ex.up, k, x, |x|))
  }

  /** Output `r`: the sum over the first `count` experts of weight times the down matrix times the
      expert's hidden vector. */
  function Mixture(rd: Reading, experts: seq<Expert>, count: nat, x: seq<real>, intermediate: nat, r: nat): real
    requires FitsAll(experts, intermediate, |x|) && count <= |experts| && r < |x|
  {
    if count == 0 then 0.0
    else
      var ex := experts[count - 1];
      Mixture(rd, experts, count - 1, x, intermediate, r)
      + rd.val(ex.weight) * Times(rd, ex.down, r, Activated(rd, ex, x, intermediate), intermediate)
  }

  // ----- The layer is the mixture -----

  /** `packed` and `scales` are row `r` of the projection. */
  predicate IsRow(w: PackedWeights, r: nat, packed: seq<Byte>, scales: seq<Byte>) {
    && w.Valid() && r < w.rows && w.cols == 2 * |packed| == 16 * |scales|
    && r * (w.cols / 2) + |packed| <= |w.packed| && packed == w.packed[r * (w.cols / 2)..r * (w.cols / 2) + |packed|]
    && r * (w.cols / 16) + |scales| <= |w.scales| && scales == w.scales[r * (w.cols / 16)..r * (w.cols / 16) + |scales|]
  }

  lemma EntryOfRow(rd: Reading, w: PackedWeights, r: nat, packed: seq<Byte>, scales: seq<Byte>, c: nat)
    requires IsRow(w, r, packed, scales) && c < w.cols
    ensures Entry(rd, w, r, c) == Decoded(Code(Nibble(packed[c / 2], c)), rd.scaleOf(scales[c / 16]), rd.val(w.outputScale))
  {
    hide Code;
    hide Nibble;
    hide Decoded;
    EntryInside(w, r, c);
    InRow(w.packed, packed, r * (w.cols / 2), c / 2);
    InRow(w.scales, scales, r * (w.cols / 16), c / 16);
  }

  lemma InRow(all: seq<Byte>, row: seq<Byte>, at: nat, i: nat)
    requires at + |row| <= |all| && row == all[at..at + |row|] && i < |row|
    ensures row[i] == all[at + i]
  {
  }

  lemma {:induction false} DotIsTimes(rd: Reading, w: PackedWeights, r: nat, x: seq<real>, n: nat, packed: seq<Byte>, scales: seq<Byte>)
    requires IsRow(w, r, packed, scales) && w.Valid() && r < w.rows && n <= w.cols == |x| == 2 * |packed| == 16 * |scales|
    ensures Scale(PackedDot(rd.scaleOf, packed, scales, x, n), rd.val(w.outputScale)) == Times(rd, w, r, x, n)
  {
    hide Code;
    hide Nibble;
    hide IsRow;
    hide Entry;
    hide Term;
    hide Scale;
    hide Decoded;
    hide PackedWeights.Valid;
    if n > 0 {
      var c := n - 1;
      assert c / 2 < |packed| && c / 16 < |scales|;
      DotIsTimes(rd, w, r, x, c, packed, scales);
      EntryOfRow(rd, w, r, packed, scales, c);
      Rearranged(PackedDot(rd.scaleOf, packed, scales, x, c), Code(Nibble(packed[c / 2], c)), rd.scaleOf(scales[c / 16]),
                 x[c], rd.val(w.outputScale), Entry(rd, w, r, c));
    } else {
      NothingScaled(rd.val(w.outputScale));
    }
  }

  lemma NothingScaled(out: real)
    ensures Scale(0.0, out) == 0.0
  {
  }

  lemma Rearranged(sum: real, code: int, scale: real, x: real, out: real, entry: real)
    requires entry == Decoded(code, scale, out)
    ensures Scale(sum + Term(code, scale, x), out) == Scale(sum, out) + entry * x
  {
    var p := code as real * scale;
    assert (p * x) * out == (p * out) * x;
    assert (sum + p * x) * out == sum * out + (p * x) * out;
  }

  lemma RowSlices(w: PackedWeights, r: nat) returns (packed: seq<Byte>, scales: seq<Byte>)
    requires w.Valid() && r < w.rows
    ensures IsRow(w, r, packed, scales) && w.cols == 2 * |packed| == 16 * |scales|
    ensures forall ops: FloatOps, x: seq<Float> :: RowValue(ops, w, r, x) == ops.mul(ops.dot(packed, scales, x), w.outputScale)
  {
    RowBounds(w, r);
    var pc, sc := w.cols / 2, w.cols / SUB;
    RowWidths(r, pc, sc, w.cols);
    packed, scales := w.packed[r * pc..(r + 1) * pc], w.scales[r * sc..(r + 1) * sc];
  }

  lemma RowIsTimes(ops: FloatOps, rd: Reading, w: PackedWeights, r: nat, x: seq<Float>)
    requires Exact(ops, rd) && w.Valid() && r < w.rows && |x| == w.cols
    ensures rd.val(RowValue(ops, w, r, x)) == Times(rd, w, r, Vals(rd, x), |x|)
  {
    hide Exact;
    hide PackedWeights.Valid;
    hide IsRow;
    hide RowValue;
    hide Times;
    hide PackedDot;
    hide Scale;
    var packed, scales := RowSlices(w, r);
    DotIsTimes(rd, w, r, Vals(rd, x), |x|, packed, scales);
    ScaledDot(ops, rd, packed, scales, x, w.outputScale);
  }

  lemma ScaledDot(ops: FloatOps, rd: Reading, packed: seq<Byte>, scales: seq<Byte>, x: seq<Float>, out: Float)
    requires Exact(ops, rd) && |x| == 2 * |packed| == 16 * |scales|
    ensures rd.val(ops.mul(ops.dot(packed, scales, x), out))
         == Scale(PackedDot(rd.scaleOf, packed, scales, Vals(rd, x), |x|), rd.val(out))
  {
    hide PackedDot;
    assert Dots(ops, rd, packed, scales, x);
    assert Multiplies(ops, rd, ops.dot(packed, scales, x), out);
  }

  lemma RowWidths(r: nat, pc: nat, sc: nat, cols: nat)
    requires cols % 16 == 0 && pc == cols / 2 && sc == cols / 16
    ensures (r + 1) * pc == r * pc + pc && (r + 1) * sc == r * sc + sc && cols == 2 * pc == 16 * sc
  {
  }

  lemma ActivatedIs(ops: FloatOps, rd: Reading, ex: Expert, x: seq<Float>, intermediate: nat)
    requires Exact(ops, rd) && FitsLayer(ex, intermediate, |x|)
    ensures Vals(rd, Swiglu(ops, ex, x, intermediate)) == Activated(rd, ex, Vals(rd, x), intermediate)
  {
    hide RowValue;
    hide Times;
    var v, want := Swiglu(ops, ex, x, intermediate), Activated(rd, ex, Vals(rd, x), intermediate);
    forall k: nat | k < intermediate ensures rd.val(v[k]) == want[k] {
      RowIsTimes(ops, rd, ex.gate, k, x);
      RowIsTimes(ops, rd, ex.up, k, x);
      assert Multiplies(ops, rd, ops.gelu(RowValue(ops, ex.gate, k, x)), RowValue(ops, ex.up, k, x));
    }
  }

  lemma {:induction false} CombinedIsMixture(ops: FloatOps, rd: Reading, experts: seq<Expert>, count: nat, x: seq<Float>,
                                             intermediate: nat, r: nat)
    requires Exact(ops, rd) && FitsAll(experts, intermediate, |x|) && count <= |experts| && r < |x|
    ensures rd.val(Combined(ops, experts, count, x, intermediate, r))
         == Mixture(rd, experts, count, Vals(rd, x), intermediate, r)
  {
    hide ExpertOut;
    hide Activated;
    hide Times;
    hide Exact;
    if count > 0 {
      var ex := experts[count - 1];
      CombinedIsMixture(ops, rd, experts, count - 1, x, intermediate, r);
      ExpertIs(ops, rd, ex, x, intermediate, r);
      AddWeighted(ops, rd, Combined(ops, experts, count - 1, x, intermediate, r), ex.weight, ExpertOut(ops, ex, x, intermediate, r));
    } else {
      ZeroIs(ops, rd);
    }
  }

  lemma ZeroIs(ops: FloatOps, rd: Reading)
    requires Exact(ops, rd)
    ensures rd.val(ops.zero) == 0.0
  {
  }

  lemma AddWeighted(ops: FloatOps, rd: Reading, sum: Float, weight: Float, y: Float)
    requires Exact(ops, rd)
    ensures rd.val(ops.add(sum, ops.mul(weight, y))) == rd.val(sum) + rd.val(weight) * rd.val(y)
  {
    assert Multiplies(ops, rd, weight, y);
    assert Sums(ops, rd, sum, ops.mul(weight, y));
  }

  lemma ExpertIs(ops: FloatOps, rd: Reading, ex: Expert, x: seq<Float>, intermediate: nat, r: nat)
    requires Exact(ops, rd) && FitsLayer(ex, intermediate, |x|) && r < |x|
    ensures rd.val(ExpertOut(ops, ex, x, intermediate, r))
         == Times(rd, ex.down, r, Activated(rd, ex, Vals(rd, x), intermediate), intermediate)
  {
    hide RowValue;
    hide Times;
    ActivatedIs(ops, rd, ex, x, intermediate);
    RowIsTimes(ops, rd, ex.down, r, Swiglu(ops, ex, x, intermediate));
  }

  /** The accumulator, over any exact operations: every output row is the sum over the experts of
      weight times (down row times the vector of gelu(gate row times x) times (up row times x)). */
  ghost predicate IsMixture(ops: FloatOps, experts: seq<Expert>, x: seq<Float>, intermediate: nat, acc: seq<Float>)
    requires FitsAll(experts, intermediate, |x|)
  {
    |acc| == |x| && forall rd: Reading, r: nat :: Exact(ops, rd) && r < |x| ==>
      rd.val(acc[r]) == Mixture(rd, experts, |experts|, Vals(rd, x), intermediate, r)
  }

  lemma LayerIsMixture(ops: FloatOps, experts: seq<Expert>, x: seq<Float>, intermediate: nat)
    requires FitsAll(experts, intermediate, |x|)
    ensures IsMixture(ops, experts, x, intermediate, Layer(ops, experts, x, intermediate))
  {
    hide Exact;
    hide Combined;
    hide Mixture;
    var acc := Layer(ops, experts, x, intermediate);
    forall rd: Reading, r: nat | Exact(ops, rd) && r < |x|
      ensures rd.val(acc[r]) == Mixture(rd, experts, |experts|, Vals(rd, x), intermediate, r)
    {
      CombinedIsMixture(ops, rd, experts, |experts|, x, intermediate, r);
    }
  }
}
