/** NVFP4 linear layers on the CPU: per-row dequantise-then-dot, one token at a time
    (`MatvecInto`) or batched (`MatmulInto`), from packed nibbles or unpacked codes. */
module Linear {
  import opened Floats
  import opened Flat
  import opened Packing

  // A scale covers 16 columns (8 packed bytes), and a layer's width is a multiple of 64.

  /** `quantAt(x, s, i)` is element `i` of `x` quantised at input scale `s`; `gt0` and
      `le0` are the two comparisons with 0 the code makes (both false for a NaN). */
  datatype LinearOps = LinearOps(
    fromCode: int -> Float,
    scaleOf: Byte -> Float,
    mul: (Float, Float) -> Float,
    dot: (seq<Float>, seq<Float>) -> Float,
    zero: Float,
    quantAt: (seq<Float>, Float, nat) -> Float,
    gt0: Float -> bool,
    le0: Float -> bool)

  datatype Data =
    | Packed(packed: seq<Byte>, scaleBytes: seq<Byte>)
    | Unpacked(codes: seq<int>, scales: seq<Float>)

  datatype Linear = Linear(rows: nat, cols: nat, inputScale: Float, outputScale: Float, data: Data) {
    predicate Sized() {
      match data
      case Packed(packed, scaleBytes) => |packed| == rows * (cols / 2) && |scaleBytes| == rows * (cols / 16)
      case Unpacked(codes, scales) => |codes| == rows * cols && |scales| == rows * (cols / 16)
    }

    predicate Covered() {
      match data
      case Packed(packed, scaleBytes) => |packed| >= rows * (cols / 2) && |scaleBytes| >= rows * (cols / 16)
      case Unpacked(codes, scales) => |codes| >= rows * cols && |scales| >= rows * (cols / 16)
    }

    /** Every row's weights and scales are there; the buffers may be longer. */
    predicate Valid() {
      cols % 64 == 0 && Covered()
    }
  }

  datatype Status = Done | BadShape | BadBytes

  // ----- Weights -----

  lemma RowElement(row: nat, rows: nat, width: nat, k: nat)
    requires row < rows && k < width
    ensures row * width + k < rows * width
  {
    RowBounds(row, rows, width);
  }

  /** Two columns a byte, and a scale for every sixteen. */
  predicate RowShape(width: nat, bytes: nat, scales: nat) {
    width == 2 * bytes && width == 16 * scales
  }

  /** One dequantised weight row, from the packed bytes and scales of that row. */
  function PackedRow(ops: LinearOps, packed: seq<Byte>, scaleBytes: seq<Byte>): (r: seq<Float>)
    requires RowShape(2 * |packed|, |packed|, |scaleBytes|)
    ensures |r| == 2 * |packed|
  {
    seq(2 * |packed|, col requires 0 <= col < 2 * |packed| =>
      ops.mul(ops.fromCode(Code(Nibble(packed[col / 2], col))), ops.scaleOf(scaleBytes[col / 16])))
  }

  function UnpackedRow(ops: LinearOps, codes: seq<int>, scales: seq<Float>): (r: seq<Float>)
    requires |codes| == 16 * |scales|
    ensures |r| == |codes|
  {
    seq(|codes|, col requires 0 <= col < |codes| => ops.mul(ops.fromCode(codes[col]), scales[col / 16]))
  }

  /** The dequantised weights of row `row`. */
  function WeightRow(ops: LinearOps, lin: Linear, row: nat): (r: seq<Float>)
    requires lin.Valid() && row < lin.rows
    ensures |r| == lin.cols
  {
    seq(lin.cols, col requires 0 <= col < lin.cols => RowWeights(ops, lin, row)[col])
  }

  lemma Shapes(cols: nat)
    requires cols % 64 == 0
    ensures RowShape(cols, cols / 2, cols / 16)
  {
    var q := cols / 64;
    assert cols == 64 * q;
    assert cols / 2 == 32 * q && cols / 16 == 4 * q;
  }

  function RowWeights(ops: LinearOps, lin: Linear, row: nat): (r: seq<Float>)
    requires lin.Valid() && row < lin.rows
    ensures |r| == lin.cols
  {
    Shapes(lin.cols);
    RowBounds(row, lin.rows, lin.cols / 16);
    match lin.data
    case Packed(packed, scaleBytes) =>
      RowBounds(row, lin.rows, lin.cols / 2);
      PackedRow(ops, Row(packed, row, lin.cols / 2), Row(scaleBytes, row, lin.cols / 16))
    case Unpacked(codes, scales) =>
      RowBounds(row, lin.rows, lin.cols);
      UnpackedRow(ops, Row(codes, row, lin.cols), Row(scales, row, lin.cols / 16))
  }

  // ----- Inputs -----

  function Quantized(ops: LinearOps, x: seq<Float>, scale: Float): (r: seq<Float>)
    ensures |r| == |x|
  {
    seq(|x|, i requires 0 <= i < |x| => ops.quantAt(x, scale, i))
  }

  /** The input quantiser declines a scale that is not positive, and partial blocks. */
  predicate Declines(ops: LinearOps, x: seq<Float>, scale: Float) {
    ops.le0(scale) || x == [] || |x| % 16 != 0
  }

  function MatvecInput(ops: LinearOps, x: seq<Float>, scale: Float): (r: seq<Float>)
    ensures |r| == |x|
  {
    if Declines(ops, x, scale) then x else Quantized(ops, x, scale)
  }

  // ----- One token -----

  function OutputAt(ops: LinearOps, lin: Linear, x: seq<Float>, row: nat): Float
    requires lin.Valid() && row < lin.rows
  {
    ops.mul(ops.dot(WeightRow(ops, lin, row), x), lin.outputScale)
  }

  function Project(ops: LinearOps, lin: Linear, x: seq<Float>): (y: seq<Float>)
    requires lin.Valid()
    ensures |y| == lin.rows
  {
    seq(lin.rows, row requires 0 <= row < lin.rows => OutputAt(ops, lin, x, row))
  }

  /** `W x`, with the input quantised as the layer asks. */
  function MatVec(ops: LinearOps, lin: Linear, x: seq<Float>): (y: seq<Float>)
    requires lin.Valid() && |x| == lin.cols
    ensures |y| == lin.rows
  {
    Project(ops, lin, MatvecInput(ops, x, lin.inputScale))
  }

  // ----- Entry by entry -----

  /** Column `c` of packed row `r`: two columns a byte, sixteen a scale. */
  function PackedAt(ops: LinearOps, packed: seq<Byte>, scaleBytes: seq<Byte>, r: nat, half: nat, blocks: nat, c: nat): Float
    requires r * half + c / 2 < |packed| && r * blocks + c / 16 < |scaleBytes|
  {
    ops.mul(ops.fromCode(Code(Nibble(packed[r * half + c / 2], c))), ops.scaleOf(scaleBytes[r * blocks + c / 16]))
  }

  function UnpackedAt(ops: LinearOps, codes: seq<int>, scales: seq<Float>, r: nat, cols: nat, blocks: nat, c: nat): Float
    requires r * cols + c < |codes| && r * blocks + c / 16 < |scales|
  {
    ops.mul(ops.fromCode(codes[r * cols + c]), scales[r * blocks + c / 16])
  }

  /** Entry (r, c) of the weights. */
  function WeightAt(ops: LinearOps, lin: Linear, r: nat, c: nat): Float
    requires lin.Valid() && r < lin.rows && c < lin.cols
  {
    WeightInside(lin, r, c);
    match lin.data
    case Packed(packed, scaleBytes) => PackedAt(ops, packed, scaleBytes, r, lin.cols / 2, lin.cols / 16, c)
    case Unpacked(codes, scales) => UnpackedAt(ops, codes, scales, r, lin.cols, lin.cols / 16, c)
  }

  lemma WeightInside(lin: Linear, r: nat, c: nat)
    requires lin.Valid() && r < lin.rows && c < lin.cols
    ensures lin.data.Packed? ==> r * (lin.cols / 2) + c / 2 < |lin.data.packed|
    ensures lin.data.Packed? ==> r * (lin.cols / 16) + c / 16 < |lin.data.scaleBytes|
    ensures lin.data.Unpacked? ==> r * lin.cols + c < |lin.data.codes| && r * (lin.cols / 16) + c / 16 < |lin.data.scales|
  {
    Shapes(lin.cols);
    RowElement(r, lin.rows, lin.cols / 2, c / 2);
    RowElement(r, lin.rows, lin.cols / 16, c / 16);
    RowElement(r, lin.rows, lin.cols, c);
  }

  /** The input the products read: as it is if the scale is not positive or the row is no whole number
      of blocks of sixteen, else quantised. */
  function InputAt(ops: LinearOps, x: seq<Float>, scale: Float, i: nat): Float
    requires i < |x|
  {
    if ops.le0(scale) || |x| % 16 != 0 then x[i] else ops.quantAt(x, scale, i)
  }

  /** Output `r`: the product of row `r` of the weights with the input, times the output scale. */
  function ProductAt(ops: LinearOps, lin: Linear, x: seq<Float>, r: nat): Float
    requires lin.Valid() && r < lin.rows
  {
    ops.mul(ops.dot(seq(lin.cols, c requires 0 <= c < lin.cols => WeightAt(ops, lin, r, c)),
                    seq(|x|, i requires 0 <= i < |x| => InputAt(ops, x, lin.inputScale, i))),
            lin.outputScale)
  }

  lemma PackedRowAt(ops: LinearOps, packed: seq<Byte>, scaleBytes: seq<Byte>, r: nat, half: nat, blocks: nat, c: nat)
    requires RowShape(2 * half, half, blocks) && c < 2 * half
    requires (r + 1) * half <= |packed| && (r + 1) * blocks <= |scaleBytes|
    ensures r * half + c / 2 < |packed| && r * blocks + c / 16 < |scaleBytes|
    ensures PackedRow(ops, Row(packed, r, half), Row(scaleBytes, r, blocks))[c] == PackedAt(ops, packed, scaleBytes, r, half, blocks, c)
  {
    hide Code;
    hide Nibble;
    InRow(packed, r, half, c / 2);
    InRow(scaleBytes, r, blocks, c / 16);
    hide Row;
  }

  lemma UnpackedEntry(ops: LinearOps, codes: seq<int>, scales: seq<Float>, r: nat, cols: nat, blocks: nat, c: nat)
    requires cols == 16 * blocks && c < cols && (r + 1) * cols <= |codes| && (r + 1) * blocks <= |scales|
    ensures r * cols + c < |codes| && r * blocks + c / 16 < |scales|
    ensures UnpackedRow(ops, Row(codes, r, cols), Row(scales, r, blocks))[c] == UnpackedAt(ops, codes, scales, r, cols, blocks, c)
  {
    InRow(codes, r, cols, c);
    InRow(scales, r, blocks, c / 16);
    hide Row;
  }

  lemma WeightRowAt(ops: LinearOps, lin: Linear, r: nat, c: nat)
    requires lin.Valid() && r < lin.rows && c < lin.cols
    ensures WeightRow(ops, lin, r)[c] == WeightAt(ops, lin, r, c)
  {
    Shapes(lin.cols);
    RowBounds(r, lin.rows, lin.cols / 16);
    RowBounds(r, lin.rows, lin.cols / 2);
    RowBounds(r, lin.rows, lin.cols);
    hide PackedAt;
    hide UnpackedAt;
    hide PackedRow;
    hide UnpackedRow;
    hide Row;
    assert WeightRow(ops, lin, r)[c] == RowWeights(ops, lin, r)[c];
    match lin.data {
      case Packed(packed, scaleBytes) => PackedRowAt(ops, packed, scaleBytes, r, lin.cols / 2, lin.cols / 16, c);
      case Unpacked(codes, scales) => UnpackedEntry(ops, codes, scales, r, lin.cols, lin.cols / 16, c);
    }
  }

  lemma InRow<V>(flat: seq<V>, r: nat, width: nat, k: nat)
    requires (r + 1) * width <= |flat| && k < width
    ensures r * width + k < |flat| && Row(flat, r, width)[k] == flat[r * width + k]
  {
    RowBounds(r, r + 1, width);
  }

  /** Every element of the quantised view, for rows of any length. */
  lemma MatvecInputAt(ops: LinearOps, x: seq<Float>, scale: Float)
    ensures MatvecInput(ops, x, scale) == seq(|x|, i requires 0 <= i < |x| => InputAt(ops, x, scale, i))
  {
  }

  /** Every output of a projection. */
  lemma MatVecAt(ops: LinearOps, lin: Linear, x: seq<Float>, r: nat)
    requires lin.Valid() && |x| == lin.cols && r < lin.rows
    ensures MatVec(ops, lin, x)[r] == ProductAt(ops, lin, x, r)
  {
    hide WeightRow;
    hide WeightAt;
    var row := seq(lin.cols, c requires 0 <= c < lin.cols => WeightAt(ops, lin, r, c));
    forall c: nat | c < lin.cols ensures WeightRow(ops, lin, r)[c] == row[c] {
      WeightRowAt(ops, lin, r, c);
    }
    assert WeightRow(ops, lin, r) == row;
    MatvecInputAt(ops, x, lin.inputScale);
  }

  // ----- Dequantising one row into scratch -----

  method WritePair<V>(scratch: array<V>, lo: nat, low: V, high: V)
    requires lo + 1 < scratch.Length
    modifies scratch
    ensures scratch[..lo + 2] == old(scratch[..lo]) + [low, high]
  {
    scratch[lo] := low;
    scratch[lo + 1] := high;
  }

  lemma PrefixByTwo<V>(s: seq<V>, lo: nat, low: V, high: V)
    requires lo + 2 <= |s| && s[lo] == low && s[lo + 1] == high
    ensures s[..lo + 2] == s[..lo] + [low, high]
  {
  }

  lemma PairBlock(at: nat)
    ensures (2 * at) / 16 == (2 * at + 1) / 16 == at / 8
    ensures (2 * at) / 2 == (2 * at + 1) / 2 == at
  {
  }

  method DequantPair(ops: LinearOps, packedRow: seq<Byte>, scaleRow: seq<Byte>, at: nat, scratch: array<Float>)
    requires RowShape(scratch.Length, |packedRow|, |scaleRow|) && at < |packedRow|
    requires scratch[..2 * at] == PackedRow(ops, packedRow, scaleRow)[..2 * at]
    modifies scratch
    ensures scratch[..2 * at + 2] == PackedRow(ops, packedRow, scaleRow)[..2 * at + 2]
  {
    var byte, blockScale := packedRow[at], ops.scaleOf(scaleRow[at / 8]);
    var low, high := ops.mul(ops.fromCode(Code(byte % 16)), blockScale), ops.mul(ops.fromCode(Code(byte / 16)), blockScale);
    PairBlock(at);
    PrefixByTwo(PackedRow(ops, packedRow, scaleRow), 2 * at, low, high);
    WritePair(scratch, 2 * at, low, high);
  }

  method DequantPacked(ops: LinearOps, packedRow: seq<Byte>, scaleRow: seq<Byte>, scratch: array<Float>)
    requires RowShape(scratch.Length, |packedRow|, |scaleRow|)
    modifies scratch
    ensures scratch[..] == PackedRow(ops, packedRow, scaleRow)
  {
    for block := 0 to |scaleRow|
      invariant scratch[..16 * block] == PackedRow(ops, packedRow, scaleRow)[..16 * block]
    {
      var packedBase := block * 8;
      for j := 0 to 8
        invariant scratch[..2 * (packedBase + j)] == PackedRow(ops, packedRow, scaleRow)[..2 * (packedBase + j)]
      {
        DequantPair(ops, packedRow, scaleRow, packedBase + j, scratch);
      }
    }
  }

  method DequantUnpacked(ops: LinearOps, weightRow: seq<int>, scaleRow: seq<Float>, scratch: array<Float>)
    requires |weightRow| == 16 * |scaleRow| == scratch.Length
    modifies scratch
    ensures scratch[..] == UnpackedRow(ops, weightRow, scaleRow)
  {
    ghost var want := UnpackedRow(ops, weightRow, scaleRow);
    for block := 0 to |scaleRow|
      invariant scratch[..16 * block] == want[..16 * block]
    {
      var inputBase, blockScale := block * 16, scaleRow[block];
      for k := 0 to 16
        invariant scratch[..inputBase + k] == want[..inputBase + k]
      {
        scratch[inputBase + k] := ops.mul(ops.fromCode(weightRow[inputBase + k]), blockScale);
        assert scratch[..inputBase + k + 1] == scratch[..inputBase + k] + [want[inputBase + k]];
      }
    }
  }

  method DequantRow(ops: LinearOps, lin: Linear, row: nat, scratch: array<Float>)
    requires lin.Valid() && row < lin.rows && scratch.Length == lin.cols
    modifies scratch
    ensures scratch[..] == WeightRow(ops, lin, row)
  {
    Shapes(lin.cols);
    RowBounds(row, lin.rows, lin.cols / 16);
    match lin.data {
      case Packed(packed, scaleBytes) =>
        RowBounds(row, lin.rows, lin.cols / 2);
        DequantPacked(ops, Row(packed, row, lin.cols / 2), Row(scaleBytes, row, lin.cols / 16), scratch);
      case Unpacked(codes, scales) =>
        RowBounds(row, lin.rows, lin.cols);
        DequantUnpacked(ops, Row(codes, row, lin.cols), Row(scales, row, lin.cols / 16), scratch);
    }
    assert WeightRow(ops, lin, row) == RowWeights(ops, lin, row);
  }

  // ----- The two entry points -----

  method MatvecInto(ops: LinearOps, lin: Linear, x: seq<Float>, output: array<Float>) returns (status: Status)
    requires lin.cols % 64 == 0
    modifies output
    ensures status.BadShape? <==> |x| != lin.cols || output.Length != lin.rows
    ensures status.BadBytes? <==> |x| == lin.cols && output.Length == lin.rows && !lin.Sized()
    ensures status.Done? ==> output[..] == MatVec(ops, lin, x)
    ensures status.Done? ==> forall r: nat :: r < lin.rows ==> output[r] == ProductAt(ops, lin, x, r)
    ensures !status.Done? ==> output[..] == old(output[..])
  {
    if |x| != lin.cols || output.Length != lin.rows {
      return BadShape;
    }
    var input := MatvecInput(ops, x, lin.inputScale);
    if !lin.Sized() {
      return BadBytes;
    }
    var scratch := new Float[lin.cols](_ => ops.zero);
    for row := 0 to lin.rows
      invariant output[..row] == MatVec(ops, lin, x)[..row]
    {
      DequantRow(ops, lin, row, scratch);
      output[row] := ops.mul(ops.dot(scratch[..], input), lin.outputScale);
      assert output[..row + 1] == output[..row] + [MatVec(ops, lin, x)[row]];
    }
    forall r: nat | r < lin.rows ensures output[..][r] == ProductAt(ops, lin, x, r) {
      MatVecAt(ops, lin, x, r);
    }
    return Done;
  }

  /** The batched input view: each token quantised on its own when the scale is positive. */
  function MatmulInput(ops: LinearOps, x: seq<Float>, scale: Float): (r: seq<Float>)
    ensures |r| == |x|
  {
    if ops.gt0(scale) then MatvecInput(ops, x, scale) else x
  }

  /** The first `n` rows of `view` are the inputs the dot products read. */
  predicate ViewRows(ops: LinearOps, lin: Linear, input: seq<Float>, view: seq<Float>, n: nat) {
    forall t: nat :: t < n ==> ViewRow(ops, lin, input, view, t)
  }

  predicate ViewRow(ops: LinearOps, lin: Linear, input: seq<Float>, view: seq<Float>, t: nat) {
    && (t + 1) * lin.cols <= |view| && (t + 1) * lin.cols <= |input|
    && Row(view, t, lin.cols) == MatmulInput(ops, Row(input, t, lin.cols), lin.inputScale)
  }

  lemma ViewGrows(ops: LinearOps, lin: Linear, input: seq<Float>, view: seq<Float>, n: nat, row: seq<Float>)
    requires |view| == n * lin.cols && (n + 1) * lin.cols <= |input| && |row| == lin.cols
    requires ViewRows(ops, lin, input, view, n)
    requires row == MatmulInput(ops, Row(input, n, lin.cols), lin.inputScale)
    ensures |view + row| == (n + 1) * lin.cols && ViewRows(ops, lin, input, view + row, n + 1)
  {
    RowBounds(n, n + 1, lin.cols);
    forall t: nat | t < n + 1 ensures ViewRow(ops, lin, input, view + row, t) {
      RowBounds(t, n + 1, lin.cols);
      if t < n {
        assert (view + row)[..n * lin.cols] == view[..n * lin.cols];
        RowKept(view + row, view, t, n, lin.cols);
        assert ViewRow(ops, lin, input, view, t);
      } else {
        assert Row(view + row, n, lin.cols) == row;
      }
    }
  }

  method QuantizeBatch(ops: LinearOps, lin: Linear, input: seq<Float>, batch: nat) returns (view: seq<Float>)
    requires |input| == batch * lin.cols
    ensures |view| == |input| && ViewRows(ops, lin, input, view, batch)
  {
    if !ops.gt0(lin.inputScale) {
      forall t: nat | t < batch ensures ViewRow(ops, lin, input, input, t) {
        RowBounds(t, batch, lin.cols);
      }
      return input;
    }
    view := [];
    for token := 0 to batch
      invariant |view| == token * lin.cols && ViewRows(ops, lin, input, view, token)
    {
      RowBounds(token, batch, lin.cols);
      var row := MatvecInput(ops, Row(input, token, lin.cols), lin.inputScale);
      ViewGrows(ops, lin, input, view, token, row);
      view := view + row;
    }
  }

  /** One weight row against every token. */
  method RowOutputs(ops: LinearOps, lin: Linear, view: seq<Float>, batch: nat, row: nat, scratch: array<Float>)
    returns (rowOut: seq<Float>)
    requires lin.Valid() && row < lin.rows && |view| == batch * lin.cols && scratch.Length == lin.cols
    modifies scratch
    ensures |rowOut| == batch
    ensures forall t: nat :: t < batch ==> IsOutput(ops, lin, view, row, t, rowOut[t])
  {
    DequantRow(ops, lin, row, scratch);
    rowOut := [];
    for token := 0 to batch
      invariant |rowOut| == token && scratch[..] == WeightRow(ops, lin, row)
      invariant forall t: nat :: t < token ==> IsOutput(ops, lin, view, row, t, rowOut[t])
    {
      RowBounds(token, batch, lin.cols);
      rowOut := rowOut + [ops.mul(ops.dot(scratch[..], Row(view, token, lin.cols)), lin.outputScale)];
    }
  }

  predicate IsOutput(ops: LinearOps, lin: Linear, view: seq<Float>, row: nat, t: nat, y: Float)
    requires lin.Valid() && row < lin.rows
  {
    (t + 1) * lin.cols <= |view| && y == OutputAt(ops, lin, Row(view, t, lin.cols), row)
  }

  // ----- Scattering rows of outputs into the batch-major buffer -----

  lemma SlotsDiffer(t: nat, r: nat, t': nat, r': nat, rows: nat)
    requires r < rows && r' < rows && t * rows + r == t' * rows + r'
    ensures t == t' && r == r'
  {
    if t < t' {
      RowBounds(t, t', rows);
    } else if t' < t {
      RowBounds(t', t, rows);
    }
  }

  predicate CellIs(output: seq<Float>, rows: nat, t: nat, r: nat, y: Float) {
    t * rows + r < |output| && output[t * rows + r] == y
  }

  method WriteCell(output: array<Float>, batch: nat, rows: nat, token: nat, row: nat, y: Float)
    requires output.Length == batch * rows && token < batch && row < rows
    modifies output
    ensures CellIs(output[..], rows, token, row, y)
    ensures forall t: nat, r: nat, z: Float :: r < rows && (t, r) != (token, row) && CellIs(old(output[..]), rows, t, r, z)
              ==> CellIs(output[..], rows, t, r, z)
  {
    RowElement(token, batch, rows, row);
    ghost var was := output[..];
    output[token * rows + row] := y;
    forall t: nat, r: nat, z: Float | r < rows && (t, r) != (token, row) && CellIs(was, rows, t, r, z)
      ensures CellIs(output[..], rows, t, r, z)
    {
      if t * rows + r == token * rows + row {
        SlotsDiffer(t, r, token, row, rows);
      }
    }
  }

  method Scatter(rowOutputs: seq<seq<Float>>, batch: nat, output: array<Float>)
    requires forall r :: 0 <= r < |rowOutputs| ==> |rowOutputs[r]| == batch
    requires output.Length == batch * |rowOutputs|
    modifies output
    ensures forall r: nat, t: nat :: r < |rowOutputs| && t < batch
              ==> CellIs(output[..], |rowOutputs|, t, r, rowOutputs[r][t])
  {
    var rows := |rowOutputs|;
    for row := 0 to rows
      invariant forall r: nat, t: nat :: r < row && t < batch ==> CellIs(output[..], rows, t, r, rowOutputs[r][t])
    {
      for token := 0 to batch
        invariant forall r: nat, t: nat :: r < row && t < batch ==> CellIs(output[..], rows, t, r, rowOutputs[r][t])
        invariant forall t: nat :: t < token ==> CellIs(output[..], rows, t, row, rowOutputs[row][t])
      {
        WriteCell(output, batch, rows, token, row, rowOutputs[row][token]);
      }
    }
  }

  /** Token `t`'s outputs are those of its own input view. */
  predicate TokenDone(ops: LinearOps, lin: Linear, input: seq<Float>, output: seq<Float>, t: nat)
    requires lin.Valid()
  {
    && (t + 1) * lin.cols <= |input| && (t + 1) * lin.rows <= |output|
    && Row(output, t, lin.rows) == Project(ops, lin, MatmulInput(ops, Row(input, t, lin.cols), lin.inputScale))
  }

  lemma CellsMakeRow(ops: LinearOps, lin: Linear, input: seq<Float>, view: seq<Float>, rowOutputs: seq<seq<Float>>,
                     output: seq<Float>, batch: nat, t: nat)
    requires lin.Valid() && t < batch && |output| == batch * lin.rows && |input| == batch * lin.cols
    requires ViewRow(ops, lin, input, view, t)
    requires |rowOutputs| == lin.rows && forall r :: 0 <= r < lin.rows ==> |rowOutputs[r]| == batch
    requires forall r: nat :: r < lin.rows ==> IsOutput(ops, lin, view, r, t, rowOutputs[r][t])
    requires forall r: nat :: r < lin.rows ==> CellIs(output, lin.rows, t, r, rowOutputs[r][t])
    ensures TokenDone(ops, lin, input, output, t)
  {
    RowBounds(t, batch, lin.rows);
    var want := Project(ops, lin, Row(view, t, lin.cols));
    forall r: nat | r < lin.rows ensures Row(output, t, lin.rows)[r] == want[r] {
      assert CellIs(output, lin.rows, t, r, rowOutputs[r][t]);
      assert IsOutput(ops, lin, view, r, t, rowOutputs[r][t]);
    }
    assert Row(output, t, lin.rows) == want;
  }

  /** An empty batch is accepted whatever the buffers' sizes. */
  method MatmulInto(ops: LinearOps, lin: Linear, input: seq<Float>, batch: nat, output: array<Float>) returns (status: Status)
    requires lin.Valid()
    modifies output
    ensures status.Done? <==> batch == 0 || (|input| == batch * lin.cols && output.Length == batch * lin.rows)
    ensures status.Done? ==> forall t: nat :: t < batch ==> TokenDone(ops, lin, input, output[..], t)
    ensures !status.Done? || batch == 0 ==> output[..] == old(output[..])
  {
    if batch == 0 {
      return Done;
    }
    if |input| != batch * lin.cols || output.Length != batch * lin.rows {
      return BadShape;
    }
    var view := QuantizeBatch(ops, lin, input, batch);
    var rowOutputs := AllRows(ops, lin, view, batch);
    Scatter(rowOutputs, batch, output);
    forall t: nat | t < batch ensures TokenDone(ops, lin, input, output[..], t) {
      assert ViewRow(ops, lin, input, view, t);
      CellsMakeRow(ops, lin, input, view, rowOutputs, output[..], batch, t);
    }
    return Done;
  }

  method AllRows(ops: LinearOps, lin: Linear, view: seq<Float>, batch: nat) returns (rowOutputs: seq<seq<Float>>)
    requires lin.Valid() && |view| == batch * lin.cols
    ensures |rowOutputs| == lin.rows && forall r :: 0 <= r < lin.rows ==> |rowOutputs[r]| == batch
    ensures forall r: nat, t: nat :: r < lin.rows && t < batch ==> IsOutput(ops, lin, view, r, t, rowOutputs[r][t])
  {
    var scratch := new Float[lin.cols](_ => ops.zero);
    rowOutputs := [];
    for row := 0 to lin.rows
      invariant |rowOutputs| == row && forall r :: 0 <= r < row ==> |rowOutputs[r]| == batch
      invariant forall r: nat, t: nat :: r < row && t < batch ==> IsOutput(ops, lin, view, r, t, rowOutputs[r][t])
    {
      var rowOut := RowOutputs(ops, lin, view, batch, row, scratch);
      rowOutputs := rowOutputs + [rowOut];
    }
  }

  // ----- Batched equals one at a time -----

  /** The scale is comparable with 0, so not a NaN. */
  predicate Ordered(ops: LinearOps, scale: Float) {
    ops.gt0(scale) || ops.le0(scale)
  }

  /** One batched call gives every token what its own `MatvecInto` would. */
  lemma BatchIsPerToken(ops: LinearOps, lin: Linear, input: seq<Float>, output: seq<Float>, t: nat)
    requires lin.Valid() && Ordered(ops, lin.inputScale)
    requires (t + 1) * lin.cols <= |input| && (t + 1) * lin.rows <= |output|
    ensures TokenDone(ops, lin, input, output, t)
       <==> Row(output, t, lin.rows) == MatVec(ops, lin, Row(input, t, lin.cols))
  {
  }

  /** Every output of a batched call, when the input scale is ordered. */
  lemma MatmulAt(ops: LinearOps, lin: Linear, input: seq<Float>, output: seq<Float>, t: nat, r: nat)
    requires lin.Valid() && Ordered(ops, lin.inputScale) && TokenDone(ops, lin, input, output, t) && r < lin.rows
    ensures t * lin.rows + r < |output|
    ensures output[t * lin.rows + r] == ProductAt(ops, lin, Row(input, t, lin.cols), r)
  {
    hide ProductAt;
    BatchIsPerToken(ops, lin, input, output, t);
    MatVecAt(ops, lin, Row(input, t, lin.cols), r);
    InRow(output, t, lin.rows, r);
  }

  /** At a scale that is not comparable with 0, every scaled value is a NaN, the running maximum
      skips it, and the quantiser fills the block with zeros (`Nvfp4Input.NanScaleBlanks`). */
  ghost predicate BlanksUnordered(ops: LinearOps) {
    forall x: seq<Float>, s: Float, i: nat :: i < |x| && !Ordered(ops, s) ==> ops.quantAt(x, s, i) == ops.zero
  }

  predicate AllZero(ops: LinearOps, x: seq<Float>) {
    forall i :: 0 <= i < |x| ==> x[i] == ops.zero
  }

  /** With a NaN scale the batched path skips the quantiser and the other does not. The two views
      agree exactly when the scale is ordered, the quantiser declines, or the input is all zero. */
  lemma ViewsAgreeIff(ops: LinearOps, x: seq<Float>, scale: Float)
    requires BlanksUnordered(ops)
    ensures MatmulInput(ops, x, scale) == MatvecInput(ops, x, scale)
       <==> Ordered(ops, scale) || Declines(ops, x, scale) || AllZero(ops, x)
  {
    if !Ordered(ops, scale) && !Declines(ops, x, scale) {
      forall i: nat | i < |x| ensures Quantized(ops, x, scale)[i] == ops.zero {
        assert ops.quantAt(x, scale, i) == ops.zero;
      }
      assert MatmulInput(ops, x, scale) == x && MatvecInput(ops, x, scale) == Quantized(ops, x, scale);
      if AllZero(ops, x) {
        assert Quantized(ops, x, scale) == x;
      }
    }
  }

  /** One block with a single nonzero element, at a NaN scale: batched keeps it, single blanks it. */
  lemma NanScaleDiffers(ops: LinearOps, nan: Float, one: Float)
    requires BlanksUnordered(ops) && !Ordered(ops, nan) && one != ops.zero
    ensures
      var x := seq(16, i => if i == 0 then one else ops.zero);
      && MatmulInput(ops, x, nan) == x
      && MatvecInput(ops, x, nan) == seq(16, _ => ops.zero) != x
  {
    var x := seq(16, i => if i == 0 then one else ops.zero);
    forall i: nat | i < 16 ensures Quantized(ops, x, nan)[i] == ops.zero {
      assert ops.quantAt(x, nan, i) == ops.zero;
    }
    assert seq(16, _ => ops.zero)[0] != x[0];
  }

  // ----- Unpacking -----

  /** The unpacked form of a packed layer: one code per column, one decoded scale per block. */
  function UnpackedCodes(packed: seq<Byte>): (r: seq<int>)
    ensures |r| == 2 * |packed|
  {
    seq(2 * |packed|, i requires 0 <= i < 2 * |packed| => Code(Nibble(packed[i / 2], i)))
  }

  function UnpackedScales(ops: LinearOps, scaleBytes: seq<Byte>): (r: seq<Float>)
    ensures |r| == |scaleBytes|
  {
    seq(|scaleBytes|, i requires 0 <= i < |scaleBytes| => ops.scaleOf(scaleBytes[i]))
  }

  function UnpackedLinear(ops: LinearOps, lin: Linear): Linear
    requires lin.data.Packed?
  {
    lin.(data := Unpacked(UnpackedCodes(lin.data.packed), UnpackedScales(ops, lin.data.scaleBytes)))
  }

  lemma UnpackedIsValid(ops: LinearOps, lin: Linear)
    requires lin.Valid() && lin.data.Packed?
    ensures UnpackedLinear(ops, lin).Valid()
  {
    Shapes(lin.cols);
    Doubled(lin.rows, lin.cols / 2, lin.cols);
  }

  lemma Doubled(rows: nat, half: nat, cols: nat)
    requires cols == 2 * half
    ensures 2 * (rows * half) == rows * cols
  {
    MulAssoc(rows, half, 2);
  }

  /** A row of the unpacked codes is the unpacked row. */
  lemma UnpackedRowOf(packed: seq<Byte>, row: nat, half: nat)
    requires (row + 1) * half <= |packed|
    ensures (row + 1) * (2 * half) <= 2 * |packed|
    ensures Row(UnpackedCodes(packed), row, 2 * half) == UnpackedCodes(Row(packed, row, half))
  {
    var first := row * half;
    MulAssoc(row, half, 2);
    MulAssoc(row + 1, half, 2);
    RowBounds(row, row + 1, half);
    assert row * (2 * half) == 2 * first;
    UnpackedSlice(packed, first, half);
    hide UnpackedCodes;
  }

  lemma UnpackedSlice(packed: seq<Byte>, first: nat, half: nat)
    requires first + half <= |packed|
    ensures UnpackedCodes(packed)[2 * first..2 * first + 2 * half] == UnpackedCodes(packed[first..first + half])
  {
    hide Code;
    hide Nibble;
    var a, b := UnpackedCodes(packed)[2 * first..2 * first + 2 * half], UnpackedCodes(packed[first..first + half]);
    forall i: nat | i < 2 * half ensures a[i] == b[i] {
      assert (2 * first + i) / 2 == first + i / 2 && (2 * first + i) % 2 == i % 2;
      SameNibble(packed[first + i / 2], 2 * first + i, i);
    }
  }

  lemma SameNibble(b: Byte, i: nat, j: nat)
    requires i % 2 == j % 2
    ensures Nibble(b, i) == Nibble(b, j)
  {
  }

  lemma UnpackedScalesOf(ops: LinearOps, scaleBytes: seq<Byte>, row: nat, width: nat)
    requires (row + 1) * width <= |scaleBytes|
    ensures Row(UnpackedScales(ops, scaleBytes), row, width) == UnpackedScales(ops, Row(scaleBytes, row, width))
  {
    RowBounds(row, row + 1, width);
  }

  lemma UnpackedWeights(ops: LinearOps, packed: seq<Byte>, scaleBytes: seq<Byte>)
    requires RowShape(2 * |packed|, |packed|, |scaleBytes|)
    ensures UnpackedRow(ops, UnpackedCodes(packed), UnpackedScales(ops, scaleBytes)) == PackedRow(ops, packed, scaleBytes)
  {
  }

  lemma UnpackedWeightRow(ops: LinearOps, lin: Linear, row: nat)
    requires lin.Valid() && lin.data.Packed? && row < lin.rows && UnpackedLinear(ops, lin).Valid()
    ensures RowWeights(ops, UnpackedLinear(ops, lin), row) == RowWeights(ops, lin, row)
  {
    var half, width := lin.cols / 2, lin.cols / 16;
    Shapes(lin.cols);
    RowBounds(row, lin.rows, half);
    RowBounds(row, lin.rows, width);
    UnpackedRowAt(ops, lin.data.packed, lin.data.scaleBytes, row, half, width);
  }

  lemma UnpackedRowAt(ops: LinearOps, packed: seq<Byte>, scaleBytes: seq<Byte>, row: nat, half: nat, width: nat)
    requires RowShape(2 * half, half, width)
    requires (row + 1) * half <= |packed| && (row + 1) * width <= |scaleBytes|
    ensures (row + 1) * (2 * half) <= 2 * |packed|
    ensures UnpackedRow(ops, Row(UnpackedCodes(packed), row, 2 * half), Row(UnpackedScales(ops, scaleBytes), row, width))
         == PackedRow(ops, Row(packed, row, half), Row(scaleBytes, row, width))
  {
    UnpackedRowOf(packed, row, half);
    UnpackedScalesOf(ops, scaleBytes, row, width);
    UnpackedWeights(ops, Row(packed, row, half), Row(scaleBytes, row, width));
  }

  /** Unpacking at load time does not change what the layer computes, for one token or many. */
  lemma UnpackingKeepsMatVec(ops: LinearOps, lin: Linear, x: seq<Float>)
    requires lin.Valid() && lin.data.Packed?
    ensures UnpackedLinear(ops, lin).Valid()
    ensures Project(ops, UnpackedLinear(ops, lin), x) == Project(ops, lin, x)
    ensures |x| == lin.cols ==> MatVec(ops, UnpackedLinear(ops, lin), x) == MatVec(ops, lin, x)
  {
    UnpackedIsValid(ops, lin);
    forall y: seq<Float>, row: nat | row < lin.rows
      ensures OutputAt(ops, UnpackedLinear(ops, lin), y, row) == OutputAt(ops, lin, y, row)
    {
      UnpackedWeightRow(ops, lin, row);
      assert WeightRow(ops, UnpackedLinear(ops, lin), row) == WeightRow(ops, lin, row);
    }
    forall y: seq<Float> ensures Project(ops, UnpackedLinear(ops, lin), y) == Project(ops, lin, y) {
    }
  }

  method UnpackPair(packed: seq<Byte>, at: nat, weights: array<int>)
    requires at < |packed| && weights.Length == 2 * |packed|
    requires weights[..2 * at] == UnpackedCodes(packed)[..2 * at]
    modifies weights
    ensures weights[..2 * at + 2] == UnpackedCodes(packed)[..2 * at + 2]
  {
    var byte := packed[at];
    PrefixByTwo(UnpackedCodes(packed), 2 * at, Code(byte % 16), Code(byte / 16));
    WritePair(weights, 2 * at, Code(byte % 16), Code(byte / 16));
  }

  method UnpackBytes(packed: seq<Byte>, first: nat, weights: array<int>)
    requires first + 8 <= |packed| && weights.Length == 2 * |packed|
    requires weights[..2 * first] == UnpackedCodes(packed)[..2 * first]
    modifies weights
    ensures weights[..2 * (first + 8)] == UnpackedCodes(packed)[..2 * (first + 8)]
  {
    for j := 0 to 8
      invariant weights[..2 * (first + j)] == UnpackedCodes(packed)[..2 * (first + j)]
    {
      UnpackPair(packed, first + j, weights);
    }
  }

  /** The first `at` blocks of the layer are unpacked. */
  predicate UnpackedTo(ops: LinearOps, packed: seq<Byte>, scaleBytes: seq<Byte>, at: nat,
                       weights: seq<int>, scales: seq<Float>)
  {
    && at <= |scaleBytes| == |scales| && |weights| == 2 * |packed| == 16 * |scaleBytes|
    && weights[..16 * at] == UnpackedCodes(packed)[..16 * at]
    && scales[..at] == UnpackedScales(ops, scaleBytes)[..at]
  }

  method UnpackBlock(ops: LinearOps, packed: seq<Byte>, scaleBytes: seq<Byte>, at: nat,
                     weights: array<int>, scales: array<Float>)
    requires at < |scaleBytes| && weights != scales
    requires UnpackedTo(ops, packed, scaleBytes, at, weights[..], scales[..])
    modifies weights, scales
    ensures UnpackedTo(ops, packed, scaleBytes, at + 1, weights[..], scales[..])
  {
    WriteScale(scales, at, ops.scaleOf(scaleBytes[at]));
    var want := UnpackedScales(ops, scaleBytes);
    assert want[..at + 1] == want[..at] + [want[at]];
    UnpackBytes(packed, 8 * at, weights);
  }

  method WriteScale(scales: array<Float>, at: nat, y: Float)
    requires at < scales.Length
    modifies scales
    ensures scales[..at + 1] == old(scales[..at]) + [y]
  {
    scales[at] := y;
  }

  method UnpackRow(ops: LinearOps, packed: seq<Byte>, scaleBytes: seq<Byte>, first: nat, scaleCols: nat,
                   weights: array<int>, scales: array<Float>)
    requires first + scaleCols <= |scaleBytes| && weights != scales
    requires UnpackedTo(ops, packed, scaleBytes, first, weights[..], scales[..])
    modifies weights, scales
    ensures UnpackedTo(ops, packed, scaleBytes, first + scaleCols, weights[..], scales[..])
  {
    for block := 0 to scaleCols
      invariant UnpackedTo(ops, packed, scaleBytes, first + block, weights[..], scales[..])
    {
      UnpackBlock(ops, packed, scaleBytes, first + block, weights, scales);
    }
  }

  lemma SizesMatch(rows: nat, cols: nat)
    requires cols % 64 == 0
    ensures 2 * (rows * (cols / 2)) == 16 * (rows * (cols / 16))
  {
    var scaleCols := cols / 16;
    assert cols / 2 == scaleCols * 8;
    MulAssoc(rows, scaleCols, 8);
  }

  method UnpackNvfp4Linear(ops: LinearOps, rows: nat, cols: nat, packed: seq<Byte>, scaleBytes: seq<Byte>)
    returns (status: Status, weights: array<int>, scales: array<Float>)
    requires cols % 64 == 0
    ensures status.Done? <==> |packed| == rows * (cols / 2) && |scaleBytes| == rows * (cols / 16)
    ensures status.Done? ==> weights[..] == UnpackedCodes(packed) && scales[..] == UnpackedScales(ops, scaleBytes)
    ensures fresh(weights) && fresh(scales)
  {
    if |packed| != rows * (cols / 2) || |scaleBytes| != rows * (cols / 16) {
      return BadBytes, new int[0], new Float[0];
    }
    SizesMatch(rows, cols);
    weights, scales := UnpackRows(ops, rows, cols / 16, packed, scaleBytes);
    return Done, weights, scales;
  }

  method UnpackRows(ops: LinearOps, rows: nat, scaleCols: nat, packed: seq<Byte>, scaleBytes: seq<Byte>)
    returns (weights: array<int>, scales: array<Float>)
    requires |scaleBytes| == rows * scaleCols && 2 * |packed| == 16 * |scaleBytes|
    ensures weights[..] == UnpackedCodes(packed) && scales[..] == UnpackedScales(ops, scaleBytes)
    ensures fresh(weights) && fresh(scales)
  {
    weights := new int[2 * |packed|];
    scales := new Float[|scaleBytes|];
    for row := 0 to rows
      invariant UnpackedTo(ops, packed, scaleBytes, row * scaleCols, weights[..], scales[..])
    {
      RowBounds(row, rows, scaleCols);
      UnpackRow(ops, packed, scaleBytes, row * scaleCols, scaleCols, weights, scales);
    }
    assert weights[..] == weights[..16 * |scaleBytes|] && scales[..] == scales[..|scaleBytes|];
  }
}
