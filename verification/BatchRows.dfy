/** The prefill path's flat batch buffers, one operation per loop: each leaves, row for
    row, what the per-token operation gives. */
module BatchRows {
  import opened Floats
  import opened Packing
  import opened Flat
  import opened Forward
  import L = Linear

  // ----- What each buffer holds -----

  function RmsRows(ops: Ops, hs: seq<seq<Float>>, weight: seq<Float>): (r: seq<seq<Float>>)
    ensures |r| == |hs|
  {
    seq(|hs|, t requires 0 <= t < |hs| => Rms(ops, hs[t], weight))
  }

  predicate Wide(rows: seq<seq<Float>>, width: nat) {
    forall t :: 0 <= t < |rows| ==> |rows[t]| == width
  }

  function MatRows(ops: Ops, lin: L.Linear, rows: seq<seq<Float>>): (r: seq<seq<Float>>)
    requires lin.Valid() && Wide(rows, lin.cols)
    ensures |r| == |rows| && Wide(r, lin.rows)
  {
    seq(|rows|, t requires 0 <= t < |rows| => L.MatVec(ops.lin, lin, rows[t]))
  }

  function RopeRows(ops: Ops, rows: seq<seq<Float>>, start: nat, heads: nat, headDim: nat): (r: seq<seq<Float>>)
    ensures |r| == |rows|
  {
    seq(|rows|, t requires 0 <= t < |rows| => Rope(ops, rows[t], start + t, heads, headDim))
  }

  function SumRows(ops: Ops, a: seq<seq<Float>>, b: seq<seq<Float>>, width: nat): (r: seq<seq<Float>>)
    requires |a| == |b| && Wide(a, width) && Wide(b, width)
    ensures |r| == |a| && Wide(r, width)
  {
    seq(|a|, t requires 0 <= t < |a| => Add(ops, a[t], b[t]))
  }

  function SwigluRows(ops: Ops, a: seq<seq<Float>>, b: seq<seq<Float>>, width: nat): (r: seq<seq<Float>>)
    requires |a| == |b| && Wide(a, width) && Wide(b, width)
    ensures |r| == |a| && Wide(r, width)
  {
    seq(|a|, t requires 0 <= t < |a| => Swiglu(ops, a[t], b[t]))
  }

  // ----- The loops -----

  method NormBatch(ops: Ops, flat: seq<Float>, batch: nat, width: nat, weight: seq<Float>, ghost hs: seq<seq<Float>>)
    returns (out: seq<Float>)
    requires |hs| == batch && Wide(hs, width) && Holds(flat, hs, width)
    ensures Holds(out, RmsRows(ops, hs, weight), width)
  {
    out := [];
    ghost var want := RmsRows(ops, hs, weight);
    for t := 0 to batch
      invariant Holds(out, want[..t], width)
    {
      HoldsAt(flat, hs, width, t);
      var row := Rms(ops, Row(flat, t, width), weight);
      HoldsSnoc(out, want[..t], width, row);
      assert want[..t + 1] == want[..t] + [row];
      out := out + row;
    }
    assert want[..batch] == want;
  }

  method RopeBatch(ops: Ops, flat: seq<Float>, batch: nat, width: nat, start: nat, heads: nat, headDim: nat,
                   ghost rows: seq<seq<Float>>) returns (out: seq<Float>)
    requires |rows| == batch && Wide(rows, width) && Holds(flat, rows, width)
    ensures Holds(out, RopeRows(ops, rows, start, heads, headDim), width)
  {
    out := [];
    ghost var want := RopeRows(ops, rows, start, heads, headDim);
    for t := 0 to batch
      invariant Holds(out, want[..t], width)
    {
      HoldsAt(flat, rows, width, t);
      var row := Rope(ops, Row(flat, t, width), start + t, heads, headDim);
      HoldsSnoc(out, want[..t], width, row);
      assert want[..t + 1] == want[..t] + [row];
      out := out + row;
    }
    assert want[..batch] == want;
  }

  method AddBatch(ops: Ops, a: seq<Float>, b: seq<Float>, batch: nat, width: nat,
                  ghost as': seq<seq<Float>>, ghost bs: seq<seq<Float>>) returns (out: seq<Float>)
    requires |as'| == |bs| == batch && Wide(as', width) && Wide(bs, width) && Holds(a, as', width) && Holds(b, bs, width)
    ensures Holds(out, SumRows(ops, as', bs, width), width)
  {
    out := [];
    ghost var want := SumRows(ops, as', bs, width);
    for t := 0 to batch
      invariant Holds(out, want[..t], width)
    {
      HoldsAt(a, as', width, t);
      HoldsAt(b, bs, width, t);
      var row := Add(ops, Row(a, t, width), Row(b, t, width));
      HoldsSnoc(out, want[..t], width, row);
      assert want[..t + 1] == want[..t] + [row];
      out := out + row;
    }
    assert want[..batch] == want;
  }

  method SwigluBatch(ops: Ops, a: seq<Float>, b: seq<Float>, batch: nat, width: nat,
                     ghost as': seq<seq<Float>>, ghost bs: seq<seq<Float>>) returns (out: seq<Float>)
    requires |as'| == |bs| == batch && Wide(as', width) && Wide(bs, width) && Holds(a, as', width) && Holds(b, bs, width)
    ensures Holds(out, SwigluRows(ops, as', bs, width), width)
  {
    out := [];
    ghost var want := SwigluRows(ops, as', bs, width);
    for t := 0 to batch
      invariant Holds(out, want[..t], width)
    {
      HoldsAt(a, as', width, t);
      HoldsAt(b, bs, width, t);
      var row := Swiglu(ops, Row(a, t, width), Row(b, t, width));
      HoldsSnoc(out, want[..t], width, row);
      assert want[..t + 1] == want[..t] + [row];
      out := out + row;
    }
    assert want[..batch] == want;
  }

  /** A fresh output buffer and one batched projection. */
  method Matmul(ops: Ops, lin: L.Linear, input: seq<Float>, batch: nat, ghost rows: seq<seq<Float>>)
    returns (out: seq<Float>)
    requires lin.Valid() && L.Ordered(ops.lin, lin.inputScale)
    requires batch > 0 && |rows| == batch && Wide(rows, lin.cols) && Holds(input, rows, lin.cols)
    ensures Holds(out, MatRows(ops, lin, rows), lin.rows)
  {
    var output := new Float[batch * lin.rows](_ => ops.lin.zero);
    var status := L.MatmulInto(ops.lin, lin, input, batch, output);
    out := output[..];
    forall t: nat | t < batch ensures RowIs(out, t, lin.rows, MatRows(ops, lin, rows)[t]) {
      HoldsAt(input, rows, lin.cols, t);
      RowBounds(t, batch, lin.rows);
      L.BatchIsPerToken(ops.lin, lin, input, out, t);
      assert L.TokenDone(ops.lin, lin, input, out, t);
    }
  }
}
