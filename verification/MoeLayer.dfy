/** The two-region dispatch of one MoE layer's routed experts, against the
    sequential definition of the layer. A region's jobs run in whatever order
    (`schedule`) the pool's lanes produce. */
module MoeLayer {
  import opened Floats
  import opened Packing
  import F = Flat

  /** Elements per block scale byte. */
  const SUB: nat := 16

  datatype PackedWeights = PackedWeights(rows: nat, cols: nat, packed: seq<Byte>, scales: seq<Byte>, outputScale: Float) {
    predicate Valid() {
      && cols % SUB == 0
      && |packed| == rows * cols / 2
      && |scales| == rows * cols / SUB
    }
  }

  datatype Expert = Expert(gate: PackedWeights, up: PackedWeights, down: PackedWeights, weight: Float)

  /** The shapes the layer is called with. */
  predicate FitsLayer(ex: Expert, intermediate: nat, hidden: nat) {
    && ex.gate.Valid() && ex.up.Valid() && ex.down.Valid()
    && ex.gate.rows == ex.up.rows == ex.down.cols == intermediate
    && ex.gate.cols == ex.up.cols == ex.down.rows == hidden
  }

  predicate FitsAll(experts: seq<Expert>, intermediate: nat, hidden: nat) {
    forall e :: 0 <= e < |experts| ==> FitsLayer(experts[e], intermediate, hidden)
  }

  // ----- The layer's meaning -----

  lemma RowBounds(w: PackedWeights, r: nat)
    requires w.Valid() && r < w.rows
    ensures (r + 1) * (w.cols / 2) <= |w.packed| && r * (w.cols / 2) <= (r + 1) * (w.cols / 2)
    ensures (r + 1) * (w.cols / SUB) <= |w.scales| && r * (w.cols / SUB) <= (r + 1) * (w.cols / SUB)
  {
    var b := w.cols / SUB;
    assert w.cols == SUB * b && w.cols / 2 == 8 * b;
    assert w.rows * w.cols == SUB * (w.rows * b);
    assert w.rows * w.cols / 2 == 8 * (w.rows * b);
    assert (r + 1) * b <= w.rows * b;
    assert (r + 1) * (8 * b) == 8 * ((r + 1) * b);
    assert r * b <= (r + 1) * b && r * (8 * b) == 8 * (r * b);
  }

  /** One output element of `W * x`. */
  function RowValue(ops: FloatOps, w: PackedWeights, r: nat, x: seq<Float>): Float
    requires w.Valid() && r < w.rows
  {
    RowBounds(w, r);
    var pc, sc := w.cols / 2, w.cols / SUB;
    ops.mul(ops.dot(w.packed[r * pc..(r + 1) * pc], w.scales[r * sc..(r + 1) * sc], x), w.outputScale)
  }

  /** The expert's activated intermediate vector. */
  function Swiglu(ops: FloatOps, ex: Expert, x: seq<Float>, intermediate: nat): (v: seq<Float>)
    requires FitsLayer(ex, intermediate, |x|)
    ensures |v| == intermediate
  {
    seq(intermediate, k requires 0 <= k < intermediate =>
      ops.mul(ops.gelu(RowValue(ops, ex.gate, k, x)), RowValue(ops, ex.up, k, x)))
  }

  function ExpertOut(ops: FloatOps, ex: Expert, x: seq<Float>, intermediate: nat, r: nat): Float
    requires FitsLayer(ex, intermediate, |x|) && r < |x|
  {
    RowValue(ops, ex.down, r, Swiglu(ops, ex, x, intermediate))
  }

  /** Weighted sum of the first `count` experts, folded in ascending order from 0. */
  function Combined(ops: FloatOps, experts: seq<Expert>, count: nat, x: seq<Float>, intermediate: nat, r: nat): Float
    requires FitsAll(experts, intermediate, |x|) && count <= |experts| && r < |x|
  {
    if count == 0 then ops.zero
    else ops.add(Combined(ops, experts, count - 1, x, intermediate, r),
                 ops.mul(experts[count - 1].weight, ExpertOut(ops, experts[count - 1], x, intermediate, r)))
  }

  function Layer(ops: FloatOps, experts: seq<Expert>, x: seq<Float>, intermediate: nat): seq<Float>
    requires FitsAll(experts, intermediate, |x|)
  {
    seq(|x|, r requires 0 <= r < |x| => Combined(ops, experts, |experts|, x, intermediate, r))
  }

  // ----- Job tables -----

  datatype GateUpJob = GateUpJob(expert: nat, isUp: bool, row: nat)

  datatype DownJob = DownJob(expert: nat, row: nat)

  ghost predicate ValidGateUpJob(experts: seq<Expert>, j: GateUpJob) {
    j.expert < |experts| && j.row < (if j.isUp then experts[j.expert].up.rows else experts[j.expert].gate.rows)
  }

  ghost predicate ValidDownJob(experts: seq<Expert>, j: DownJob) {
    j.expert < |experts| && j.row < experts[j.expert].down.rows
  }

  /** The table holds every (expert, projection, row) exactly once. */
  ghost predicate GateUpTable(experts: seq<Expert>, jobs: seq<GateUpJob>) {
    forall j :: multiset(jobs)[j] == if ValidGateUpJob(experts, j) then 1 else 0
  }

  ghost predicate DownTable(experts: seq<Expert>, jobs: seq<DownJob>) {
    forall j :: multiset(jobs)[j] == if ValidDownJob(experts, j) then 1 else 0
  }

  function GateUpJobCount(experts: seq<Expert>): nat {
    if experts == [] then 0
    else GateUpJobCount(experts[..|experts| - 1]) + experts[|experts| - 1].gate.rows + experts[|experts| - 1].up.rows
  }

  function DownJobCount(experts: seq<Expert>): nat {
    if experts == [] then 0
    else DownJobCount(experts[..|experts| - 1]) + experts[|experts| - 1].down.rows
  }

  /** An order in which each job index below `n` is run exactly once. */
  ghost predicate IsSchedule(order: seq<nat>, n: nat) {
    forall i: nat :: multiset(order)[i] == if i < n then 1 else 0
  }

  /** Two jobs that write the same slab cell are the same (expert, row). */
  lemma SameCell(e: nat, r: nat, f: nat, q: nat, width: nat)
    requires r < width && q < width && e * width + r == f * width + q
    ensures e == f && r == q
  {
    if e < f {
      F.RowBounds(e, f, width);
    } else if f < e {
      F.RowBounds(f, e, width);
    }
  }

  lemma CellInside(e: nat, r: nat, count: nat, width: nat, len: nat)
    requires e < count && r < width && count * width <= len
    ensures e * width + r < len
  {
    assert (e + 1) * width <= count * width;
    assert (e + 1) * width == e * width + width;
  }

  // ----- Scratch -----

  class MoeLayerScratch {
    var gateBuf: array<Float>
    var upBuf: array<Float>
    var swigluBuf: array<Float>
    var downBuf: array<Float>
    var gateUpJobs: seq<GateUpJob>
    var downJobs: seq<DownJob>

    ghost predicate Valid()
      reads this
    {
      && gateBuf != upBuf && gateBuf != swigluBuf && gateBuf != downBuf
      && upBuf != swigluBuf && upBuf != downBuf && swigluBuf != downBuf
      && gateBuf.Length == upBuf.Length == swigluBuf.Length
    }

    ghost function Buffers(): set<object>
      reads this
    {
      {gateBuf, upBuf, swigluBuf, downBuf}
    }

    /** Room for `topK` slabs of each width. */
    ghost predicate Holds(topK: nat, intermediate: nat, hidden: nat)
      reads this
    {
      Valid() && topK * intermediate <= gateBuf.Length && topK * hidden <= downBuf.Length
    }

    constructor ()
      ensures Valid() && fresh(Buffers())
    {
      gateBuf, upBuf, swigluBuf, downBuf := new Float[0], new Float[0], new Float[0], new Float[0];
      gateUpJobs, downJobs := [], [];
    }

    /** Grows the slabs that are too short; what they held stays in front. */
    method Ensure(zero: Float, topK: nat, intermediate: nat, hidden: nat)
      requires Valid()
      modifies this
      ensures Holds(topK, intermediate, hidden)
      ensures gateBuf == old(gateBuf) || fresh(gateBuf)
      ensures upBuf == old(upBuf) || fresh(upBuf)
      ensures swigluBuf == old(swigluBuf) || fresh(swigluBuf)
      ensures downBuf == old(downBuf) || fresh(downBuf)
      ensures old(gateBuf[..]) <= gateBuf[..] && old(upBuf[..]) <= upBuf[..]
      ensures old(swigluBuf[..]) <= swigluBuf[..] && old(downBuf[..]) <= downBuf[..]
    {
      var interCap := topK * intermediate;
      var hiddenCap := topK * hidden;
      if gateBuf.Length < interCap {
        gateBuf := Resize(gateBuf, interCap, zero);
        upBuf := Resize(upBuf, interCap, zero);
        swigluBuf := Resize(swigluBuf, interCap, zero);
      }
      if downBuf.Length < hiddenCap {
        downBuf := Resize(downBuf, hiddenCap, zero);
      }
    }
  }

  method Resize(a: array<Float>, n: nat, zero: Float) returns (b: array<Float>)
    requires a.Length <= n
    ensures fresh(b) && b.Length == n
    ensures b[..a.Length] == a[..]
    ensures forall k :: a.Length <= k < n ==> b[k] == zero
  {
    b := new Float[n](_ => zero);
    for k := 0 to a.Length
      invariant b[..k] == a[..k]
      invariant forall m :: a.Length <= m < n ==> b[m] == zero
    {
      b[k] := a[k];
    }
  }

  // ----- Building the job tables -----

  lemma AddGateUpRow(jobs: seq<GateUpJob>, j: GateUpJob)
    ensures forall k :: multiset(jobs + [j])[k] == multiset(jobs)[k] + if k == j then 1 else 0
  {
    assert multiset(jobs + [j]) == multiset(jobs) + multiset{j};
  }

  lemma AddDownRow(jobs: seq<DownJob>, j: DownJob)
    ensures forall k :: multiset(jobs + [j])[k] == multiset(jobs)[k] + if k == j then 1 else 0
  {
    assert multiset(jobs + [j]) == multiset(jobs) + multiset{j};
  }

  predicate RowOf(j: GateUpJob, e: nat, isUp: bool, rows: nat) {
    j.expert == e && j.isUp == isUp && j.row < rows
  }

  /** One projection's rows. */
  method PushRows(jobs: seq<GateUpJob>, e: nat, isUp: bool, rows: nat) returns (jobs': seq<GateUpJob>)
    ensures |jobs'| == |jobs| + rows
    ensures forall j :: multiset(jobs')[j] == multiset(jobs)[j] + (if RowOf(j, e, isUp, rows) then 1 else 0)
  {
    jobs' := jobs;
    for r := 0 to rows
      invariant |jobs'| == |jobs| + r
      invariant forall j :: multiset(jobs')[j] == multiset(jobs)[j] + (if RowOf(j, e, isUp, r) then 1 else 0)
    {
      AddGateUpRow(jobs', GateUpJob(e, isUp, r));
      jobs' := jobs' + [GateUpJob(e, isUp, r)];
    }
  }

  method BuildGateUpJobs(experts: seq<Expert>) returns (jobs: seq<GateUpJob>)
    ensures GateUpTable(experts, jobs)
    ensures |jobs| == GateUpJobCount(experts)
  {
    jobs := [];
    for e := 0 to |experts|
      invariant forall j :: multiset(jobs)[j] == if ValidGateUpJob(experts, j) && j.expert < e then 1 else 0
      invariant |jobs| == GateUpJobCount(experts[..e])
    {
      jobs := PushRows(jobs, e, false, experts[e].gate.rows);
      jobs := PushRows(jobs, e, true, experts[e].up.rows);
      assert experts[..e + 1][..e] == experts[..e];
    }
    assert experts[..|experts|] == experts;
  }

  method BuildDownJobs(experts: seq<Expert>) returns (jobs: seq<DownJob>)
    ensures DownTable(experts, jobs)
    ensures |jobs| == DownJobCount(experts)
  {
    jobs := [];
    for e := 0 to |experts|
      invariant forall j :: multiset(jobs)[j] == if ValidDownJob(experts, j) && j.expert < e then 1 else 0
      invariant |jobs| == DownJobCount(experts[..e])
    {
      for r := 0 to experts[e].down.rows
        invariant forall j :: multiset(jobs)[j] == (if ValidDownJob(experts, j) && (j.expert < e || (j.expert == e && j.row < r)) then 1 else 0)
        invariant |jobs| == DownJobCount(experts[..e]) + r
      {
        AddDownRow(jobs, DownJob(e, r));
        jobs := jobs + [DownJob(e, r)];
      }
      assert experts[..e + 1][..e] == experts[..e];
    }
    assert experts[..|experts|] == experts;
  }
}
