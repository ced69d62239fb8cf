/** Running the two regions of a MoE layer on the pool, in place on the scratch slabs. */
module MoeDispatch {
  import opened Floats
  import opened Packing
  import opened MoeLayer
  import F = Flat
  import M = MoeMatrix

  /** The value job `j` of region A computes. */
  function GateUpValue(ops: FloatOps, experts: seq<Expert>, x: seq<Float>, j: GateUpJob): Float
    requires forall e :: 0 <= e < |experts| ==> experts[e].gate.Valid() && experts[e].up.Valid()
    requires j.expert < |experts| && j.row < (if j.isUp then experts[j.expert].up.rows else experts[j.expert].gate.rows)
  {
    RowValue(ops, if j.isUp then experts[j.expert].up else experts[j.expert].gate, j.row, x)
  }

  lemma JobAt<T>(jobs: seq<T>, order: seq<nat>, j: T) returns (k: nat)
    requires IsSchedule(order, |jobs|) && j in jobs
    ensures k < |order| && order[k] < |jobs| && jobs[order[k]] == j
  {
    var i :| 0 <= i < |jobs| && jobs[i] == j;
    assert multiset(order)[i] == 1;
    assert i in multiset(order);
    k :| 0 <= k < |order| && order[k] == i;
  }

  lemma ScheduleInRange(order: seq<nat>, n: nat, k: nat)
    requires IsSchedule(order, n) && k < |order|
    ensures order[k] < n
  {
    assert order[k] in multiset(order);
  }

  /** The slab cell of job `j` holds its value. */
  ghost predicate GateUpDone(ops: FloatOps, experts: seq<Expert>, x: seq<Float>, intermediate: nat,
                             j: GateUpJob, gate: seq<Float>, up: seq<Float>)
    requires FitsAll(experts, intermediate, |x|)
  {
    var cell := j.expert * intermediate + j.row;
    && j.expert < |experts| && j.row < intermediate
    && cell < |gate| && cell < |up|
    && (if j.isUp then up else gate)[cell] == GateUpValue(ops, experts, x, j)
  }

  /** A finished job `i` stays finished: only the same job writes its cell. */
  lemma GateUpKept(ops: FloatOps, experts: seq<Expert>, x: seq<Float>, intermediate: nat,
                   i: GateUpJob, j: GateUpJob, cell: nat, gate: seq<Float>, up: seq<Float>)
    requires FitsAll(experts, intermediate, |x|) && j.expert < |experts| && j.row < intermediate
    requires cell == j.expert * intermediate + j.row && cell < |gate| && cell < |up|
    requires GateUpDone(ops, experts, x, intermediate, i, gate, up)
    ensures var v := GateUpValue(ops, experts, x, j);
      GateUpDone(ops, experts, x, intermediate, i,
                 if j.isUp then gate else gate[cell := v], if j.isUp then up[cell := v] else up)
  {
    hide GateUpValue;
    if i.expert * intermediate + i.row == cell {
      SameCell(i.expert, i.row, j.expert, j.row, intermediate);
    }
  }

  /** Writing job `j`'s cell finishes `j` and undoes no other job: distinct jobs
      have distinct cells. */
  lemma GateUpWrite(ops: FloatOps, experts: seq<Expert>, x: seq<Float>, intermediate: nat,
                    j: GateUpJob, gate: seq<Float>, up: seq<Float>)
    requires FitsAll(experts, intermediate, |x|) && j.expert < |experts| && j.row < intermediate
    requires |experts| * intermediate <= |gate| && |experts| * intermediate <= |up|
    ensures var cell := j.expert * intermediate + j.row;
      && cell < |gate| && cell < |up|
      && var v := GateUpValue(ops, experts, x, j);
         var g, u := if j.isUp then gate else gate[cell := v], if j.isUp then up[cell := v] else up;
         && GateUpDone(ops, experts, x, intermediate, j, g, u)
         && forall i :: GateUpDone(ops, experts, x, intermediate, i, gate, up) ==> GateUpDone(ops, experts, x, intermediate, i, g, u)
  {
    hide GateUpValue;
    var cell := j.expert * intermediate + j.row;
    CellInside(j.expert, j.row, |experts|, intermediate, |gate|);
    CellInside(j.expert, j.row, |experts|, intermediate, |up|);
    var v := GateUpValue(ops, experts, x, j);
    var g, u := if j.isUp then gate else gate[cell := v], if j.isUp then up[cell := v] else up;
    assert GateUpDone(ops, experts, x, intermediate, j, g, u);
    hide GateUpDone;
    forall i | GateUpDone(ops, experts, x, intermediate, i, gate, up)
      ensures GateUpDone(ops, experts, x, intermediate, i, g, u)
    {
      GateUpKept(ops, experts, x, intermediate, i, j, cell, gate, up);
    }
  }

  /** One job of region A. */
  method GateUpBody(ops: FloatOps, experts: seq<Expert>, x: seq<Float>, intermediate: nat,
                    j: GateUpJob, gateBuf: array<Float>, upBuf: array<Float>)
    requires FitsAll(experts, intermediate, |x|) && gateBuf != upBuf
    requires j.expert < |experts| && j.row < intermediate
    requires |experts| * intermediate <= gateBuf.Length && |experts| * intermediate <= upBuf.Length
    modifies gateBuf, upBuf
    ensures GateUpDone(ops, experts, x, intermediate, j, gateBuf[..], upBuf[..])
    ensures forall i :: GateUpDone(ops, experts, x, intermediate, i, old(gateBuf[..]), old(upBuf[..])) ==>
      GateUpDone(ops, experts, x, intermediate, i, gateBuf[..], upBuf[..])
  {
    GateUpWrite(ops, experts, x, intermediate, j, gateBuf[..], upBuf[..]);
    ghost var gate, up := gateBuf[..], upBuf[..];
    var cell := j.expert * intermediate + j.row;
    var val := GateUpValue(ops, experts, x, j);
    if j.isUp {
      upBuf[cell] := val;
      assert upBuf[..] == up[cell := val];
    } else {
      gateBuf[cell] := val;
      assert gateBuf[..] == gate[cell := val];
    }
  }

  /** Region A: every expert's gate and up rows, in the order the lanes reach them. */
  method RunGateUp(ops: FloatOps, experts: seq<Expert>, x: seq<Float>, intermediate: nat,
                   jobs: seq<GateUpJob>, order: seq<nat>, gateBuf: array<Float>, upBuf: array<Float>)
    requires FitsAll(experts, intermediate, |x|) && GateUpTable(experts, jobs) && IsSchedule(order, |jobs|)
    requires gateBuf != upBuf
    requires |experts| * intermediate <= gateBuf.Length && |experts| * intermediate <= upBuf.Length
    modifies gateBuf, upBuf
    ensures forall j: GateUpJob :: j.expert < |experts| && j.row < intermediate ==>
      GateUpDone(ops, experts, x, intermediate, j, gateBuf[..], upBuf[..])
  {
    var done := 0;
    while done < |order|
      invariant done <= |order|
      invariant forall k :: 0 <= k < done ==>
        order[k] < |jobs| && GateUpDone(ops, experts, x, intermediate, jobs[order[k]], gateBuf[..], upBuf[..])
    {
      ScheduleInRange(order, |jobs|, done);
      var j := jobs[order[done]];
      assert multiset(jobs)[j] > 0;
      GateUpBody(ops, experts, x, intermediate, j, gateBuf, upBuf);
      done := done + 1;
    }
    forall j: GateUpJob | j.expert < |experts| && j.row < intermediate
      ensures GateUpDone(ops, experts, x, intermediate, j, gateBuf[..], upBuf[..])
    {
      assert multiset(jobs)[j] == 1;
      var k := JobAt(jobs, order, j);
    }
  }

  /** The activation, expert by expert. */
  method RunActivation(ops: FloatOps, experts: seq<Expert>, x: seq<Float>, intermediate: nat,
                       gateBuf: array<Float>, upBuf: array<Float>, swigluBuf: array<Float>)
    requires FitsAll(experts, intermediate, |x|)
    requires swigluBuf != gateBuf && swigluBuf != upBuf
    requires gateBuf.Length == upBuf.Length == swigluBuf.Length && |experts| * intermediate <= gateBuf.Length
    requires forall j: GateUpJob :: j.expert < |experts| && j.row < intermediate ==>
      GateUpDone(ops, experts, x, intermediate, j, gateBuf[..], upBuf[..])
    modifies swigluBuf
    ensures forall e: nat :: e < |experts| ==> SlabIs(swigluBuf[..], e, intermediate, Swiglu(ops, experts[e], x, intermediate))
  {
    for e := 0 to |experts|
      invariant forall f: nat :: f < e ==> SlabIs(swigluBuf[..], f, intermediate, Swiglu(ops, experts[f], x, intermediate))
    {
      ActivateExpert(ops, experts, x, intermediate, e, gateBuf, upBuf, swigluBuf);
    }
  }

  lemma ActivatedAt(ops: FloatOps, experts: seq<Expert>, x: seq<Float>, intermediate: nat, e: nat, k: nat,
                    gate: seq<Float>, up: seq<Float>)
    requires FitsAll(experts, intermediate, |x|) && e < |experts| && k < intermediate
    requires GateUpDone(ops, experts, x, intermediate, GateUpJob(e, false, k), gate, up)
    requires GateUpDone(ops, experts, x, intermediate, GateUpJob(e, true, k), gate, up)
    ensures
      var cell := e * intermediate + k;
      cell < |gate| && cell < |up|
      && Swiglu(ops, experts[e], x, intermediate)[k] == ops.mul(ops.gelu(gate[cell]), up[cell])
  {
    hide RowValue;
  }

  method ActivateExpert(ops: FloatOps, experts: seq<Expert>, ghost x: seq<Float>, intermediate: nat, e: nat,
                        gateBuf: array<Float>, upBuf: array<Float>, swigluBuf: array<Float>)
    requires FitsAll(experts, intermediate, |x|) && e < |experts|
    requires swigluBuf != gateBuf && swigluBuf != upBuf
    requires gateBuf.Length == upBuf.Length == swigluBuf.Length && |experts| * intermediate <= gateBuf.Length
    requires forall j: GateUpJob :: j.expert == e && j.row < intermediate ==>
      GateUpDone(ops, experts, x, intermediate, j, gateBuf[..], upBuf[..])
    modifies swigluBuf
    ensures SlabIs(swigluBuf[..], e, intermediate, Swiglu(ops, experts[e], x, intermediate))
    ensures forall f: nat, v :: f < e && SlabIs(old(swigluBuf[..]), f, intermediate, v) ==> SlabIs(swigluBuf[..], f, intermediate, v)
  {
    hide Swiglu;
    hide GateUpDone;
    var base := e * intermediate;
    F.RowBounds(e, |experts|, intermediate);
    assert swigluBuf[base..base + 0] == [];
    ghost var want := Swiglu(ops, experts[e], x, intermediate);
    ghost var before := swigluBuf[..];
    for k := 0 to intermediate
      invariant swigluBuf[..base] == before[..base]
      invariant swigluBuf[base..base + k] == want[..k]
    {
      ActivatedAt(ops, experts, x, intermediate, e, k, gateBuf[..], upBuf[..]);
      swigluBuf[base + k] := ops.mul(ops.gelu(gateBuf[base + k]), upBuf[base + k]);
      assert swigluBuf[base..base + (k + 1)] == swigluBuf[base..base + k] + [want[k]];
    }
    forall f: nat, v | f < e && SlabIs(before, f, intermediate, v)
      ensures SlabIs(swigluBuf[..], f, intermediate, v)
    {
      F.RowBounds(f, e, intermediate);
      SamePrefix(before, swigluBuf[..], base, f * intermediate, f * intermediate + intermediate);
    }
  }

  lemma SamePrefix(a: seq<Float>, b: seq<Float>, n: nat, lo: nat, hi: nat)
    requires n <= |a| && n <= |b| && a[..n] == b[..n] && lo <= hi <= n
    ensures a[lo..hi] == b[lo..hi]
  {
    forall k | lo <= k < hi ensures a[k] == b[k] {
      assert a[k] == a[..n][k] && b[k] == b[..n][k];
    }
  }

  /** Slab `e` of `buf` holds `v`. */
  ghost predicate SlabIs(buf: seq<Float>, e: nat, width: nat, v: seq<Float>) {
    |v| == width && e * width + width <= |buf| && buf[e * width..e * width + width] == v
  }

  /** `want[e][r]` is the value of output row `r` of expert `e`. */
  function ExpertOuts(ops: FloatOps, experts: seq<Expert>, x: seq<Float>, intermediate: nat): (want: seq<seq<Float>>)
    requires FitsAll(experts, intermediate, |x|)
    ensures |want| == |experts|
    ensures forall e :: 0 <= e < |want| ==> |want[e]| == |x|
  {
    seq(|experts|, e requires 0 <= e < |experts| =>
      seq(|x|, r requires 0 <= r < |x| => ExpertOut(ops, experts[e], x, intermediate, r)))
  }

  ghost predicate DownDone(want: seq<seq<Float>>, width: nat, j: DownJob, down: seq<Float>) {
    var cell := j.expert * width + j.row;
    && j.expert < |want| && j.row < width && j.row < |want[j.expert]|
    && cell < |down|
    && down[cell] == want[j.expert][j.row]
  }

  lemma DownWrite(want: seq<seq<Float>>, width: nat, j: DownJob, down: seq<Float>)
    requires forall e :: 0 <= e < |want| ==> |want[e]| == width
    requires j.expert < |want| && j.row < width && |want| * width <= |down|
    ensures var cell := j.expert * width + j.row;
      && cell < |down|
      && var d := down[cell := want[j.expert][j.row]];
         && DownDone(want, width, j, d)
         && forall i :: DownDone(want, width, i, down) ==> DownDone(want, width, i, d)
  {
    CellInside(j.expert, j.row, |want|, width, |down|);
    var cell := j.expert * width + j.row;
    var d := down[cell := want[j.expert][j.row]];
    forall i | DownDone(want, width, i, down)
      ensures DownDone(want, width, i, d)
    {
      if i.expert * width + i.row == cell {
        SameCell(i.expert, i.row, j.expert, j.row, width);
      }
    }
  }

  method DownValue(ops: FloatOps, experts: seq<Expert>, ghost x: seq<Float>, intermediate: nat,
                   j: DownJob, swigluBuf: array<Float>) returns (val: Float)
    requires FitsAll(experts, intermediate, |x|) && j.expert < |experts| && j.row < |x|
    requires SlabIs(swigluBuf[..], j.expert, intermediate, Swiglu(ops, experts[j.expert], x, intermediate))
    ensures val == ExpertOut(ops, experts[j.expert], x, intermediate, j.row)
  {
    var w := experts[j.expert].down;
    var base := j.expert * intermediate;
    var xin := swigluBuf[base..base + w.cols];
    assert xin == Swiglu(ops, experts[j.expert], x, intermediate);
    val := RowValue(ops, w, j.row, xin);
  }

  /** One job of region B. */
  method DownBody(ops: FloatOps, experts: seq<Expert>, ghost x: seq<Float>, hidden: nat, intermediate: nat,
                  j: DownJob, swigluBuf: array<Float>, downBuf: array<Float>, ghost want: seq<seq<Float>>)
    requires hidden == |x| && FitsAll(experts, intermediate, |x|) && want == ExpertOuts(ops, experts, x, intermediate)
    requires swigluBuf != downBuf
    requires j.expert < |experts| && j.row < hidden && |experts| * hidden <= downBuf.Length
    requires SlabIs(swigluBuf[..], j.expert, intermediate, Swiglu(ops, experts[j.expert], x, intermediate))
    modifies downBuf
    ensures DownDone(want, hidden, j, downBuf[..])
    ensures forall i :: DownDone(want, hidden, i, old(downBuf[..])) ==> DownDone(want, hidden, i, downBuf[..])
  {
    var val := DownValue(ops, experts, x, intermediate, j, swigluBuf);
    assert val == want[j.expert][j.row];
    DownWrite(want, hidden, j, downBuf[..]);
    ghost var down := downBuf[..];
    downBuf[j.expert * hidden + j.row] := val;
    assert downBuf[..] == down[j.expert * hidden + j.row := val];
  }

  /** Region B: every expert's down rows. */
  method RunDown(ops: FloatOps, experts: seq<Expert>, ghost x: seq<Float>, hidden: nat, intermediate: nat,
                 jobs: seq<DownJob>, order: seq<nat>, swigluBuf: array<Float>, downBuf: array<Float>,
                 ghost want: seq<seq<Float>>)
    requires hidden == |x| && FitsAll(experts, intermediate, |x|) && want == ExpertOuts(ops, experts, x, intermediate)
    requires DownTable(experts, jobs) && IsSchedule(order, |jobs|)
    requires swigluBuf != downBuf && |experts| * hidden <= downBuf.Length
    requires forall e: nat :: e < |experts| ==> SlabIs(swigluBuf[..], e, intermediate, Swiglu(ops, experts[e], x, intermediate))
    modifies downBuf
    ensures forall j: DownJob :: j.expert < |experts| && j.row < hidden ==> DownDone(want, hidden, j, downBuf[..])
  {
    var done := 0;
    while done < |order|
      invariant done <= |order|
      invariant forall k :: 0 <= k < done ==> order[k] < |jobs| && DownDone(want, hidden, jobs[order[k]], downBuf[..])
    {
      ScheduleInRange(order, |jobs|, done);
      var j := jobs[order[done]];
      assert multiset(jobs)[j] > 0;
      DownBody(ops, experts, x, hidden, intermediate, j, swigluBuf, downBuf, want);
      done := done + 1;
    }
    forall j: DownJob | j.expert < |experts| && j.row < hidden
      ensures DownDone(want, hidden, j, downBuf[..])
    {
      assert multiset(jobs)[j] == 1;
      var k := JobAt(jobs, order, j);
    }
  }

  method Fill(a: array<Float>, v: Float)
    modifies a
    ensures forall q :: 0 <= q < a.Length ==> a[q] == v
  {
    for r := 0 to a.Length
      invariant forall q :: 0 <= q < r ==> a[q] == v
    {
      a[r] := v;
    }
  }

  /** The weighted combine, overwriting `routedAcc`. */
  method Combine(ops: FloatOps, experts: seq<Expert>, hidden: nat, downBuf: array<Float>, routedAcc: array<Float>,
                 ghost want: seq<seq<Float>>)
    requires |want| == |experts| && (forall e :: 0 <= e < |want| ==> |want[e]| == hidden)
    requires hidden == routedAcc.Length && routedAcc != downBuf
    requires forall j: DownJob :: j.expert < |experts| && j.row < hidden ==> DownDone(want, hidden, j, downBuf[..])
    modifies routedAcc
    ensures forall r :: 0 <= r < hidden ==> routedAcc[r] == WeightedSum(ops, experts, want, |experts|, r)
  {
    Fill(routedAcc, ops.zero);
    for e := 0 to |experts|
      invariant forall q :: 0 <= q < hidden ==> routedAcc[q] == WeightedSum(ops, experts, want, e, q)
    {
      for r := 0 to hidden
        invariant forall q :: 0 <= q < r ==> routedAcc[q] == WeightedSum(ops, experts, want, e + 1, q)
        invariant forall q :: r <= q < hidden ==> routedAcc[q] == WeightedSum(ops, experts, want, e, q)
      {
        assert DownDone(want, hidden, DownJob(e, r), downBuf[..]);
        routedAcc[r] := ops.add(routedAcc[r], ops.mul(experts[e].weight, downBuf[e * hidden + r]));
      }
    }
  }

  function WeightedSum(ops: FloatOps, experts: seq<Expert>, want: seq<seq<Float>>, count: nat, r: nat): Float
    requires |want| == |experts| && count <= |experts|
    requires forall e :: 0 <= e < |want| ==> r < |want[e]|
  {
    if count == 0 then ops.zero
    else ops.add(WeightedSum(ops, experts, want, count - 1, r), ops.mul(experts[count - 1].weight, want[count - 1][r]))
  }

  lemma {:induction false} WeightedSumIsCombined(ops: FloatOps, experts: seq<Expert>, x: seq<Float>, intermediate: nat,
                                                 want: seq<seq<Float>>, count: nat, r: nat)
    requires FitsAll(experts, intermediate, |x|) && want == ExpertOuts(ops, experts, x, intermediate)
    requires count <= |experts| && r < |x|
    ensures WeightedSum(ops, experts, want, count, r) == Combined(ops, experts, count, x, intermediate, r)
  {
    if count > 0 {
      WeightedSumIsCombined(ops, experts, x, intermediate, want, count - 1, r);
      assert want[count - 1][r] == ExpertOut(ops, experts[count - 1], x, intermediate, r);
    }
  }

  lemma CombinedLayer(ops: FloatOps, experts: seq<Expert>, x: seq<Float>, intermediate: nat,
                      want: seq<seq<Float>>, acc: seq<Float>)
    requires FitsAll(experts, intermediate, |x|) && want == ExpertOuts(ops, experts, x, intermediate)
    requires |acc| == |x| && forall r :: 0 <= r < |x| ==> acc[r] == WeightedSum(ops, experts, want, |experts|, r)
    ensures acc == Layer(ops, experts, x, intermediate)
  {
    forall r | 0 <= r < |x|
      ensures acc[r] == Combined(ops, experts, |experts|, x, intermediate, r)
    {
      WeightedSumIsCombined(ops, experts, x, intermediate, want, |experts|, r);
    }
  }

  /** Region A and the activation: the slabs end up holding every expert's activated vector. */
  method RunUpToActivation(ops: FloatOps, experts: seq<Expert>, x: seq<Float>, intermediate: nat,
                           scratch: MoeLayerScratch, orderA: seq<nat>)
    requires FitsAll(experts, intermediate, |x|)
    requires scratch.Holds(|experts|, intermediate, |x|) && IsSchedule(orderA, GateUpJobCount(experts))
    modifies scratch`gateUpJobs, scratch.gateBuf, scratch.upBuf, scratch.swigluBuf
    ensures forall e: nat :: e < |experts| ==>
      SlabIs(scratch.swigluBuf[..], e, intermediate, Swiglu(ops, experts[e], x, intermediate))
  {
    scratch.gateUpJobs := BuildGateUpJobs(experts);
    RunGateUp(ops, experts, x, intermediate, scratch.gateUpJobs, orderA, scratch.gateBuf, scratch.upBuf);
    RunActivation(ops, experts, x, intermediate, scratch.gateBuf, scratch.upBuf, scratch.swigluBuf);
  }

  /** Region B and the combine. */
  method RunFromActivation(ops: FloatOps, experts: seq<Expert>, ghost x: seq<Float>, hidden: nat, intermediate: nat,
                           scratch: MoeLayerScratch, routedAcc: array<Float>, orderB: seq<nat>)
    requires hidden == |x| && FitsAll(experts, intermediate, |x|) && routedAcc.Length == |x|
    requires scratch.Holds(|experts|, intermediate, |x|) && routedAcc !in scratch.Buffers()
    requires IsSchedule(orderB, DownJobCount(experts))
    requires forall e: nat :: e < |experts| ==>
      SlabIs(scratch.swigluBuf[..], e, intermediate, Swiglu(ops, experts[e], x, intermediate))
    modifies scratch`downJobs, scratch.downBuf, routedAcc
    ensures routedAcc[..] == Layer(ops, experts, x, intermediate)
  {
    ghost var want := ExpertOuts(ops, experts, x, intermediate);
    scratch.downJobs := BuildDownJobs(experts);
    RunDown(ops, experts, x, hidden, intermediate, scratch.downJobs, orderB, scratch.swigluBuf, scratch.downBuf, want);
    Combine(ops, experts, hidden, scratch.downBuf, routedAcc, want);
    CombinedLayer(ops, experts, x, intermediate, want, routedAcc[..]);
  }

  /** The whole layer. For every order in which the lanes reach the jobs of the two
      regions, and whatever the scratch slabs held before, `routedAcc` ends as the
      layer's sequential definition. */
  method MoeLayerExpertsInto(ops: FloatOps, experts: seq<Expert>, x: seq<Float>, intermediate: nat,
                             scratch: MoeLayerScratch, routedAcc: array<Float>, orderA: seq<nat>, orderB: seq<nat>)
    requires FitsAll(experts, intermediate, |x|) && routedAcc.Length == |x|
    requires scratch.Valid() && routedAcc !in scratch.Buffers()
    requires IsSchedule(orderA, GateUpJobCount(experts)) && IsSchedule(orderB, DownJobCount(experts))
    modifies scratch, scratch.Buffers(), routedAcc
    ensures scratch.Valid()
    ensures routedAcc[..] == Layer(ops, experts, x, intermediate)
    ensures M.IsMixture(ops, experts, x, intermediate, routedAcc[..])
  {
    hide M.IsMixture;
    M.LayerIsMixture(ops, experts, x, intermediate);
    var hidden := |x|;
    if |experts| == 0 {
      Fill(routedAcc, ops.zero);
      assert routedAcc[..] == Layer(ops, experts, x, intermediate);
      return;
    }
    scratch.Ensure(ops.zero, |experts|, intermediate, hidden);
    RunUpToActivation(ops, experts, x, intermediate, scratch, orderA);
    RunFromActivation(ops, experts, x, hidden, intermediate, scratch, routedAcc, orderB);
  }
}
