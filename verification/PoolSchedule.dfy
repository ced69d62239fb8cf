/** The order in which a pool run executes the jobs of one dispatch is a schedule of
    those jobs: what the MoE layer needs of the pool. */
module PoolSchedule {
  import opened Floats
  import opened PoolProtocol
  import PoolSafety
  import MoeLayer
  import MoeDispatch
  import MoeMatrix

  /** The indices run through dispatch `c`'s closure, oldest first. */
  function OrderOf(log: seq<Hit>, c: nat): seq<nat> {
    if log == [] then []
    else
      var h := log[|log| - 1];
      OrderOf(log[..|log| - 1], c) + (if h.data == c then [h.index] else [])
  }

  lemma {:induction false} OrderCounts(log: seq<Hit>, c: nat, i: nat)
    requires forall h :: h in log && h.data == c ==> h.vtable == c
    ensures multiset(OrderOf(log, c))[i] == multiset(log)[Hit(c, c, i)]
  {
    if log != [] {
      var h := log[|log| - 1];
      var front := log[..|log| - 1];
      OrderCounts(front, c, i);
      assert log == front + [h];
      assert multiset(log) == multiset(front) + multiset{h};
    }
  }

  /** Once a dispatch has returned, the pool has run it as a schedule of its jobs,
      whatever the interleaving was. */
  lemma PoolRunsASchedule(s: State, c: nat)
    requires Reachable(s) && Returned(s, c)
    ensures MoeLayer.IsSchedule(OrderOf(s.log, c), s.calls[c])
  {
    PoolSafety.DispatchRunsEachIndexOnce(s, c);
    forall i: nat ensures multiset(OrderOf(s.log, c))[i] == if i < s.calls[c] then 1 else 0 {
      OrderCounts(s.log, c, i);
      assert Hits(s, c, i) == multiset(s.log)[Hit(c, c, i)];
    }
  }

  /** `order` is how the pool ran a region of `jobs` jobs as dispatch `c`; a region without jobs
      is not dispatched. */
  predicate RanAs(s: State, c: nat, jobs: nat, order: seq<nat>) {
    if jobs == 0 then order == [] else Returned(s, c) && s.calls[c] == jobs && order == OrderOf(s.log, c)
  }

  lemma RanAsSchedule(s: State, c: nat, jobs: nat, order: seq<nat>)
    requires Reachable(s) && RanAs(s, c, jobs, order)
    ensures MoeLayer.IsSchedule(order, jobs)
  {
    if jobs > 0 {
      PoolRunsASchedule(s, c);
    }
  }

  /** A layer on the pool: in whatever interleaving the pool has run its two regions, as any two
      of its dispatches, the output is the layer's sequential definition. */
  method LayerOnPool(s: State, a: nat, b: nat, ops: FloatOps, experts: seq<MoeLayer.Expert>, x: seq<Float>, intermediate: nat,
                     scratch: MoeLayer.MoeLayerScratch, routedAcc: array<Float>, orderA: seq<nat>, orderB: seq<nat>)
    requires Reachable(s)
    requires RanAs(s, a, MoeLayer.GateUpJobCount(experts), orderA) && RanAs(s, b, MoeLayer.DownJobCount(experts), orderB)
    requires MoeLayer.FitsAll(experts, intermediate, |x|) && routedAcc.Length == |x|
    requires scratch.Valid() && routedAcc !in scratch.Buffers()
    modifies scratch, scratch.Buffers(), routedAcc
    ensures scratch.Valid() && routedAcc[..] == MoeLayer.Layer(ops, experts, x, intermediate)
    ensures MoeMatrix.IsMixture(ops, experts, x, intermediate, routedAcc[..])
  {
    RanAsSchedule(s, a, MoeLayer.GateUpJobCount(experts), orderA);
    RanAsSchedule(s, b, MoeLayer.DownJobCount(experts), orderB);
    MoeDispatch.MoeLayerExpertsInto(ops, experts, x, intermediate, scratch, routedAcc, orderA, orderB);
  }
}
