/** The static split of `[0, n)` into one contiguous shard per lane, and the loop
    that runs one shard. */
module PoolShard {

  /** First index of `lane`'s shard: the first `n % lanes` lanes get one index more. */
  function ShardStart(lane: nat, lanes: nat, n: nat): nat
    requires lanes > 0
  {
    var base := n / lanes;
    var rem := n % lanes;
    if lane < rem then lane * (base + 1) else rem * (base + 1) + (lane - rem) * base
  }

  function ShardLen(lane: nat, lanes: nat, n: nat): nat
    requires lanes > 0
  {
    if lane < n % lanes then n / lanes + 1 else n / lanes
  }

  function ShardEnd(lane: nat, lanes: nat, n: nat): nat
    requires lanes > 0
  {
    ShardStart(lane, lanes, n) + ShardLen(lane, lanes, n)
  }

  predicate InShard(i: nat, lane: nat, lanes: nat, n: nat)
    requires lanes > 0
  {
    ShardStart(lane, lanes, n) <= i < ShardEnd(lane, lanes, n)
  }

  /** Consecutive shards touch, the first starts at 0 and the last ends at `n`. */
  lemma ShardsAdjoin(lane: nat, lanes: nat, n: nat)
    requires lanes > 0
    ensures ShardStart(0, lanes, n) == 0
    ensures ShardEnd(lane, lanes, n) == ShardStart(lane + 1, lanes, n)
    ensures ShardStart(lanes, lanes, n) == n
  {
    var base, rem := n / lanes, n % lanes;
    assert n == lanes * base + rem;
    if lane < rem {
      assert (lane + 1) * (base + 1) == lane * (base + 1) + (base + 1);
    } else {
      assert (lane + 1 - rem) * base == (lane - rem) * base + base;
    }
    assert (lanes - rem) * base == lanes * base - rem * base;
  }

  lemma {:induction false} ShardsOrdered(a: nat, b: nat, lanes: nat, n: nat)
    requires lanes > 0 && a <= b
    ensures ShardStart(a, lanes, n) <= ShardStart(b, lanes, n)
    decreases b - a
  {
    if a < b {
      ShardsAdjoin(a, lanes, n);
      ShardsOrdered(a + 1, b, lanes, n);
    }
  }

  /** Every index below `n` lies in the shard of exactly one lane, and no index
      from `n` on lies in any: the shards tile `[0, n)`. */
  lemma ShardsTile(i: nat, lanes: nat, n: nat)
    requires lanes > 0
    ensures i < n <==> exists lane: nat :: lane < lanes && InShard(i, lane, lanes, n)
    ensures forall a: nat, b: nat :: InShard(i, a, lanes, n) && InShard(i, b, lanes, n) ==> a == b
  {
    if i < n {
      var lane := FindOwner(i, lanes, n);
    }
    forall lane: nat | lane < lanes && InShard(i, lane, lanes, n)
      ensures i < n
    {
      ShardWithin(lane, lanes, n);
    }
    forall a: nat, b: nat | InShard(i, a, lanes, n) && InShard(i, b, lanes, n)
      ensures a == b
    {
      ShardsDisjoint(i, a, b, lanes, n);
    }
  }

  lemma ShardWithin(lane: nat, lanes: nat, n: nat)
    requires lane < lanes
    ensures ShardEnd(lane, lanes, n) <= n
  {
    ShardsAdjoin(lane, lanes, n);
    ShardsOrdered(lane + 1, lanes, lanes, n);
  }

  lemma ShardsDisjoint(i: nat, a: nat, b: nat, lanes: nat, n: nat)
    requires lanes > 0
    requires InShard(i, a, lanes, n) && InShard(i, b, lanes, n)
    ensures a == b
  {
    ShardsAdjoin(a, lanes, n);
    ShardsAdjoin(b, lanes, n);
    if a < b {
      ShardsOrdered(a + 1, b, lanes, n);
    } else if b < a {
      ShardsOrdered(b + 1, a, lanes, n);
    }
  }

  lemma FindOwner(i: nat, lanes: nat, n: nat) returns (lane: nat)
    requires lanes > 0 && i < n
    ensures lane < lanes && InShard(i, lane, lanes, n)
  {
    ShardsAdjoin(0, lanes, n);
    lane := 0;
    while !(i < ShardEnd(lane, lanes, n))
      invariant lane < lanes
      invariant ShardStart(lane, lanes, n) <= i
      decreases lanes - lane
    {
      ShardsAdjoin(lane, lanes, n);
      lane := lane + 1;
    }
  }

  /** The shard loop. `visited` records the indices handed to the job, in order. */
  method RunShard(lane: nat, lanes: nat, n: nat) returns (visited: seq<nat>)
    requires lanes > 0
    ensures |visited| == ShardLen(lane, lanes, n)
    ensures forall k :: 0 <= k < |visited| ==> visited[k] == ShardStart(lane, lanes, n) + k
  {
    var base := n / lanes;
    var rem := n % lanes;
    var start, len;
    if lane < rem {
      start, len := lane * (base + 1), base + 1;
    } else {
      start, len := rem * (base + 1) + (lane - rem) * base, base;
    }
    assert start == ShardStart(lane, lanes, n) && len == ShardLen(lane, lanes, n);
    visited := [];
    for i := start to start + len
      invariant |visited| == i - start
      invariant forall k :: 0 <= k < |visited| ==> visited[k] == start + k
    {
      visited := visited + [i];
    }
  }
}
