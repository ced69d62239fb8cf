/** Trimming each device's persistent weights to its memory budget by spilling regions,
    last first, to the spill store. */
module Placement {
  datatype Store = Ram | Vram(device: nat) | Mmap

  datatype Compute = Cpu | Cuda(device: nat) | Wgpu(device: nat)

  datatype Transfer = NoTransfer | HostToDeviceEachUse | DeviceToHostEachUse | CrossDevice

  datatype Region = Region(id: nat, weight: nat, store: Store, compute: Compute, transfer: Transfer)

  datatype Policy = Policy(spillStore: Store, spillCompute: Compute)

  datatype Kv = Kv(store: Store, bytes: nat)

  datatype Pool = Pool(device: nat, usable: nat)

  datatype Warning = ForcedSpill(device: nat, used: nat, usable: nat, runtime: nat)

  /** The weights are where they are computed on. */
  predicate InPlace(store: Store, compute: Compute) {
    if store.Vram? then !compute.Cpu? && compute.device == store.device else compute.Cpu?
  }

  /** Nothing moves in place; otherwise the transfer is named after where the weights come from and
      where they go. */
  function TransferPolicy(store: Store, compute: Compute): (t: Transfer)
    ensures t.NoTransfer? <==> InPlace(store, compute)
    ensures t.HostToDeviceEachUse? <==> !store.Vram? && !compute.Cpu?
    ensures t.DeviceToHostEachUse? <==> store.Vram? && compute.Cpu?
    ensures t.CrossDevice? <==> store.Vram? && !compute.Cpu? && store.device != compute.device
  {
    match (store, compute)
    case (Ram, Cpu) => NoTransfer
    case (Mmap, Cpu) => NoTransfer
    case (Vram(a), Cuda(b)) => if a == b then NoTransfer else CrossDevice
    case (Vram(a), Wgpu(b)) => if a == b then NoTransfer else CrossDevice
    case (Vram(_), Cpu) => DeviceToHostEachUse
    case (_, _) => HostToDeviceEachUse
  }

  function SaturatingSub(a: nat, b: nat): nat {
    if a < b then 0 else a - b
  }

  // ----- Accounting -----

  predicate On(p: Region, device: nat) {
    p.store == Vram(device)
  }

  /** Resident weight bytes of the device among the first `n` regions. */
  function Used(ps: seq<Region>, device: nat, n: nat): nat
    requires n <= |ps|
  {
    if n == 0 then 0 else Used(ps, device, n - 1) + if On(ps[n - 1], device) then ps[n - 1].weight else 0
  }

  function Resident(ps: seq<Region>, device: nat): nat {
    Used(ps, device, |ps|)
  }

  function Runtime(kv: Kv, device: nat): nat {
    if kv.store == Vram(device) then kv.bytes else 0
  }

  lemma {:induction false} UsedGrows(ps: seq<Region>, device: nat, a: nat, b: nat)
    requires a <= b <= |ps|
    ensures Used(ps, device, a) <= Used(ps, device, b)
  {
    if a < b {
      UsedGrows(ps, device, a, b - 1);
    }
  }

  // ----- One device -----

  function Spilled(p: Region, policy: Policy): Region {
    p.(store := policy.spillStore, compute := policy.spillCompute,
       transfer := TransferPolicy(policy.spillStore, policy.spillCompute))
  }

  /** The device's regions from index `k` on are spilled. */
  function SpillFrom(ps: seq<Region>, device: nat, policy: Policy, k: nat): (r: seq<Region>)
    ensures |r| == |ps|
  {
    seq(|ps|, i requires 0 <= i < |ps| => if i >= k && On(ps[i], device) then Spilled(ps[i], policy) else ps[i])
  }

  /** `k` starts the shortest suffix whose spilling brings the device within budget, or
      everything if nothing does. */
  predicate IsCut(ps: seq<Region>, device: nat, runtime: nat, usable: nat, k: nat) {
    && k <= |ps|
    && (k == 0 || runtime + Used(ps, device, k) <= usable)
    && (k < |ps| ==> runtime + Used(ps, device, k + 1) > usable)
  }

  lemma CutIsUnique(ps: seq<Region>, device: nat, runtime: nat, usable: nat, k: nat, k': nat)
    requires IsCut(ps, device, runtime, usable, k) && IsCut(ps, device, runtime, usable, k')
    ensures k == k'
  {
    if k < k' {
      UsedGrows(ps, device, k + 1, k');
    } else if k' < k {
      UsedGrows(ps, device, k' + 1, k);
    }
  }

  function CutUpto(ps: seq<Region>, device: nat, runtime: nat, usable: nat, n: nat): (k: nat)
    requires n <= |ps| && (n < |ps| ==> runtime + Used(ps, device, n + 1) > usable)
    ensures IsCut(ps, device, runtime, usable, k)
  {
    if n == 0 || runtime + Used(ps, device, n) <= usable then n else CutUpto(ps, device, runtime, usable, n - 1)
  }

  function Cut(ps: seq<Region>, device: nat, runtime: nat, usable: nat): (k: nat)
    ensures IsCut(ps, device, runtime, usable, k)
  {
    CutUpto(ps, device, runtime, usable, |ps|)
  }

  /** The device's regions trimmed to its budget. */
  function Trimmed(ps: seq<Region>, device: nat, runtime: nat, usable: nat, policy: Policy): (r: seq<Region>)
    ensures |r| == |ps|
  {
    SpillFrom(ps, device, policy, Cut(ps, device, runtime, usable))
  }

  method SumResident(placements: array<Region>, device: nat) returns (sum: nat)
    ensures sum == Resident(placements[..], device)
  {
    sum := 0;
    for i := 0 to placements.Length
      invariant sum == Used(placements[..], device, i)
    {
      if On(placements[i], device) {
        sum := sum + placements[i].weight;
      }
    }
  }

  lemma SpillStep(ps: seq<Region>, device: nat, policy: Policy, i: nat)
    requires i < |ps|
    ensures SpillFrom(ps, device, policy, i)
         == (if On(ps[i], device) then SpillFrom(ps, device, policy, i + 1)[i := Spilled(ps[i], policy)]
             else SpillFrom(ps, device, policy, i + 1))
  {
  }

  /** One device: regions are visited last first until the total fits. */
  method TrimDevice(placements: array<Region>, device: nat, runtime: nat, usable: nat, policy: Policy) returns (used: nat, over: bool)
    modifies placements
    ensures placements[..] == Trimmed(old(placements[..]), device, runtime, usable, policy)
    ensures over <==> runtime + Resident(old(placements[..]), device) > usable
    ensures used == runtime + Used(old(placements[..]), device, Cut(old(placements[..]), device, runtime, usable))
  {
    ghost var ps := placements[..];
    var sum := SumResident(placements, device);
    used := runtime + sum;
    over := used > usable;
    var i := placements.Length;
    assert SpillFrom(ps, device, policy, i) == ps;
    while i > 0 && used > usable
      invariant 0 <= i <= placements.Length && placements[..] == SpillFrom(ps, device, policy, i)
      invariant used == runtime + Used(ps, device, i)
      invariant i < placements.Length ==> runtime + Used(ps, device, i + 1) > usable
    {
      i := i - 1;
      SpillStep(ps, device, policy, i);
      if On(placements[i], device) {
        used := SaturatingSub(used, placements[i].weight);
        placements[i] := Spilled(placements[i], policy);
      }
    }
    assert IsCut(ps, device, runtime, usable, i);
    CutIsUnique(ps, device, runtime, usable, i, Cut(ps, device, runtime, usable));
  }

  // ----- What one trim achieves -----

  /** After spilling, the device holds the kept prefix, plus what was spilled if the spill
      store is the device itself. */
  lemma {:induction false} ResidentAfter(ps: seq<Region>, device: nat, policy: Policy, k: nat, n: nat)
    requires n <= |ps|
    ensures Used(SpillFrom(ps, device, policy, k), device, n)
         == (if policy.spillStore == Vram(device) || n <= k then Used(ps, device, n) else Used(ps, device, k))
  {
    if n > 0 {
      ResidentAfter(ps, device, policy, k, n - 1);
    }
  }

  lemma {:induction false} OtherDevice(ps: seq<Region>, device: nat, policy: Policy, k: nat, other: nat, n: nat)
    requires n <= |ps| && other != device && policy.spillStore != Vram(other)
    ensures Used(SpillFrom(ps, device, policy, k), other, n) == Used(ps, other, n)
  {
    if n > 0 {
      OtherDevice(ps, device, policy, k, other, n - 1);
    }
  }

  predicate NoneOn(ps: seq<Region>, device: nat) {
    forall i :: 0 <= i < |ps| ==> !On(ps[i], device)
  }

  predicate Fits(ps: seq<Region>, device: nat, runtime: nat, usable: nat) {
    runtime + Resident(ps, device) <= usable || NoneOn(ps, device)
  }

  /** With the spill store off the device, trimming makes it fit or leaves nothing on it,
      and the total the loop reports is the true one. */
  lemma TrimFits(ps: seq<Region>, device: nat, runtime: nat, usable: nat, policy: Policy)
    requires policy.spillStore != Vram(device)
    ensures
      var after := Trimmed(ps, device, runtime, usable, policy);
      && Fits(after, device, runtime, usable)
      && Resident(after, device) == Used(ps, device, Cut(ps, device, runtime, usable))
  {
    ResidentAfter(ps, device, policy, Cut(ps, device, runtime, usable), |ps|);
  }

  /** What the loop reports as resident is the true total exactly when the spill store is off the
      device, the device was within budget to begin with, or its regions weigh nothing. */
  lemma ReportedIsTrueIff(ps: seq<Region>, device: nat, runtime: nat, usable: nat, policy: Policy)
    ensures
      Resident(Trimmed(ps, device, runtime, usable, policy), device) == Used(ps, device, Cut(ps, device, runtime, usable))
      <==> || policy.spillStore != Vram(device)
           || runtime + Resident(ps, device) <= usable
           || Resident(ps, device) == 0
  {
    var k := Cut(ps, device, runtime, usable);
    ResidentAfter(ps, device, policy, k, |ps|);
    UsedGrows(ps, device, k, |ps|);
    if k < |ps| {
      UsedGrows(ps, device, k + 1, |ps|);
    }
  }

  /** Spilling a device onto itself: 7 bytes against a budget of 5 are reported as none, and stay. */
  lemma SelfSpillMisreports()
    ensures
      var ps := [Region(0, 7, Vram(0), Cuda(0), NoTransfer)];
      var policy := Policy(Vram(0), Cuda(0));
      && Used(ps, 0, Cut(ps, 0, 0, 5)) == 0
      && Resident(Trimmed(ps, 0, 0, 5, policy), 0) == 7
  {
    var ps := [Region(0, 7, Vram(0), Cuda(0), NoTransfer)];
    assert Used(ps, 0, 0) == 0 && Used(ps, 0, 1) == 7;
    assert IsCut(ps, 0, 0, 5, 0);
    CutIsUnique(ps, 0, 0, 5, 0, Cut(ps, 0, 0, 5));
    ResidentAfter(ps, 0, Policy(Vram(0), Cuda(0)), 0, 1);
  }

  /** The last region spilled could not have stayed: with it back, the device is over budget. */
  lemma LastSpilledWasNeeded(ps: seq<Region>, device: nat, runtime: nat, usable: nat, policy: Policy)
    requires policy.spillStore != Vram(device)
    ensures
      var k := Cut(ps, device, runtime, usable);
      k < |ps| ==>
        && runtime + Resident(SpillFrom(ps, device, policy, k + 1), device) > usable
        && (k > 0 ==> On(ps[k], device))
  {
    var k := Cut(ps, device, runtime, usable);
    if k < |ps| {
      ResidentAfter(ps, device, policy, k + 1, |ps|);
    }
  }

  predicate TransfersOk(ps: seq<Region>) {
    forall i :: 0 <= i < |ps| ==> ps[i].transfer == TransferPolicy(ps[i].store, ps[i].compute)
  }

  // ----- All pools -----

  /** The pools in order, each trimming its own device. */
  function TrimAll(ps: seq<Region>, kv: Kv, pools: seq<Pool>, policy: Policy, n: nat): (r: seq<Region>)
    requires n <= |pools|
    ensures |r| == |ps|
  {
    if n == 0 then ps
    else
      var pool := pools[n - 1];
      Trimmed(TrimAll(ps, kv, pools, policy, n - 1), pool.device, Runtime(kv, pool.device), pool.usable, policy)
  }

  method TrimVramToBudget(placements: array<Region>, kv: Kv, pools: seq<Pool>, policy: Policy) returns (warnings: seq<Warning>)
    modifies placements
    ensures placements[..] == TrimAll(old(placements[..]), kv, pools, policy, |pools|)
    ensures warnings == Warnings(old(placements[..]), kv, pools, policy, |pools|)
  {
    hide Trimmed;
    hide Cut;
    hide Used;
    ghost var ps := placements[..];
    warnings := [];
    for i := 0 to |pools|
      invariant placements[..] == TrimAll(ps, kv, pools, policy, i)
      invariant warnings == Warnings(ps, kv, pools, policy, i)
    {
      var device, usable := pools[i].device, pools[i].usable;
      var runtime := Runtime(kv, device);
      var used, over := TrimDevice(placements, device, runtime, usable, policy);
      if over {
        warnings := warnings + [ForcedSpill(device, used, usable, runtime)];
      }
    }
  }

  /** One warning for each pool found over budget on its turn, with what stayed. */
  function Warnings(ps: seq<Region>, kv: Kv, pools: seq<Pool>, policy: Policy, n: nat): seq<Warning>
    requires n <= |pools|
  {
    if n == 0 then []
    else
      var before, device, usable := TrimAll(ps, kv, pools, policy, n - 1), pools[n - 1].device, pools[n - 1].usable;
      var runtime := Runtime(kv, device);
      Warnings(ps, kv, pools, policy, n - 1)
      + if runtime + Resident(before, device) > usable
        then [ForcedSpill(device, runtime + Used(before, device, Cut(before, device, runtime, usable)), usable, runtime)]
        else []
  }

  predicate HostStore(store: Store) {
    !store.Vram?
  }

  predicate DistinctDevices(pools: seq<Pool>) {
    forall i, j :: 0 <= i < j < |pools| ==> pools[i].device != pools[j].device
  }

  /** Trimming other devices keeps a device's regions and total. */
  lemma {:induction false} OthersKeep(ps: seq<Region>, kv: Kv, pools: seq<Pool>, policy: Policy, n: nat, device: nat)
    requires n <= |pools| && HostStore(policy.spillStore)
    requires forall j :: 0 <= j < n ==> pools[j].device != device
    ensures
      var after := TrimAll(ps, kv, pools, policy, n);
      && (forall m: nat :: m <= |ps| ==> Used(after, device, m) == Used(ps, device, m))
      && (forall i :: 0 <= i < |ps| ==> (On(after[i], device) <==> On(ps[i], device)))
      && (forall i :: 0 <= i < |ps| && On(ps[i], device) ==> after[i] == ps[i])
  {
    if n > 0 {
      OthersKeep(ps, kv, pools, policy, n - 1, device);
      var before, pool := TrimAll(ps, kv, pools, policy, n - 1), pools[n - 1];
      var k := Cut(before, pool.device, Runtime(kv, pool.device), pool.usable);
      forall m: nat | m <= |ps|
        ensures Used(TrimAll(ps, kv, pools, policy, n), device, m) == Used(ps, device, m)
      {
        OtherDevice(before, pool.device, policy, k, device, m);
      }
    }
  }

  /** A region's fate is settled by its own device's pool. */
  predicate SettledBy(ps: seq<Region>, after: seq<Region>, pool: Pool, kv: Kv, policy: Policy) {
    |after| == |ps| &&
    var k := Cut(ps, pool.device, Runtime(kv, pool.device), pool.usable);
    forall i :: 0 <= i < |ps| && On(ps[i], pool.device) ==> after[i] == if i >= k then Spilled(ps[i], policy) else ps[i]
  }

  lemma SameCut(ps: seq<Region>, qs: seq<Region>, device: nat, runtime: nat, usable: nat)
    requires |ps| == |qs| && forall m: nat :: m <= |ps| ==> Used(qs, device, m) == Used(ps, device, m)
    ensures Cut(qs, device, runtime, usable) == Cut(ps, device, runtime, usable)
  {
    hide Cut;
    hide Used;
    CutIsUnique(ps, device, runtime, usable, Cut(qs, device, runtime, usable), Cut(ps, device, runtime, usable));
  }

  /** Right after its own turn a pool fits, and its regions are settled. */
  lemma OwnTurn(ps: seq<Region>, kv: Kv, pools: seq<Pool>, policy: Policy, n: nat)
    requires n < |pools| && HostStore(policy.spillStore)
    requires forall j :: 0 <= j < n ==> pools[j].device != pools[n].device
    ensures
      var after := TrimAll(ps, kv, pools, policy, n + 1);
      && Fits(after, pools[n].device, Runtime(kv, pools[n].device), pools[n].usable)
      && SettledBy(ps, after, pools[n], kv, policy)
  {
    hide Used;
    hide Cut;
    var device, usable := pools[n].device, pools[n].usable;
    var before := TrimAll(ps, kv, pools, policy, n);
    OthersKeep(ps, kv, pools, policy, n, device);
    SameCut(ps, before, device, Runtime(kv, device), usable);
    TrimFits(before, device, Runtime(kv, device), usable, policy);
  }

  lemma {:induction false} LaterTurnsKeep(ps: seq<Region>, kv: Kv, pools: seq<Pool>, policy: Policy, i: nat, n: nat)
    requires i < n <= |pools| && HostStore(policy.spillStore) && DistinctDevices(pools)
    ensures
      var after := TrimAll(ps, kv, pools, policy, n);
      && Fits(after, pools[i].device, Runtime(kv, pools[i].device), pools[i].usable)
      && SettledBy(ps, after, pools[i], kv, policy)
    decreases n
  {
    hide Cut;
    if n == i + 1 {
      OwnTurn(ps, kv, pools, policy, i);
    } else {
      LaterTurnsKeep(ps, kv, pools, policy, i, n - 1);
      TurnKeeps(TrimAll(ps, kv, pools, policy, n - 1), ps, kv, pools[n - 1], pools[i], policy);
    }
  }

  lemma TurnKeeps(before: seq<Region>, ps: seq<Region>, kv: Kv, pool: Pool, mine: Pool, policy: Policy)
    requires HostStore(policy.spillStore) && pool.device != mine.device
    requires Fits(before, mine.device, Runtime(kv, mine.device), mine.usable) && SettledBy(ps, before, mine, kv, policy)
    ensures
      var after := Trimmed(before, pool.device, Runtime(kv, pool.device), pool.usable, policy);
      Fits(after, mine.device, Runtime(kv, mine.device), mine.usable) && SettledBy(ps, after, mine, kv, policy)
  {
    hide Used;
    hide Cut;
    var k := Cut(before, pool.device, Runtime(kv, pool.device), pool.usable);
    OtherDevice(before, pool.device, policy, k, mine.device, |before|);
  }

  /** After trimming, every pool's device is within budget or holds no region, and each of
      its regions stays exactly when it comes before the pool's cut. */
  lemma EveryPoolFits(ps: seq<Region>, kv: Kv, pools: seq<Pool>, policy: Policy, i: nat)
    requires i < |pools| && HostStore(policy.spillStore) && DistinctDevices(pools)
    ensures
      var after := TrimAll(ps, kv, pools, policy, |pools|);
      && Fits(after, pools[i].device, Runtime(kv, pools[i].device), pools[i].usable)
      && SettledBy(ps, after, pools[i], kv, policy)
  {
    hide Cut;
    LaterTurnsKeep(ps, kv, pools, policy, i, |pools|);
  }

  /** Every region's transfer follows from where it is stored and computed. */
  lemma {:induction false} TransfersKept(ps: seq<Region>, kv: Kv, pools: seq<Pool>, policy: Policy, n: nat)
    requires n <= |pools| && TransfersOk(ps)
    ensures TransfersOk(TrimAll(ps, kv, pools, policy, n))
  {
    hide Cut;
    if n > 0 {
      TransfersKept(ps, kv, pools, policy, n - 1);
    }
  }

  /** Nothing but store, compute and transfer ever changes, so no weight is lost. */
  lemma {:induction false} RegionsKept(ps: seq<Region>, kv: Kv, pools: seq<Pool>, policy: Policy, n: nat, i: nat)
    requires n <= |pools| && i < |ps|
    ensures TrimAll(ps, kv, pools, policy, n)[i].id == ps[i].id && TrimAll(ps, kv, pools, policy, n)[i].weight == ps[i].weight
  {
    hide Cut;
    if n > 0 {
      RegionsKept(ps, kv, pools, policy, n - 1, i);
    }
  }

  // ----- The outcome, read off the regions -----

  /** Weight bytes stored on a device. */
  function WeightOn(ps: seq<Region>, device: nat): nat {
    if ps == [] then 0 else (if ps[0].store == Vram(device) then ps[0].weight else 0) + WeightOn(ps[1..], device)
  }

  /** Bytes on a device: the KV cache, if it is there, and the weights. */
  function BytesOn(kv: Kv, ps: seq<Region>, device: nat): nat {
    (if kv.store == Vram(device) then kv.bytes else 0) + WeightOn(ps, device)
  }

  lemma {:induction false} WeightOnSnoc(ps: seq<Region>, p: Region, device: nat)
    ensures WeightOn(ps + [p], device) == WeightOn(ps, device) + if p.store == Vram(device) then p.weight else 0
  {
    if ps == [] {
      assert ([] + [p])[1..] == [];
    } else {
      assert (ps + [p])[1..] == ps[1..] + [p];
      WeightOnSnoc(ps[1..], p, device);
    }
  }

  lemma {:induction false} WeightOnIsUsed(ps: seq<Region>, device: nat, n: nat)
    requires n <= |ps|
    ensures WeightOn(ps[..n], device) == Used(ps, device, n)
  {
    if n > 0 {
      WeightOnIsUsed(ps, device, n - 1);
      assert ps[..n] == ps[..n - 1] + [ps[n - 1]];
      WeightOnSnoc(ps[..n - 1], ps[n - 1], device);
    }
  }

  /** A region of the device keeps its place before `k` and has been moved from `k` on. */
  predicate MovedFrom(p: Region, after: Region, j: nat, k: nat, policy: Policy) {
    if j < k then after == p
    else
      && after.id == p.id && after.weight == p.weight
      && after.store == policy.spillStore && after.compute == policy.spillCompute
      && (after.transfer.NoTransfer? <==> policy.spillCompute.Cpu?)
      && (after.transfer.HostToDeviceEachUse? <==> !policy.spillCompute.Cpu?)
  }

  /** What the planner leaves of one pool: its regions from some `k` on, and no others, are moved to the
      host store; what stays fits with the KV cache, or nothing stays; and one region more would not
      fit. */
  lemma PoolOutcome(ps: seq<Region>, kv: Kv, pools: seq<Pool>, policy: Policy, i: nat) returns (k: nat)
    requires i < |pools| && HostStore(policy.spillStore) && DistinctDevices(pools)
    ensures
      var after, device, usable := TrimAll(ps, kv, pools, policy, |pools|), pools[i].device, pools[i].usable;
      && k <= |ps|
      && (forall j: nat :: j < |ps| && ps[j].store == Vram(device) ==> MovedFrom(ps[j], after[j], j, k, policy))
      && (BytesOn(kv, after, device) <= usable || forall j :: 0 <= j < |ps| ==> after[j].store != Vram(device))
      && (k > 0 ==> BytesOn(kv, ps[..k], device) <= usable)
      && (k < |ps| ==> BytesOn(kv, ps[..k + 1], device) > usable)
  {
    hide Cut;
    var after, pool := TrimAll(ps, kv, pools, policy, |pools|), pools[i];
    EveryPoolFits(ps, kv, pools, policy, i);
    k := Cut(ps, pool.device, Runtime(kv, pool.device), pool.usable);
    WeightOnIsUsed(after, pool.device, |after|);
    assert after[..|after|] == after;
    WeightOnIsUsed(ps, pool.device, k);
    if k < |ps| {
      WeightOnIsUsed(ps, pool.device, k + 1);
    }
  }

  /** Regions on no pool's device stay as they are. */
  lemma {:induction false} OthersStay(ps: seq<Region>, kv: Kv, pools: seq<Pool>, policy: Policy, n: nat, j: nat)
    requires n <= |pools| && j < |ps| && forall i :: 0 <= i < n ==> ps[j].store != Vram(pools[i].device)
    ensures TrimAll(ps, kv, pools, policy, n)[j] == ps[j]
  {
    hide Cut;
    if n > 0 {
      OthersStay(ps, kv, pools, policy, n - 1, j);
    }
  }
}
