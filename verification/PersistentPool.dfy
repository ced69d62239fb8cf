/** The pool's shared words, updated in place one atomic access at a time. Each
    method is one thread's next step; its contract says that the fields move
    exactly as the step system says, and that the invariant holds again. */
module PersistentPool {
  import opened PoolShard
  import opened PoolProtocol
  import opened PoolSafety

  class Shared {
    const poolLanes: nat
    const budget: nat
    var generation: nat
    var pending: int
    var n: nat
    var lanes: nat
    var data: nat
    var vtable: nat
    var shutdown: bool
    var parked: int
    var caller: CallerPc
    var workers: seq<Worker>
    var calls: seq<nat>
    var log: seq<Hit>

    ghost function Snapshot(): State
      reads this
    {
      State(poolLanes, budget, generation, pending, n, lanes, data, vtable, shutdown, parked, caller, workers, calls, log)
    }

    ghost predicate Valid()
      reads this
    {
      Inv(Snapshot())
    }

    constructor (laneCount: nat, spinAndYieldBudget: nat)
      ensures Valid()
      ensures Snapshot() == Init(laneCount, spinAndYieldBudget)
    {
      var participating := if laneCount == 0 then 1 else laneCount;
      poolLanes := participating;
      budget := spinAndYieldBudget;
      generation, pending, n, lanes := 0, 0, 0, participating;
      data, vtable, shutdown, parked := 0, 0, false, 0;
      caller, calls, log := Idle, [], [];
      workers := seq(participating - 1, _ => FreshWorker);
      new;
      InitInv(laneCount, spinAndYieldBudget);
    }

    /** Entry of `dispatch(jobs, f)`. */
    method Dispatch(jobs: nat)
      requires Valid() && caller.Idle?
      modifies this
      ensures Valid() && Snapshot() == Apply(old(Snapshot()), Call(jobs))
    {
      StepInv(Snapshot(), Call(jobs));
      if jobs == 0 {
        return;
      }
      calls := calls + [jobs];
      if poolLanes <= 1 {
        caller := Inline(0);
      } else {
        caller := StoreN;
      }
    }

    method Drop()
      requires Valid() && caller.Idle?
      modifies this
      ensures Valid() && Snapshot() == Apply(old(Snapshot()), BeginDrop)
    {
      StepInv(Snapshot(), BeginDrop);
      caller := DropShutdown;
    }

    /** The stores of `dispatch` up to the generation bump. */
    method StepPublish()
      requires Valid() && Enabled(Snapshot(), CallerStep)
      requires Publishing(caller)
      modifies this
      ensures Valid() && Snapshot() == Apply(old(Snapshot()), CallerStep)
    {
      hide PublishedOk;
      hide WorkerOk;
      hide WakeOk;
      hide CountersOk;
      hide LogOk;
      StepInv(Snapshot(), CallerStep);
      var call := |calls| - 1;
      match caller {
        case StoreN => n, caller := calls[call], StoreLanes;
        case StoreLanes => lanes, caller := poolLanes, StoreVtable;
        case StoreVtable => vtable, caller := call, StoreData;
        case StoreData => data, caller := call, StorePending;
        case StorePending => pending, caller := poolLanes - 1, Bump;
        case Bump => generation, caller := generation + 1, LoadParked;
      }
    }

    /** The inline loop of a one-lane pool. */
    method StepInline()
      requires Valid() && caller.Inline?
      modifies this
      ensures Valid() && Snapshot() == Apply(old(Snapshot()), CallerStep)
    {
      hide PublishedOk;
      hide WorkerOk;
      hide WakeOk;
      hide CountersOk;
      hide LogOk;
      StepInv(Snapshot(), CallerStep);
      var call := |calls| - 1;
      if caller.next < calls[call] {
        log, caller := log + [Hit(call, call, caller.next)], Inline(caller.next + 1);
      } else {
        caller := Idle;
      }
    }

    /** Lane 0's shard, run by the dispatching thread. */
    method StepOwnShard()
      requires Valid() && caller.OwnShard?
      modifies this
      ensures Valid() && Snapshot() == Apply(old(Snapshot()), CallerStep)
    {
      hide PublishedOk;
      hide WorkerOk;
      hide WakeOk;
      hide CountersOk;
      hide LogOk;
      StepInv(Snapshot(), CallerStep);
      var call := |calls| - 1;
      if caller.at < ShardEnd(0, poolLanes, calls[call]) {
        log, caller := log + [Hit(call, call, caller.at)], OwnShard(caller.at + 1);
      } else {
        caller := Await;
      }
    }

    /** Waking parked workers, and the wait for `pending` to reach 0. */
    method StepWake()
      requires Valid() && Enabled(Snapshot(), CallerStep)
      requires caller.LoadParked? || caller.Unpark? || caller.Await?
      modifies this
      ensures Valid() && Snapshot() == Apply(old(Snapshot()), CallerStep)
    {
      hide PublishedOk;
      hide WorkerOk;
      hide WakeOk;
      hide CountersOk;
      hide LogOk;
      StepInv(Snapshot(), CallerStep);
      var jobs := calls[|calls| - 1];
      match caller {
        case LoadParked =>
          caller := if parked != 0 then Unpark(0) else OwnShard(ShardStart(0, poolLanes, jobs));
        case Unpark(k) =>
          if k < |workers| {
            workers, caller := workers[k := workers[k].(token := true)], Unpark(k + 1);
          } else {
            caller := OwnShard(ShardStart(0, poolLanes, jobs));
          }
        case Await =>
          if pending == 0 {
            caller := Idle;
          }
      }
    }

    /** The steps of `drop`. */
    method StepDrop()
      requires Valid() && Enabled(Snapshot(), CallerStep)
      requires caller.DropShutdown? || caller.DropBump? || caller.DropUnpark? || caller.Join?
      modifies this
      ensures Valid() && Snapshot() == Apply(old(Snapshot()), CallerStep)
    {
      hide PublishedOk;
      hide WorkerOk;
      hide WakeOk;
      hide LogOk;
      StepInv(Snapshot(), CallerStep);
      match caller {
        case DropShutdown => shutdown, caller := true, DropBump;
        case DropBump => generation, caller := generation + 1, DropUnpark(0);
        case DropUnpark(j) =>
          if j < |workers| {
            workers, caller := workers[j := workers[j].(token := true)], DropUnpark(j + 1);
          } else {
            caller := Join(0);
          }
        case Join(m) =>
          if m == |workers| {
            caller := Dropped;
          } else if workers[m].pc.Exited? {
            caller := Join(m + 1);
          }
      }
    }

    /** The dispatching (or dropping) thread's next access. */
    method StepCaller()
      requires Valid() && Enabled(Snapshot(), CallerStep)
      modifies this
      ensures Valid() && Snapshot() == Apply(old(Snapshot()), CallerStep)
    {
      if Publishing(caller) {
        StepPublish();
      } else if caller.Inline? {
        StepInline();
      } else if caller.OwnShard? {
        StepOwnShard();
      } else if caller.LoadParked? || caller.Unpark? || caller.Await? {
        StepWake();
      } else {
        StepDrop();
      }
    }

    /** Worker `w`'s next access. */
    method StepWorker(w: nat)
      requires Valid() && Enabled(Snapshot(), WorkerStep(w))
      modifies this
      ensures Valid() && Snapshot() == Apply(old(Snapshot()), WorkerStep(w))
    {
      hide Inv;
      StepInv(Snapshot(), WorkerStep(w));
      var x := workers[w];
      match x.pc {
        case Poll =>
          if generation != x.lastGen {
            x := x.(lastGen := generation, pc := CheckShutdown);
          } else {
            x := x.(spins := x.spins + 1, pc := if x.spins + 1 < budget then Poll else Announce);
          }
        case Announce =>
          parked := parked + 1;
          x := x.(pc := Recheck);
        case Recheck => x := x.(pc := if generation == x.lastGen then RecheckShutdown else Unannounce);
        case RecheckShutdown => x := x.(pc := if shutdown then Unannounce else ParkCall);
        case ParkCall => x := if x.token then x.(token := false, pc := Unannounce) else x.(pc := Parked);
        case Parked => x := x.(token := false, pc := Unannounce);
        case Unannounce =>
          parked := parked - 1;
          x := x.(pc := Poll);
        case CheckShutdown => x := x.(pc := if shutdown then Exited else LoadN);
        case LoadN => x := x.(n := n, pc := LoadLanes);
        case LoadLanes => x := x.(lanes := lanes, pc := LoadData);
        case LoadData => x := x.(data := data, pc := LoadVtable);
        case LoadVtable =>
          x := x.(vtable := vtable, pc := Finish);
          if w + 1 < x.lanes {
            x := x.(next := ShardStart(w + 1, x.lanes, x.n), pc := Run);
          }
        case Run =>
          if x.lanes > 0 && x.next < ShardEnd(w + 1, x.lanes, x.n) {
            log := log + [Hit(x.data, x.vtable, x.next)];
            x := x.(next := x.next + 1);
          } else {
            x := x.(pc := Finish);
          }
        case Finish =>
          pending := pending - 1;
          x := x.(pc := Poll, spins := 0);
      }
      workers := workers[w := x];
    }
  }
}
