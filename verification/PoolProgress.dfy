/** Progress of the pool protocol: the work left in a posted dispatch (or shutdown)
    is a number that no step raises, every productive step lowers, and some
    productive step can always be taken until the caller returns. */
module PoolProgress {
  import opened PoolShard
  import opened PoolProtocol
  import opened PoolSafety
  import opened Sums

  /** Steps worker `w` still has to take for the posted generation; 0 once it is done. */
  function WorkerRank(s: State, w: nat): nat
    requires w < |s.workers| && s.poolLanes > 0
  {
    var x := s.workers[w];
    var len := ShardLen(w + 1, s.poolLanes, CurrentJobs(s));
    if DropPosted(s.caller) then
      match x.pc
      case Exited => 0
      case CheckShutdown => 1
      case Poll => 2
      case Unannounce => 3
      case Parked => 4
      case ParkCall => 5
      case RecheckShutdown => 6
      case Recheck => 6
      case Announce => 7
      case _ => 0
    else if !Unfinished(x, s.generation) then 0
    else
      match x.pc
      case Finish => 1
      case Run => 2 + (if x.next <= ShardEnd(w + 1, s.poolLanes, CurrentJobs(s))
                       then ShardEnd(w + 1, s.poolLanes, CurrentJobs(s)) - x.next else 0)
      case LoadVtable => 3 + len
      case LoadData => 4 + len
      case LoadLanes => 5 + len
      case LoadN => 6 + len
      case CheckShutdown => 7 + len
      case Poll => 8 + len
      case Unannounce => 9 + len
      case Parked => 10 + len
      case ParkCall => 11 + len
      case RecheckShutdown => 12 + len
      case Recheck => 12 + len
      case Announce => 13 + len
      case Exited => 0
  }

  function CallerRank(s: State): nat
    requires s.poolLanes > 0
  {
    var w := |s.workers|;
    var own := OwnEnd(s) - OwnStart(s);
    match s.caller
    case LoadParked => 3 + w + own
    case Unpark(k) => if k <= w then 2 + (w - k) + own else 2 + own
    case OwnShard(at) => if at <= OwnEnd(s) then 1 + (OwnEnd(s) - at) else 1
    case DropUnpark(j) => if j <= w then 2 + (w - j) + w else 2 + w
    case Join(m) => if m <= w then 1 + (w - m) else 1
    case _ => 0
  }

  function Ranks(s: State): seq<nat>
    requires s.poolLanes > 0
  {
    seq(|s.workers|, w requires 0 <= w < |s.workers| => WorkerRank(s, w))
  }

  function WorkLeft(s: State): nat
    requires s.poolLanes > 0
  {
    CallerRank(s) + Sum(Ranks(s))
  }

  /** The caller waits on other threads. */
  predicate CallerBlocked(s: State) {
    (s.caller.Await? && s.pending != 0)
    || (s.caller.Join? && s.caller.m < |s.workers| && !s.workers[s.caller.m].pc.Exited?)
  }

  /** The caller's next step ends the operation. */
  predicate ReadyToReturn(s: State) {
    (s.caller.Await? && s.pending == 0) || s.caller.Dropped?
  }

  predicate Productive(s: State, a: Action)
    requires s.poolLanes > 0
  {
    match a
    case CallerStep => !CallerBlocked(s)
    case WorkerStep(w) => w < |s.workers| && WorkerRank(s, w) > 0
    case Timeout(w) => w < |s.workers| && WorkerRank(s, w) > 0
    case _ => false
  }

  /** A worker's own step never raises its rank, and lowers it while it has work left. */
  lemma OwnStepRank(s: State, w: nat)
    requires CallerOk(s) && PublishedOk(s) && w < |s.workers| && WorkerOk(s, w)
    requires Enabled(s, WorkerStep(w)) && (Posted(s.caller) || DropPosted(s.caller))
    ensures WorkerRank(ApplyWorker(s, w), w) <= WorkerRank(s, w)
    ensures WorkerRank(s, w) > 0 ==> WorkerRank(ApplyWorker(s, w), w) < WorkerRank(s, w)
  {
    WorkerStepShape(s, w);
    ShardsAdjoin(w + 1, s.poolLanes, CurrentJobs(s));
  }

  lemma OtherRanks(s: State, t: State, w: nat)
    requires s.poolLanes > 0 && w < |s.workers| && |t.workers| == |s.workers|
    requires t.workers == s.workers[w := t.workers[w]]
    requires t == s.(workers := t.workers, log := t.log, parked := t.parked, pending := t.pending)
    ensures Ranks(t) == Ranks(s)[w := WorkerRank(t, w)]
    ensures WorkLeft(t) == WorkLeft(s) - WorkerRank(s, w) + WorkerRank(t, w)
  {
    assert Ranks(t) == Ranks(s)[w := WorkerRank(t, w)];
    SumUpdate(Ranks(s), w, WorkerRank(t, w));
  }

  lemma CallerStepWork(s: State)
    requires CallerOk(s) && Enabled(s, CallerStep) && (Posted(s.caller) || DropPosted(s.caller))
    requires !ReadyToReturn(s)
    ensures ApplyCaller(s).poolLanes == s.poolLanes
    ensures WorkLeft(ApplyCaller(s)) <= WorkLeft(s)
    ensures !CallerBlocked(s) ==> WorkLeft(ApplyCaller(s)) < WorkLeft(s)
  {
    SameRanks(s, ApplyCaller(s));
  }

  lemma SameRanks(s: State, t: State)
    requires s.poolLanes > 0 && t.poolLanes == s.poolLanes && t.calls == s.calls
    requires |t.workers| == |s.workers| && t.generation == s.generation
    requires DropPosted(t.caller) == DropPosted(s.caller)
    requires forall w: nat :: w < |s.workers| ==> t.workers[w].(token := false) == s.workers[w].(token := false)
    ensures Ranks(t) == Ranks(s)
  {
    forall w: nat | w < |s.workers| ensures WorkerRank(t, w) == WorkerRank(s, w) {
      assert t.workers[w].(token := false) == s.workers[w].(token := false);
    }
  }

  lemma WorkerStepWork(s: State, w: nat)
    requires Inv(s) && Enabled(s, WorkerStep(w)) && (Posted(s.caller) || DropPosted(s.caller))
    ensures ApplyWorker(s, w).poolLanes == s.poolLanes
    ensures WorkLeft(ApplyWorker(s, w)) < WorkLeft(s) || (!Productive(s, WorkerStep(w)) && WorkLeft(ApplyWorker(s, w)) == WorkLeft(s))
  {
    assert WorkerOk(s, w);
    OwnStepRank(s, w);
    WorkerStepShape(s, w);
    OtherRanks(s, ApplyWorker(s, w), w);
    hide WorkerRank;
    hide ApplyWorker;
  }

  lemma TimeoutWork(s: State, w: nat)
    requires Inv(s) && Enabled(s, Timeout(w)) && (Posted(s.caller) || DropPosted(s.caller))
    ensures Apply(s, Timeout(w)).poolLanes == s.poolLanes
    ensures WorkLeft(Apply(s, Timeout(w))) <= WorkLeft(s)
    ensures Productive(s, Timeout(w)) ==> WorkLeft(Apply(s, Timeout(w))) < WorkLeft(s)
  {
    assert WorkerOk(s, w);
    OtherRanks(s, Apply(s, Timeout(w)), w);
  }

  /** No step raises the work left, and every productive step lowers it. */
  lemma StepWork(s: State, a: Action)
    requires Inv(s) && Enabled(s, a) && (Posted(s.caller) || DropPosted(s.caller))
    requires a.CallerStep? ==> !ReadyToReturn(s)
    ensures Apply(s, a).poolLanes == s.poolLanes
    ensures WorkLeft(Apply(s, a)) <= WorkLeft(s)
    ensures Productive(s, a) ==> WorkLeft(Apply(s, a)) < WorkLeft(s)
  {
    hide WorkerRank;
    hide CallerRank;
    hide ApplyCaller;
    hide ApplyWorker;
    hide WorkLeft;
    match a
    case CallerStep => CallerStepWork(s);
    case WorkerStep(w) => WorkerStepWork(s, w);
    case Timeout(w) => TimeoutWork(s, w);
  }

  /** Until the caller is ready to return, some thread can take a productive step,
      without help from the park timeout. */
  lemma ProductiveStepExists(s: State) returns (a: Action)
    requires Inv(s) && (Posted(s.caller) || DropPosted(s.caller)) && !ReadyToReturn(s)
    ensures Enabled(s, a) && Productive(s, a) && !a.Timeout?
  {
    if !CallerBlocked(s) {
      a := CallerStep;
    } else {
      var w: nat;
      if s.caller.Await? {
        assert UnfinishedSet(s) != {};
        w :| w in UnfinishedSet(s);
      } else {
        w := s.caller.m;
      }
      assert WorkerOk(s, w) && WakeOk(s, w);
      a := WorkerStep(w);
    }
  }

  // ----- Runs -----

  predicate StaysPosted(s: State, actions: seq<Action>)
    requires IsRun(s, actions)
    decreases |actions|
  {
    (Posted(s.caller) || DropPosted(s.caller)) &&
    (actions != [] ==>
      !(actions[0].CallerStep? && ReadyToReturn(s)) && StaysPosted(Apply(s, actions[0]), actions[1..]))
  }

  function ProductiveSteps(s: State, actions: seq<Action>): nat
    requires IsRun(s, actions) && s.poolLanes > 0
    decreases |actions|
  {
    if actions == [] then 0
    else
      var t := Apply(s, actions[0]);
      (if Productive(s, actions[0]) then 1 else 0)
      + if t.poolLanes > 0 then ProductiveSteps(t, actions[1..]) else 0
  }

  lemma {:induction false} RunWork(s: State, actions: seq<Action>)
    requires Inv(s) && IsRun(s, actions) && StaysPosted(s, actions)
    ensures After(s, actions).poolLanes > 0
    ensures ProductiveSteps(s, actions) + WorkLeft(After(s, actions)) <= WorkLeft(s)
    decreases |actions|
  {
    if actions != [] {
      StepInv(s, actions[0]);
      StepWork(s, actions[0]);
      RunWork(Apply(s, actions[0]), actions[1..]);
    }
  }

  /** In any interleaving, a posted dispatch (or shutdown) takes at most `WorkLeft`
      productive steps before the caller returns. */
  lemma BoundedWork(s: State, actions: seq<Action>)
    requires Reachable(s) && IsRun(s, actions) && StaysPosted(s, actions)
    ensures s.poolLanes > 0 && ProductiveSteps(s, actions) <= WorkLeft(s)
  {
    ReachableInv(s);
    RunWork(s, actions);
  }

  lemma PostedStays(s: State, a: Action)
    requires Enabled(s, a) && !ReadyToReturn(s) && s.poolLanes > 0
    ensures Posted(s.caller) ==> Posted(Apply(s, a).caller)
    ensures DropPosted(s.caller) ==> DropPosted(Apply(s, a).caller)
  {
  }

  lemma {:induction false} RunToReturn(s: State) returns (actions: seq<Action>)
    requires Inv(s) && (Posted(s.caller) || DropPosted(s.caller))
    ensures IsRun(s, actions) && Inv(After(s, actions)) && ReadyToReturn(After(s, actions))
    ensures forall a :: a in actions ==> a.CallerStep? || a.WorkerStep?
    ensures DropPosted(s.caller) ==> After(s, actions).caller.Dropped?
    ensures Posted(s.caller) ==> After(s, actions).caller.Await?
    decreases WorkLeft(s)
  {
    assert s.poolLanes > 0;
    hide Inv;
    hide WorkLeft;
    hide Apply;
    hide Productive;
    if ReadyToReturn(s) {
      actions := [];
    } else {
      var a := ProductiveStepExists(s);
      StepInv(s, a);
      StepWork(s, a);
      PostedStays(s, a);
      var rest := RunToReturn(Apply(s, a));
      actions := [a] + rest;
      assert actions[1..] == rest;
    }
  }

  /** The protocol never deadlocks: a posted dispatch can always run to its return. */
  lemma DispatchCanReturn(s: State) returns (actions: seq<Action>)
    requires Reachable(s) && Posted(s.caller)
    ensures IsRun(s, actions)
    ensures var t := After(s, actions); t.caller.Await? && t.pending == 0
  {
    ReachableInv(s);
    actions := RunToReturn(s);
  }

  /** After shutdown every worker can reach its exit, and the joins end. */
  lemma ShutdownCanComplete(s: State) returns (actions: seq<Action>)
    requires Reachable(s) && DropPosted(s.caller)
    ensures IsRun(s, actions)
    ensures var t := After(s, actions);
      t.caller.Dropped? && forall w :: 0 <= w < |t.workers| ==> t.workers[w].pc.Exited?
  {
    ReachableInv(s);
    actions := RunToReturn(s);
  }
}
