/** The invariant of the pool protocol, and what it gives over all runs. */
module PoolSafety {
  import opened PoolShard
  import opened PoolProtocol

  lemma InitInv(lanes: nat, budget: nat)
    ensures Inv(Init(lanes, budget))
  {
    var s := Init(lanes, budget);
    assert AnnouncedSet(s) == {};
  }

  // ----- Counting -----

  ghost function Below(n: nat): (r: set<nat>)
    ensures |r| == n && forall w: nat :: w in r <==> w < n
  {
    if n == 0 then {} else Below(n - 1) + {n - 1}
  }

  lemma FullSet(s: State)
    requires forall w: nat :: w < |s.workers| ==> Unfinished(s.workers[w], s.generation)
    ensures |UnfinishedSet(s)| == |s.workers|
  {
    assert UnfinishedSet(s) == Below(|s.workers|);
  }

  lemma SameSets(s: State, t: State)
    requires |s.workers| == |t.workers| && s.generation == t.generation
    requires forall w: nat :: w < |s.workers| ==>
      && Announced(s.workers[w].pc) == Announced(t.workers[w].pc)
      && Unfinished(s.workers[w], s.generation) == Unfinished(t.workers[w], t.generation)
    ensures AnnouncedSet(s) == AnnouncedSet(t) && UnfinishedSet(s) == UnfinishedSet(t)
  {
  }

  lemma HitAppended(log: seq<Hit>, h: Hit, c: nat, i: nat)
    ensures multiset(log + [h])[Hit(c, c, i)]
         == multiset(log)[Hit(c, c, i)] + if h == Hit(c, c, i) then 1 else 0
  {
    assert multiset(log + [h]) == multiset(log) + multiset{h};
  }

  /** Outside a posted dispatch the log part only depends on the log itself. */
  lemma IdleLogFrame(s: State, t: State)
    requires CallerOk(s) && CallerOk(t) && LogOk(s)
    requires t.log == s.log && t.calls == s.calls
    requires !Posted(s.caller) && !Posted(t.caller) && !t.caller.Inline? && !s.caller.Inline?
    requires Publishing(t.caller) == Publishing(s.caller)
    ensures LogOk(t)
  {
    forall c: nat, i: nat | Returned(t, c) && i < t.calls[c] ensures Hits(t, c, i) == 1 {
      assert Returned(s, c) && Hits(s, c, i) == 1;
    }
    forall i: nat ensures Hits(t, CurrentCall(t), i) == Hits(s, CurrentCall(s), i) {
    }
  }

  /** One lane runs the next index of its shard. */
  lemma LaneAdvances(s: State, t: State, lane: nat, at: nat)
    requires CallerOk(s) && CallerOk(t) && LogOk(s) && Posted(s.caller) && Posted(t.caller)
    requires t.calls == s.calls && t.poolLanes == s.poolLanes && |t.workers| == |s.workers|
    requires t.log == s.log + [Hit(CurrentCall(s), CurrentCall(s), at)]
    requires lane < s.poolLanes && InShard(at, lane, s.poolLanes, CurrentJobs(s))
    requires LaneProgress(s, lane) == at && LaneProgress(t, lane) == at + 1
    requires forall l: nat :: l < s.poolLanes && l != lane ==> LaneProgress(t, l) == LaneProgress(s, l)
    ensures LogOk(t)
  {
    var c0 := CurrentCall(s);
    ShardWithin(lane, s.poolLanes, CurrentJobs(s));
    forall c: nat, i: nat ensures Hits(t, c, i) == Hits(s, c, i) + if c == c0 && i == at then 1 else 0 {
      HitAppended(s.log, Hit(c0, c0, at), c, i);
    }
    forall c: nat, i: nat | Returned(t, c) && i < t.calls[c] ensures Hits(t, c, i) == 1 {
      assert Returned(s, c) && Hits(s, c, i) == 1;
    }
    forall i: nat, l: nat | l < t.poolLanes && InShard(i, l, t.poolLanes, CurrentJobs(t))
      ensures Hits(t, c0, i) == if i < LaneProgress(t, l) then 1 else 0
    {
      assert Hits(s, c0, i) == if i < LaneProgress(s, l) then 1 else 0;
      if i == at {
        ShardsDisjoint(i, lane, l, s.poolLanes, CurrentJobs(s));
      }
    }
  }

  // ----- The caller's steps -----

  lemma CallInv(s: State, jobs: nat)
    requires Inv(s) && s.caller.Idle?
    ensures Inv(ApplyCall(s, jobs))
  {
    var t := ApplyCall(s, jobs);
    if jobs > 0 {
      SameSets(s, t);
      forall i: nat ensures Hits(t, |s.calls|, i) == 0 {
        if Hit(|s.calls|, |s.calls|, i) in s.log {
          assert false;
        }
      }
      forall w | 0 <= w < |t.workers| ensures WorkerOk(t, w) && WakeOk(t, w) {
        assert WorkerOk(s, w) && WakeOk(s, w);
      }
      forall c: nat, i: nat | Returned(t, c) && i < t.calls[c]
        ensures Hits(t, c, i) == 1
      {
        assert Returned(s, c) && Hits(s, c, i) == 1;
      }
    }
  }

  lemma BeginDropInv(s: State)
    requires Inv(s) && s.caller.Idle?
    ensures Inv(s.(caller := DropShutdown))
  {
    var t := s.(caller := DropShutdown);
    SameSets(s, t);
    forall w | 0 <= w < |t.workers| ensures WorkerOk(t, w) && WakeOk(t, w) {
      assert WorkerOk(s, w) && WakeOk(s, w);
    }
    IdleLogFrame(s, t);
  }

  /** Steps of the caller that leave the workers, the generation and the log alone. */
  lemma QuietWorkers(s: State, t: State)
    requires Inv(s)
    requires t.workers == s.workers && t.generation == s.generation && t.parked == s.parked
    ensures AnnouncedSet(s) == AnnouncedSet(t) && UnfinishedSet(s) == UnfinishedSet(t)
    ensures t.parked == |AnnouncedSet(t)|
  {
    SameSets(s, t);
  }

  lemma PublishParts(s: State)
    requires CallerOk(s) && PublishedOk(s) && CountersOk(s)
    requires s.caller.StoreN? || s.caller.StoreLanes? || s.caller.StoreVtable? || s.caller.StoreData? || s.caller.StorePending?
    ensures CallerOk(ApplyCaller(s)) && PublishedOk(ApplyCaller(s)) && CountersOk(ApplyCaller(s))
    ensures ApplyCaller(s).log == s.log && ApplyCaller(s).calls == s.calls
  {
    SameSets(s, ApplyCaller(s));
  }

  lemma PublishInv(s: State)
    requires Inv(s)
    requires s.caller.StoreN? || s.caller.StoreLanes? || s.caller.StoreVtable? || s.caller.StoreData? || s.caller.StorePending?
    ensures Inv(ApplyCaller(s))
  {
    var t := ApplyCaller(s);
    PublishParts(s);
    forall w | 0 <= w < |t.workers| ensures WorkerOk(t, w) && WakeOk(t, w) {
      assert WorkerOk(s, w) && WakeOk(s, w);
    }
    IdleLogFrame(s, t);
  }

  lemma BumpInv(s: State)
    requires Inv(s) && s.caller.Bump?
    ensures Inv(ApplyCaller(s))
  {
    var t := ApplyCaller(s);
    assert AnnouncedSet(s) == AnnouncedSet(t);
    forall w | 0 <= w < |t.workers|
      ensures WorkerOk(t, w) && WakeOk(t, w) && Unfinished(t.workers[w], t.generation)
    {
      assert WorkerOk(s, w) && WakeOk(s, w);
    }
    FullSet(t);
    forall c: nat, i: nat | Returned(t, c) && i < t.calls[c] ensures Hits(t, c, i) == 1 {
      assert Returned(s, c) && Hits(s, c, i) == 1;
    }
    forall i: nat, lane: nat | lane < t.poolLanes && InShard(i, lane, t.poolLanes, CurrentJobs(t))
      ensures Hits(t, CurrentCall(t), i) == if i < LaneProgress(t, lane) then 1 else 0
    {
      assert Hits(s, CurrentCall(s), i) == 0;
      if lane > 0 {
        assert WorkerOk(t, lane - 1) && WorkerOk(s, lane - 1);
      }
    }
  }

  lemma PostedLogFrame(s: State, t: State)
    requires Inv(s) && Posted(s.caller) && Posted(t.caller) && CallerOk(t)
    requires t.log == s.log && t.calls == s.calls && t.poolLanes == s.poolLanes && |t.workers| == |s.workers|
    requires forall lane: nat :: lane < s.poolLanes ==> LaneProgress(t, lane) == LaneProgress(s, lane)
    ensures LogOk(t)
  {
    forall c: nat, i: nat | Returned(t, c) && i < t.calls[c] ensures Hits(t, c, i) == 1 {
      assert Returned(s, c) && Hits(s, c, i) == 1;
    }
    forall i: nat, lane: nat | lane < t.poolLanes && InShard(i, lane, t.poolLanes, CurrentJobs(t))
      ensures Hits(t, CurrentCall(t), i) == if i < LaneProgress(t, lane) then 1 else 0
    {
      assert Hits(s, CurrentCall(s), i) == if i < LaneProgress(s, lane) then 1 else 0;
    }
  }

  lemma LoadParkedInv(s: State)
    requires Inv(s) && s.caller.LoadParked?
    ensures Inv(ApplyCaller(s))
  {
    var t := ApplyCaller(s);
    QuietWorkers(s, t);
    forall w | 0 <= w < |t.workers| ensures WorkerOk(t, w) && WakeOk(t, w) {
      assert WorkerOk(s, w) && WakeOk(s, w);
      // Reading 0 means that no worker has announced a park.
      if s.parked == 0 {
        assert AnnouncedSet(s) == {};
        assert w !in AnnouncedSet(s);
      }
    }
    PostedLogFrame(s, t);
  }

  lemma UnparkInv(s: State)
    requires Inv(s) && s.caller.Unpark?
    ensures Inv(ApplyCaller(s))
  {
    var t := ApplyCaller(s);
    SameSets(s, t);
    forall w | 0 <= w < |t.workers| ensures WorkerOk(t, w) && WakeOk(t, w) {
      assert WorkerOk(s, w) && WakeOk(s, w);
    }
    PostedLogFrame(s, t);
  }

  lemma OwnShardInv(s: State)
    requires Inv(s) && s.caller.OwnShard?
    ensures Inv(ApplyCaller(s))
  {
    var t := ApplyCaller(s);
    QuietWorkers(s, t);
    forall w | 0 <= w < |t.workers| ensures WorkerOk(t, w) && WakeOk(t, w) {
      assert WorkerOk(s, w) && WakeOk(s, w);
    }
    if s.caller.at < OwnEnd(s) {
      ShardWithin(0, s.poolLanes, CurrentJobs(s));
      LaneAdvances(s, t, 0, s.caller.at);
    } else {
      PostedLogFrame(s, t);
    }
  }

  /** The dispatch returns only with every shard finished. */
  lemma ReturnInv(s: State)
    requires Inv(s) && s.caller.Await? && s.pending == 0
    ensures Inv(ApplyCaller(s))
  {
    var t := ApplyCaller(s);
    var c0 := CurrentCall(s);
    QuietWorkers(s, t);
    forall w | 0 <= w < |t.workers|
      ensures WorkerOk(t, w) && WakeOk(t, w) && !Unfinished(s.workers[w], s.generation)
    {
      assert WorkerOk(s, w) && WakeOk(s, w);
      assert UnfinishedSet(s) == {};
      assert w !in UnfinishedSet(s);
    }
    forall c: nat, i: nat | Returned(t, c) && i < t.calls[c] ensures Hits(t, c, i) == 1 {
      if c < c0 {
        assert Returned(s, c) && Hits(s, c, i) == 1;
      } else {
        var lane := FindOwner(i, s.poolLanes, CurrentJobs(s));
        assert Hits(s, c0, i) == if i < LaneProgress(s, lane) then 1 else 0;
        if lane > 0 {
          assert WorkerOk(s, lane - 1);
        }
      }
    }
  }

  lemma InlineInv(s: State)
    requires Inv(s) && s.caller.Inline?
    ensures Inv(ApplyCaller(s))
  {
    var t := ApplyCaller(s);
    var c0 := CurrentCall(s);
    var next := s.caller.next;
    QuietWorkers(s, t);
    if next < CurrentJobs(s) {
      forall c: nat, i: nat ensures Hits(t, c, i) == Hits(s, c, i) + if c == c0 && i == next then 1 else 0 {
        HitAppended(s.log, Hit(c0, c0, next), c, i);
      }
    }
    forall c: nat, i: nat | Returned(t, c) && i < t.calls[c] ensures Hits(t, c, i) == 1 {
      if c < c0 {
        assert Returned(s, c) && Hits(s, c, i) == 1;
      } else {
        assert Hits(s, c0, i) == if i < next then 1 else 0;
      }
    }
    forall i: nat | t.caller.Inline? ensures Hits(t, c0, i) == if i < t.caller.next then 1 else 0 {
      assert Hits(s, c0, i) == if i < next then 1 else 0;
    }
  }

  lemma DropParts(s: State)
    requires CallerOk(s) && CountersOk(s)
    requires s.caller.DropShutdown? || s.caller.DropBump? || s.caller.DropUnpark? || s.caller.Join?
    ensures CallerOk(ApplyCaller(s)) && CountersOk(ApplyCaller(s))
    ensures ApplyCaller(s).log == s.log && ApplyCaller(s).calls == s.calls
  {
    assert AnnouncedSet(s) == AnnouncedSet(ApplyCaller(s));
  }

  lemma DropInv(s: State)
    requires Inv(s)
    requires s.caller.DropShutdown? || s.caller.DropBump? || s.caller.DropUnpark? || s.caller.Join?
    ensures Inv(ApplyCaller(s))
  {
    var t := ApplyCaller(s);
    DropParts(s);
    forall w | 0 <= w < |t.workers| ensures WorkerOk(t, w) && WakeOk(t, w) {
      assert WorkerOk(s, w) && WakeOk(s, w);
    }
    IdleLogFrame(s, t);
  }

  lemma CallerInv(s: State)
    requires Inv(s) && Enabled(s, CallerStep)
    ensures Inv(ApplyCaller(s))
  {
    match s.caller
    case Inline(_) => InlineInv(s);
    case Bump => BumpInv(s);
    case LoadParked => LoadParkedInv(s);
    case Unpark(_) => UnparkInv(s);
    case OwnShard(_) => OwnShardInv(s);
    case Await => if s.pending == 0 { ReturnInv(s); }
    case StoreN => PublishInv(s);
    case StoreLanes => PublishInv(s);
    case StoreVtable => PublishInv(s);
    case StoreData => PublishInv(s);
    case StorePending => PublishInv(s);
    case DropShutdown => DropInv(s);
    case DropBump => DropInv(s);
    case DropUnpark(_) => DropInv(s);
    case Join(_) => DropInv(s);
  }

  // ----- The workers' steps -----

  /** A step of one worker moves only its own membership in the counted sets. */
  lemma OneWorkerSets(s: State, t: State, w: nat)
    requires w < |s.workers| && |t.workers| == |s.workers| && t.generation == s.generation
    requires forall v: nat :: v < |s.workers| && v != w ==> t.workers[v] == s.workers[v]
    ensures |AnnouncedSet(t)| == |AnnouncedSet(s)|
      + (if Announced(t.workers[w].pc) then 1 else 0) - (if Announced(s.workers[w].pc) then 1 else 0)
    ensures |UnfinishedSet(t)| == |UnfinishedSet(s)|
      + (if Unfinished(t.workers[w], t.generation) then 1 else 0)
      - (if Unfinished(s.workers[w], s.generation) then 1 else 0)
  {
    SetMoved(AnnouncedSet(s), AnnouncedSet(t), w);
    SetMoved(UnfinishedSet(s), UnfinishedSet(t), w);
  }

  lemma SetMoved(a: set<nat>, b: set<nat>, w: nat)
    requires forall v: nat :: v != w ==> (v in a <==> v in b)
    ensures |b| == |a| + (if w in b then 1 else 0) - (if w in a then 1 else 0)
  {
    assert a - {w} == b - {w};
    assert a == if w in a then (a - {w}) + {w} else a - {w};
    assert b == if w in b then (b - {w}) + {w} else b - {w};
  }

  lemma WorkersKept(s: State, t: State, w: nat)
    requires Inv(s) && w < |s.workers| && |t.workers| == |s.workers|
    requires t == s.(workers := t.workers, log := t.log, parked := t.parked, pending := t.pending)
    requires forall v: nat :: v < |s.workers| && v != w ==> t.workers[v] == s.workers[v]
    requires !s.workers[w].pc.Exited? && WorkerOk(t, w) && WakeOk(t, w)
    ensures CallerOk(t) && PublishedOk(t)
    ensures forall v :: 0 <= v < |t.workers| ==> WorkerOk(t, v)
    ensures forall v :: 0 <= v < |t.workers| ==> WakeOk(t, v)
  {
    forall v | 0 <= v < |t.workers| ensures WorkerOk(t, v) && WakeOk(t, v) {
      assert WorkerOk(s, v) && WakeOk(s, v);
    }
  }

  /** A worker's step that leaves the log and its shard progress alone keeps `LogOk`. */
  lemma WorkerLogFrame(s: State, t: State, w: nat)
    requires Inv(s) && w < |s.workers| && |t.workers| == |s.workers|
    requires t == s.(workers := t.workers, parked := t.parked, pending := t.pending)
    requires forall v: nat :: v < |s.workers| && v != w ==> t.workers[v] == s.workers[v]
    requires Posted(s.caller) ==> Progress(t, w) == Progress(s, w)
    requires CallerOk(t)
    ensures LogOk(t)
  {
    if Posted(s.caller) {
      PostedLogFrame(s, t);
    } else {
      forall c: nat, i: nat | Returned(t, c) && i < t.calls[c] ensures Hits(t, c, i) == 1 {
        assert Returned(s, c) && Hits(s, c, i) == 1;
      }
      forall i: nat ensures Hits(t, CurrentCall(t), i) == Hits(s, CurrentCall(s), i) {
      }
    }
  }

  lemma WorkerRunLog(s: State, t: State, w: nat)
    requires CallerOk(s) && PublishedOk(s) && LogOk(s)
    requires Posted(s.caller) && w < |s.workers| && s.workers[w].pc.Run? && WorkerOk(s, w)
    requires s.workers[w].next < ShardEnd(w + 1, s.poolLanes, CurrentJobs(s))
    requires t == Record(SetWorker(s, w, s.workers[w].(next := s.workers[w].next + 1)),
                         CurrentCall(s), CurrentCall(s), s.workers[w].next)
    requires CallerOk(t)
    ensures LogOk(t)
  {
    ShardWithin(w + 1, s.poolLanes, CurrentJobs(s));
    assert InShard(s.workers[w].next, w + 1, s.poolLanes, CurrentJobs(s));
    LaneAdvances(s, t, w + 1, s.workers[w].next);
  }

  /** A worker's step writes its own locals, the counters and the log, nothing else. */
  lemma WorkerStepShape(s: State, w: nat)
    requires w < |s.workers|
    ensures var t := ApplyWorker(s, w);
      && |t.workers| == |s.workers|
      && t.workers == s.workers[w := t.workers[w]]
      && t == s.(workers := t.workers, log := t.log, parked := t.parked, pending := t.pending)
  {
    assert s.workers == s.workers[w := s.workers[w]];
  }

  /** The stepping worker's own part of the invariant. */
  lemma WorkerStepOk(s: State, w: nat)
    requires CallerOk(s) && PublishedOk(s) && Enabled(s, WorkerStep(w))
    requires WorkerOk(s, w) && WakeOk(s, w)
    ensures WorkerOk(ApplyWorker(s, w), w) && WakeOk(ApplyWorker(s, w), w)
  {
    var t := ApplyWorker(s, w);
    var x := s.workers[w];
    WorkerStepShape(s, w);
    if x.pc.LoadVtable? {
      ShardsAdjoin(w + 1, s.poolLanes, CurrentJobs(s));
    }
  }

  lemma WorkerStepCounters(s: State, w: nat)
    requires CallerOk(s) && CountersOk(s) && Enabled(s, WorkerStep(w)) && WorkerOk(s, w)
    ensures CountersOk(ApplyWorker(s, w))
  {
    WorkerStepShape(s, w);
    OneWorkerSets(s, ApplyWorker(s, w), w);
  }

  lemma WorkerStepProgress(s: State, w: nat)
    requires CallerOk(s) && PublishedOk(s) && Enabled(s, WorkerStep(w)) && WorkerOk(s, w)
    requires Posted(s.caller)
    requires s.workers[w].pc.Run? ==> s.workers[w].next >= ShardEnd(w + 1, s.poolLanes, CurrentJobs(s))
    ensures Progress(ApplyWorker(s, w), w) == Progress(s, w)
  {
    match s.workers[w].pc
    case LoadVtable =>
      ShardsAdjoin(w + 1, s.poolLanes, CurrentJobs(s));
    case _ =>
  }

  lemma WorkerStepLog(s: State, w: nat)
    requires Inv(s) && Enabled(s, WorkerStep(w)) && CallerOk(ApplyWorker(s, w))
    ensures LogOk(ApplyWorker(s, w))
  {
    hide ApplyWorker;
    hide LogOk;
    hide WakeOk;
    hide CountersOk;
    var t := ApplyWorker(s, w);
    assert WorkerOk(s, w);
    WorkerStepShape(s, w);
    if s.workers[w].pc.Run? && s.workers[w].next < ShardEnd(w + 1, s.poolLanes, CurrentJobs(s)) {
      RunStepIs(s, w);
      WorkerRunLog(s, t, w);
    } else {
      if Posted(s.caller) {
        WorkerStepProgress(s, w);
      }
      OtherStepLog(s, w);
      WorkerLogFrame(s, t, w);
    }
  }

  /** A step inside a shard runs the next index with the current dispatch's closure. */
  lemma RunStepIs(s: State, w: nat)
    requires CallerOk(s) && PublishedOk(s) && w < |s.workers| && WorkerOk(s, w)
    requires s.workers[w].pc.Run? && s.workers[w].next < ShardEnd(w + 1, s.poolLanes, CurrentJobs(s))
    ensures Posted(s.caller)
    ensures ApplyWorker(s, w) == Record(SetWorker(s, w, s.workers[w].(next := s.workers[w].next + 1)),
                                        CurrentCall(s), CurrentCall(s), s.workers[w].next)
  {
  }

  lemma OtherStepLog(s: State, w: nat)
    requires CallerOk(s) && PublishedOk(s) && w < |s.workers| && WorkerOk(s, w)
    requires !(s.workers[w].pc.Run? && s.workers[w].next < ShardEnd(w + 1, s.poolLanes, CurrentJobs(s)))
    ensures ApplyWorker(s, w).log == s.log
  {
  }

  lemma WorkerInv(s: State, w: nat)
    requires Inv(s) && Enabled(s, WorkerStep(w))
    ensures Inv(ApplyWorker(s, w))
  {
    var t := ApplyWorker(s, w);
    assert WorkerOk(s, w) && WakeOk(s, w);
    WorkerStepShape(s, w);
    WorkerStepOk(s, w);
    WorkersKept(s, t, w);
    WorkerStepCounters(s, w);
    WorkerStepLog(s, w);
  }

  lemma TimeoutInv(s: State, w: nat)
    requires Inv(s) && Enabled(s, Timeout(w))
    ensures Inv(Apply(s, Timeout(w)))
  {
    var t := Apply(s, Timeout(w));
    assert WorkerOk(s, w);
    OneWorkerSets(s, t, w);
    WorkersKept(s, t, w);
    WorkerLogFrame(s, t, w);
  }

  // ----- All runs -----

  lemma StepInv(s: State, a: Action)
    requires Inv(s) && Enabled(s, a)
    ensures Inv(Apply(s, a))
  {
    match a
    case Call(jobs) => CallInv(s, jobs);
    case BeginDrop => BeginDropInv(s);
    case CallerStep => CallerInv(s);
    case WorkerStep(w) => WorkerInv(s, w);
    case Timeout(w) => TimeoutInv(s, w);
  }

  lemma {:induction false} RunInv(s: State, actions: seq<Action>)
    requires Inv(s) && IsRun(s, actions)
    ensures Inv(After(s, actions))
    decreases |actions|
  {
    if actions != [] {
      StepInv(s, actions[0]);
      RunInv(Apply(s, actions[0]), actions[1..]);
    }
  }

  lemma ReachableInv(s: State)
    requires Reachable(s)
    ensures Inv(s)
  {
    var lanes: nat, budget: nat, actions :|
      IsRun(Init(lanes, budget), actions) && After(Init(lanes, budget), actions) == s;
    InitInv(lanes, budget);
    RunInv(Init(lanes, budget), actions);
  }

  // ----- Main results -----

  /** When `dispatch` returns, every index below its job count has been run exactly
      once, with that dispatch's own closure, and no other index has been run. The
      same holds, ever after, of every dispatch that has returned. */
  lemma DispatchRunsEachIndexOnce(s: State, c: nat)
    requires Reachable(s) && Returned(s, c)
    ensures forall i: nat :: Hits(s, c, i) == if i < s.calls[c] then 1 else 0
    ensures forall h :: h in s.log && (h.data == c || h.vtable == c) ==> h.data == h.vtable == c && h.index < s.calls[c]
  {
    ReachableInv(s);
    forall i: nat ensures Hits(s, c, i) == if i < s.calls[c] then 1 else 0 {
      if i >= s.calls[c] {
        assert Hit(c, c, i) !in s.log;
      }
    }
  }

  /** While a worker may call through its job pointer, the dispatch that owns the
      closure is still inside `dispatch`, and the worker's copies of the pointer,
      the job count and the lane count are that dispatch's. */
  lemma ClosureOutlivesWorkers(s: State, w: nat)
    requires Reachable(s) && w < |s.workers| && HoldsJob(s.workers[w].pc)
    ensures Posted(s.caller) && s.calls != []
    ensures s.workers[w].data == s.workers[w].vtable == CurrentCall(s)
    ensures s.workers[w].n == CurrentJobs(s) && s.workers[w].lanes == s.poolLanes
    ensures s.workers[w].lastGen == s.generation
  {
    ReachableInv(s);
    assert WorkerOk(s, w);
  }

  /** No worker is ever more than one generation behind, and none is behind when
      the caller posts the next one: no generation is skipped. */
  lemma NoGenerationSkipped(s: State, w: nat)
    requires Reachable(s) && w < |s.workers|
    ensures s.generation - 1 <= s.workers[w].lastGen <= s.generation
    ensures s.caller.Idle? || s.caller.Bump? || s.caller.DropBump? ==>
      s.workers[w].lastGen == s.generation && Waiting(s.workers[w].pc)
  {
    ReachableInv(s);
    assert WorkerOk(s, w);
  }

  /** A worker blocked in `park` without a token, with a new generation to run,
      still has an `unpark` coming from the caller. */
  lemma NoLostWakeup(s: State, w: nat)
    requires Reachable(s) && w < |s.workers|
    requires s.workers[w].pc.Parked? && !s.workers[w].token && s.workers[w].lastGen != s.generation
    ensures (s.caller.LoadParked? && s.parked != 0)
         || (s.caller.Unpark? && s.caller.k <= w)
         || (s.caller.DropUnpark? && s.caller.j <= w)
  {
    ReachableInv(s);
    assert WakeOk(s, w);
    assert w in AnnouncedSet(s);
  }
}
