/** The generation/pending/parked protocol between the dispatching thread and the
    worker threads, as a step system: every shared access is one step, and a run
    interleaves the steps of all threads in any order (sequential consistency). */
module PoolProtocol {
  import opened PoolShard

  /** Where a worker thread stands in its loop; one value per shared access. */
  datatype WorkerPc =
    | Poll
    | Announce
    | Recheck
    | RecheckShutdown
    | ParkCall
    | Parked
    | Unannounce
    | CheckShutdown
    | LoadN
    | LoadLanes
    | LoadData
    | LoadVtable
    | Run
    | Finish
    | Exited

  datatype Worker = Worker(
    pc: WorkerPc,
    lastGen: nat,
    spins: nat,
    n: nat,
    lanes: nat,
    data: nat,
    vtable: nat,
    next: nat,
    token: bool)

  datatype CallerPc =
    | Idle
    | Inline(next: nat)
    | StoreN
    | StoreLanes
    | StoreVtable
    | StoreData
    | StorePending
    | Bump
    | LoadParked
    | Unpark(k: nat)
    | OwnShard(at: nat)
    | Await
    | DropShutdown
    | DropBump
    | DropUnpark(j: nat)
    | Join(m: nat)
    | Dropped

  /** One invocation `f(index)`, made through the two-word pointer `(data, vtable)`.
      The closure of dispatch number `c` has both words equal to `c`. */
  datatype Hit = Hit(data: nat, vtable: nat, index: nat)

  /** `calls[c]` is the job count of dispatch number `c`; the last one may still run. */
  datatype State = State(
    poolLanes: nat,
    budget: nat,
    generation: nat,
    pending: int,
    n: nat,
    lanes: nat,
    data: nat,
    vtable: nat,
    shutdown: bool,
    parked: int,
    caller: CallerPc,
    workers: seq<Worker>,
    calls: seq<nat>,
    log: seq<Hit>)

  datatype Action =
    | Call(jobs: nat)
    | BeginDrop
    | CallerStep
    | WorkerStep(w: nat)
    | Timeout(w: nat)

  // ----- Steps -----

  const FreshWorker := Worker(Poll, 0, 0, 0, 0, 0, 0, 0, false)

  function Init(lanes: nat, budget: nat): State {
    var lanes := if lanes == 0 then 1 else lanes;
    State(lanes, budget, 0, 0, 0, lanes, 0, 0, false, 0, Idle,
          seq(lanes - 1, _ => FreshWorker), [], [])
  }

  predicate Enabled(s: State, a: Action) {
    match a
    case Call(_) => s.caller.Idle?
    case BeginDrop => s.caller.Idle?
    case CallerStep => !s.caller.Idle? && !s.caller.Dropped?
    case WorkerStep(w) =>
      w < |s.workers| && !s.workers[w].pc.Exited? && (s.workers[w].pc.Parked? ==> s.workers[w].token)
    case Timeout(w) => w < |s.workers| && s.workers[w].pc.Parked?
  }

  function Apply(s: State, a: Action): State
    requires Enabled(s, a)
  {
    match a
    case Call(jobs) => ApplyCall(s, jobs)
    case BeginDrop => s.(caller := DropShutdown)
    case CallerStep => ApplyCaller(s)
    case WorkerStep(w) => ApplyWorker(s, w)
    case Timeout(w) => s.(workers := s.workers[w := s.workers[w].(pc := Unannounce)])
  }

  function ApplyCall(s: State, jobs: nat): State {
    if jobs == 0 then s
    else if s.poolLanes <= 1 then s.(calls := s.calls + [jobs], caller := Inline(0))
    else s.(calls := s.calls + [jobs], caller := StoreN)
  }

  /** The number and the job count of the dispatch in progress. */
  function CurrentCall(s: State): nat {
    if s.calls == [] then 0 else |s.calls| - 1
  }

  function CurrentJobs(s: State): nat {
    if s.calls == [] then 0 else s.calls[|s.calls| - 1]
  }

  function OwnStart(s: State): nat {
    if s.poolLanes == 0 then 0 else ShardStart(0, s.poolLanes, CurrentJobs(s))
  }

  function OwnEnd(s: State): nat {
    if s.poolLanes == 0 then 0 else ShardEnd(0, s.poolLanes, CurrentJobs(s))
  }

  function Record(s: State, data: nat, vtable: nat, index: nat): State {
    s.(log := s.log + [Hit(data, vtable, index)])
  }

  function ApplyCaller(s: State): State
    requires !s.caller.Idle? && !s.caller.Dropped?
  {
    var c := CurrentCall(s);
    match s.caller
    case Inline(next) =>
      if next < CurrentJobs(s) then Record(s, c, c, next).(caller := Inline(next + 1))
      else s.(caller := Idle)
    case StoreN => s.(n := CurrentJobs(s), caller := StoreLanes)
    case StoreLanes => s.(lanes := s.poolLanes, caller := StoreVtable)
    case StoreVtable => s.(vtable := c, caller := StoreData)
    case StoreData => s.(data := c, caller := StorePending)
    case StorePending => s.(pending := s.poolLanes - 1, caller := Bump)
    case Bump => s.(generation := s.generation + 1, caller := LoadParked)
    case LoadParked => s.(caller := if s.parked != 0 then Unpark(0) else OwnShard(OwnStart(s)))
    case Unpark(k) =>
      if k < |s.workers| then Wake(s, k).(caller := Unpark(k + 1))
      else s.(caller := OwnShard(OwnStart(s)))
    case OwnShard(at) =>
      if at < OwnEnd(s) then Record(s, c, c, at).(caller := OwnShard(at + 1))
      else s.(caller := Await)
    case Await => if s.pending != 0 then s else s.(caller := Idle)
    case DropShutdown => s.(shutdown := true, caller := DropBump)
    case DropBump => s.(generation := s.generation + 1, caller := DropUnpark(0))
    case DropUnpark(j) =>
      if j < |s.workers| then Wake(s, j).(caller := DropUnpark(j + 1))
      else s.(caller := Join(0))
    case Join(m) =>
      if m < |s.workers| then
        (if s.workers[m].pc.Exited? then s.(caller := Join(m + 1)) else s)
      else s.(caller := Dropped)
  }

  function Wake(s: State, k: nat): State
    requires k < |s.workers|
  {
    s.(workers := s.workers[k := s.workers[k].(token := true)])
  }

  function ApplyWorker(s: State, w: nat): State
    requires w < |s.workers|
  {
    var x := s.workers[w];
    match x.pc
    case Poll =>
      if s.generation != x.lastGen then SetWorker(s, w, x.(lastGen := s.generation, pc := CheckShutdown))
      else SetWorker(s, w, x.(spins := x.spins + 1, pc := if x.spins + 1 < s.budget then Poll else Announce))
    case Announce => SetWorker(s, w, x.(pc := Recheck)).(parked := s.parked + 1)
    case Recheck =>
      SetWorker(s, w, x.(pc := if s.generation == x.lastGen then RecheckShutdown else Unannounce))
    case RecheckShutdown => SetWorker(s, w, x.(pc := if s.shutdown then Unannounce else ParkCall))
    case ParkCall =>
      SetWorker(s, w, if x.token then x.(token := false, pc := Unannounce) else x.(pc := Parked))
    case Parked => if x.token then SetWorker(s, w, x.(token := false, pc := Unannounce)) else s
    case Unannounce => SetWorker(s, w, x.(pc := Poll)).(parked := s.parked - 1)
    case CheckShutdown => SetWorker(s, w, x.(pc := if s.shutdown then Exited else LoadN))
    case LoadN => SetWorker(s, w, x.(n := s.n, pc := LoadLanes))
    case LoadLanes => SetWorker(s, w, x.(lanes := s.lanes, pc := LoadData))
    case LoadData => SetWorker(s, w, x.(data := s.data, pc := LoadVtable))
    case LoadVtable =>
      if w + 1 < x.lanes then
        SetWorker(s, w, x.(vtable := s.vtable, next := ShardStart(w + 1, x.lanes, x.n), pc := Run))
      else SetWorker(s, w, x.(vtable := s.vtable, pc := Finish))
    case Run =>
      if x.lanes > 0 && x.next < ShardEnd(w + 1, x.lanes, x.n) then
        Record(SetWorker(s, w, x.(next := x.next + 1)), x.data, x.vtable, x.next)
      else SetWorker(s, w, x.(pc := Finish))
    case Finish => SetWorker(s, w, x.(pc := Poll, spins := 0)).(pending := s.pending - 1)
    case Exited => s
  }

  function SetWorker(s: State, w: nat, x: Worker): State
    requires w < |s.workers|
  {
    s.(workers := s.workers[w := x])
  }

  // ----- Runs -----

  predicate IsRun(s: State, actions: seq<Action>)
    decreases |actions|
  {
    actions == [] || (Enabled(s, actions[0]) && IsRun(Apply(s, actions[0]), actions[1..]))
  }

  function After(s: State, actions: seq<Action>): State
    requires IsRun(s, actions)
    decreases |actions|
  {
    if actions == [] then s else After(Apply(s, actions[0]), actions[1..])
  }

  ghost predicate Reachable(s: State) {
    exists lanes: nat, budget: nat, actions: seq<Action> ::
      IsRun(Init(lanes, budget), actions) && After(Init(lanes, budget), actions) == s
  }

  // ----- Invariant -----

  predicate Publishing(c: CallerPc) {
    c.StoreN? || c.StoreLanes? || c.StoreVtable? || c.StoreData? || c.StorePending? || c.Bump?
  }

  /** The dispatch in progress has posted its generation and has not returned. */
  predicate Posted(c: CallerPc) {
    c.LoadParked? || c.Unpark? || c.OwnShard? || c.Await?
  }

  predicate DropPosted(c: CallerPc) {
    c.DropUnpark? || c.Join? || c.Dropped?
  }

  predicate Waiting(pc: WorkerPc) {
    pc.Poll? || pc.Announce? || pc.Recheck? || pc.RecheckShutdown? || pc.ParkCall? || pc.Parked? || pc.Unannounce?
  }

  /** The worker has bumped `parked` and not yet taken the bump back. */
  predicate Announced(pc: WorkerPc) {
    pc.Recheck? || pc.RecheckShutdown? || pc.ParkCall? || pc.Parked? || pc.Unannounce?
  }

  /** The worker holds a copy of the job pointer it may call through. */
  predicate HoldsJob(pc: WorkerPc) {
    pc.Run?
  }

  predicate Unfinished(x: Worker, generation: nat) {
    x.lastGen < generation || !Waiting(x.pc)
  }

  predicate CallerOk(s: State) {
    && s.poolLanes > 0
    && |s.workers| == s.poolLanes - 1
    && (forall c :: 0 <= c < |s.calls| ==> s.calls[c] > 0)
    && (Publishing(s.caller) || Posted(s.caller) ==> s.poolLanes > 1 && s.calls != [])
    && (s.caller.Inline? ==> s.poolLanes == 1 && s.calls != [] && s.caller.next <= CurrentJobs(s))
    && s.generation ==
       (if s.poolLanes == 1 then 0 else if Publishing(s.caller) then |s.calls| - 1 else |s.calls|)
       + (if DropPosted(s.caller) then 1 else 0)
    && (s.shutdown <==> s.caller.DropBump? || DropPosted(s.caller))
    && (s.caller.OwnShard? ==> OwnStart(s) <= s.caller.at <= OwnEnd(s))
    && (s.caller.Unpark? ==> s.caller.k <= |s.workers|)
    && (s.caller.DropUnpark? ==> s.caller.j <= |s.workers|)
    && (s.caller.Join? ==> s.caller.m <= |s.workers|)
    && (s.caller.Join? ==> forall v :: 0 <= v < s.caller.m <= |s.workers| ==> s.workers[v].pc.Exited?)
    && (s.caller.Dropped? ==> forall v :: 0 <= v < |s.workers| ==> s.workers[v].pc.Exited?)
  }

  /** The published words, as far as the dispatch has stored them. */
  predicate PublishedOk(s: State) {
    && (s.caller.Bump? || Posted(s.caller) || s.caller.StorePending? || s.caller.StoreData?
        ==> s.vtable == CurrentCall(s))
    && (s.caller.Bump? || Posted(s.caller) || s.caller.StorePending? ==> s.data == CurrentCall(s))
    && ((Publishing(s.caller) && !s.caller.StoreN?) || Posted(s.caller) ==> s.n == CurrentJobs(s))
    && ((Publishing(s.caller) && !s.caller.StoreN? && !s.caller.StoreLanes?) || Posted(s.caller)
        ==> s.lanes == s.poolLanes)
  }

  predicate WorkerOk(s: State, w: nat)
    requires w < |s.workers|
  {
    var x := s.workers[w];
    && (if Waiting(x.pc) then
          x.lastGen == s.generation
          || ((Posted(s.caller) || DropPosted(s.caller)) && x.lastGen + 1 == s.generation)
        else
          x.lastGen == s.generation && (Posted(s.caller) || DropPosted(s.caller)))
    && (DropPosted(s.caller) ==>
          if Waiting(x.pc) then x.lastGen + 1 == s.generation else x.pc.CheckShutdown? || x.pc.Exited?)
    && (x.pc.Exited? ==> DropPosted(s.caller))
    && (x.pc.LoadLanes? || x.pc.LoadData? || x.pc.LoadVtable? || x.pc.Run? ==> x.n == s.n)
    && (x.pc.LoadData? || x.pc.LoadVtable? || x.pc.Run? ==> x.lanes == s.lanes)
    && (x.pc.LoadVtable? || x.pc.Run? ==> x.data == s.data)
    && (x.pc.Run? ==> x.vtable == s.vtable)
    && (x.pc.Run? && s.lanes > 0 ==> ShardStart(w + 1, s.lanes, s.n) <= x.next <= ShardEnd(w + 1, s.lanes, s.n))
  }

  /** The wakeup a blocked worker still has coming to it. */
  predicate WakeAhead(s: State, w: nat) {
    || s.caller.LoadParked?
    || (s.caller.Unpark? && s.caller.k <= w)
    || (s.caller.DropUnpark? && s.caller.j <= w)
  }

  predicate WakeOk(s: State, w: nat)
    requires w < |s.workers|
  {
    var x := s.workers[w];
    (x.pc.RecheckShutdown? || x.pc.ParkCall? || x.pc.Parked?) && x.lastGen != s.generation && !x.token
    ==> WakeAhead(s, w)
  }

  ghost function UnfinishedSet(s: State): set<nat> {
    set w: nat | w < |s.workers| && Unfinished(s.workers[w], s.generation)
  }

  ghost function AnnouncedSet(s: State): set<nat> {
    set w: nat | w < |s.workers| && Announced(s.workers[w].pc)
  }

  ghost predicate CountersOk(s: State) {
    && s.parked == |AnnouncedSet(s)|
    && (s.caller.Bump? ==> s.pending == s.poolLanes - 1)
    && (Posted(s.caller) ==> s.pending == |UnfinishedSet(s)|)
  }

  /** How far worker `w` has come in its shard of the posted dispatch. */
  function Progress(s: State, w: nat): nat
    requires w < |s.workers| && s.poolLanes > 0
  {
    var x := s.workers[w];
    if x.lastGen < s.generation || x.pc.CheckShutdown? || x.pc.LoadN? || x.pc.LoadLanes? || x.pc.LoadData? || x.pc.LoadVtable?
    then ShardStart(w + 1, s.poolLanes, CurrentJobs(s))
    else if x.pc.Run? then x.next
    else ShardEnd(w + 1, s.poolLanes, CurrentJobs(s))
  }

  /** How far lane `lane` has come in its shard of the posted dispatch. */
  function LaneProgress(s: State, lane: nat): nat
    requires lane <= |s.workers| && s.poolLanes > 0
  {
    if lane > 0 then Progress(s, lane - 1)
    else if s.caller.OwnShard? then s.caller.at
    else if s.caller.Await? then OwnEnd(s)
    else OwnStart(s)
  }

  ghost function Hits(s: State, c: nat, i: nat): nat {
    multiset(s.log)[Hit(c, c, i)]
  }

  /** The dispatch numbered `c` has returned. */
  predicate Returned(s: State, c: nat) {
    c < |s.calls| && (c + 1 < |s.calls| || !(Publishing(s.caller) || Posted(s.caller) || s.caller.Inline?))
  }

  ghost predicate LogOk(s: State)
    requires CallerOk(s)
  {
    && (forall h :: h in s.log ==> h.data == h.vtable < |s.calls| && h.index < s.calls[h.data])
    && (forall c: nat, i: nat :: Returned(s, c) && i < s.calls[c] ==> Hits(s, c, i) == 1)
    && (forall i: nat :: Publishing(s.caller) ==> Hits(s, CurrentCall(s), i) == 0)
    && (forall i: nat :: s.caller.Inline? ==>
          Hits(s, CurrentCall(s), i) == if i < s.caller.next then 1 else 0)
    && (forall i: nat, lane: nat ::
          Posted(s.caller) && lane < s.poolLanes && InShard(i, lane, s.poolLanes, CurrentJobs(s)) ==>
          Hits(s, CurrentCall(s), i) == if i < LaneProgress(s, lane) then 1 else 0)
  }

  ghost predicate Inv(s: State) {
    && CallerOk(s)
    && PublishedOk(s)
    && (forall w :: 0 <= w < |s.workers| ==> WorkerOk(s, w))
    && (forall w :: 0 <= w < |s.workers| ==> WakeOk(s, w))
    && CountersOk(s)
    && LogOk(s)
  }
}
