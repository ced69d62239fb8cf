/** When the rollback store keeps `used` accurate, as its comment says it should. */
module ArenaAccuracy {
  import opened Arena
  import opened Sums

  // ----- One thread -----

  ghost predicate LoneInv(s: State) {
    && |s.threads| == 1 && s.capacity < WIDTH - 1
    && GrantedBytes(s.grants) <= s.capacity
    && (match s.threads[0].phase
        case Ready => s.used == GrantedBytes(s.grants)
        case Overshot(offset) => offset == GrantedBytes(s.grants))
  }

  lemma LoneStep(s: State)
    requires LoneInv(s) && Enabled(s, 0)
    ensures LoneInv(Step(s, 0))
  {
    var t := Step(s, 0);
    if t.grants != s.grants {
      assert t.grants[..|t.grants| - 1] == s.grants;
    }
  }

  lemma {:induction false} LoneRun(s: State, schedule: seq<nat>)
    requires LoneInv(s) && IsRun(s, schedule)
    ensures LoneInv(After(s, schedule))
    decreases |schedule|
  {
    if schedule != [] {
      LoneStep(s);
      LoneRun(Step(s, schedule[0]), schedule[1..]);
    }
  }

  /** With one thread, between calls `used` is always the sum of the grants, for any
      lengths at all: a wrapped counter is put back before anyone reads it. */
  lemma LoneThreadIsAccurate(capacity: nat, program: seq<nat>, schedule: seq<nat>)
    requires capacity < WIDTH - 1 && IsRun(Init(capacity, [program]), schedule)
    ensures var s := After(Init(capacity, [program]), schedule);
      Quiet(s) ==> s.used == GrantedBytes(s.grants) <= capacity
  {
    LoneRun(Init(capacity, [program]), schedule);
    CapacityKept(Init(capacity, [program]), schedule);
  }

  // ----- Any number of threads, any number of calls each -----

  /** Bytes granted to a thread that makes these calls on its own. */
  function Solo(capacity: nat, program: seq<nat>): (granted: nat)
    ensures granted <= capacity
  {
    if program == [] then 0
    else
      var n := |program| - 1;
      var before := Solo(capacity, program[..n]);
      if before + program[n] <= capacity then before + program[n] else before
  }

  /** Everything the programs ask for. */
  function Asked(programs: seq<seq<nat>>): nat {
    Pending(Init(0, programs).threads)
  }

  /** Whichever thread's last call is left out, its other calls on their own and all the other
      threads' calls fit together. */
  predicate OthersFit(capacity: nat, programs: seq<seq<nat>>) {
    forall p: nat :: p < |programs| && programs[p] != [] ==> OthersFitWith(capacity, programs, p)
  }

  predicate OthersFitWith(capacity: nat, programs: seq<seq<nat>>, p: nat)
    requires p < |programs| && programs[p] != []
  {
    Solo(capacity, programs[p][..|programs[p]| - 1]) + (Asked(programs) - Sum(programs[p])) <= capacity
  }

  /** Every complete interleaving leaves `used` at the bytes granted. */
  ghost predicate AlwaysAccurate(capacity: nat, programs: seq<seq<nat>>) {
    forall schedule :: IsRun(Init(capacity, programs), schedule) && Finished(After(Init(capacity, programs), schedule)) ==>
      var s := After(Init(capacity, programs), schedule);
      s.used == GrantedBytes(s.grants)
  }

  lemma BytesAppended(grants: seq<Grant>, g: Grant)
    ensures GrantedBytes(grants + [g]) == GrantedBytes(grants) + g.len
  {
    assert (grants + [g])[..|grants|] == grants;
  }

  lemma CallParts(todo: seq<nat>)
    requires todo != []
    ensures Sum(todo) == todo[0] + Sum(todo[1..])
  {
  }

  /** Two threads' calls are both pending. */
  lemma PendingTwo(threads: seq<Thread>, t: nat, u: nat)
    requires t < |threads| && u < |threads| && t != u
    ensures Sum(threads[t].todo) + Sum(threads[u].todo) <= Pending(threads)
  {
    var rest := threads[t := Thread([], Ready)];
    PendingUpdate(threads, t, Thread([], Ready));
    PendingCovers(rest, u);
  }

  /** Alone, a thread is granted at least any prefix of its calls that fits. */
  lemma {:induction false} SoloCovers(capacity: nat, program: seq<nat>, k: nat)
    requires k <= |program| && Sum(program[..k]) <= capacity
    ensures Sum(program[..k]) <= Solo(capacity, program)
    ensures k == |program| ==> Solo(capacity, program) == Sum(program)
  {
    if program != [] {
      var n := |program| - 1;
      assert program == program[..n] + [program[n]];
      if k == |program| {
        assert program[..k] == program;
        SumAppend(program[..n], [program[n]]);
        assert program[..n][..n] == program[..n];
        SoloCovers(capacity, program[..n], n);
      } else {
        assert program[..n][..k] == program[..k];
        SoloCovers(capacity, program[..n], k);
      }
    } else {
      assert program[..k] == [];
    }
  }

  // ----- Accurate when the others fit -----

  /** Each thread still has a suffix of its program to run. */
  predicate Suffixes(s: State, programs: seq<seq<nat>>) {
    |s.threads| == |programs| && forall t: nat :: t < |programs| ==> SuffixOf(s.threads[t].todo, programs[t])
  }

  predicate SuffixOf(todo: seq<nat>, program: seq<nat>) {
    |todo| <= |program| && todo == program[|program| - |todo|..]
  }

  /** Before any refusal: the counter plus what is still to come is everything asked for. */
  ghost predicate Counting(s: State, programs: seq<seq<nat>>) {
    && Suffixes(s, programs) && Quiet(s) && s.used == GrantedBytes(s.grants) <= s.capacity
    && s.used + Pending(s.threads) == Asked(programs)
  }

  /** Only thread `o` has anything left to do. */
  ghost predicate Alone(s: State, o: nat) {
    && o < |s.threads| && GrantedBytes(s.grants) <= s.capacity
    && (forall t :: 0 <= t < |s.threads| && t != o ==> s.threads[t] == Thread([], Ready))
    && (match s.threads[o].phase
        case Ready => s.used == GrantedBytes(s.grants)
        case Overshot(offset) => offset == GrantedBytes(s.grants))
  }

  /** A call that fits. */
  lemma CountingGrant(s: State, programs: seq<seq<nat>>, t: nat)
    requires Counting(s, programs) && Enabled(s, t) && s.capacity < WIDTH - 1
    requires s.used + s.threads[t].todo[0] <= s.capacity
    ensures Counting(Step(s, t), programs) && Step(s, t).capacity == s.capacity
  {
    hide Suffixes;
    hide Step;
    hide GrantedBytes;
    hide Sum;
    hide Pending;
    hide Asked;
    CallParts(s.threads[t].todo);
    PendingUpdate(s.threads, t, Thread(s.threads[t].todo[1..], Ready));
    GrantStep(s, t);
    SuffixesKept(s, Step(s, t), programs, t);
  }

  /** A reservation that fits, spelled out. */
  lemma GrantStep(s: State, t: nat)
    requires Enabled(s, t) && s.threads[t].phase.Ready? && s.capacity < WIDTH - 1
    requires s.used + s.threads[t].todo[0] <= s.capacity
    ensures
      var todo := s.threads[t].todo;
      Step(s, t) == State(s.capacity, s.used + todo[0], s.threads[t := Thread(todo[1..], Ready)],
                          s.grants + [Grant(s.used, todo[0])])
    ensures GrantedBytes(Step(s, t).grants) == GrantedBytes(s.grants) + s.threads[t].todo[0]
  {
    var todo := s.threads[t].todo;
    BytesAppended(s.grants, Grant(s.used, todo[0]));
    assert (s.used + todo[0]) % WIDTH == s.used + todo[0];
  }

  lemma SuffixesKept(s: State, r: State, programs: seq<seq<nat>>, t: nat)
    requires Suffixes(s, programs) && t < |s.threads| && s.threads[t].todo != []
    requires r.threads == s.threads[t := Thread(s.threads[t].todo[1..], Ready)]
    ensures Suffixes(r, programs)
  {
    forall u: nat | u < |programs| ensures SuffixOf(r.threads[u].todo, programs[u]) {
      assert SuffixOf(s.threads[u].todo, programs[u]);
    }
  }

  /** The first refusal finds no other thread with a call left. */
  lemma CountingRefusal(s: State, programs: seq<seq<nat>>, t: nat)
    requires Counting(s, programs) && Enabled(s, t) && s.capacity < WIDTH - 1 && OthersFit(s.capacity, programs)
    requires s.used + s.threads[t].todo[0] > s.capacity
    ensures Alone(Step(s, t), t) && Step(s, t).capacity == s.capacity
  {
    CallParts(s.threads[t].todo);
    forall u: nat | u < |s.threads| && u != t ensures s.threads[u].todo == [] {
      if s.threads[u].todo != [] {
        PendingTwo(s.threads, t, u);
        CallsMade(s, programs, u);
        FitsWith(s.capacity, programs, u);
        assert false;
      }
    }
  }

  lemma FitsWith(capacity: nat, programs: seq<seq<nat>>, p: nat)
    requires OthersFit(capacity, programs) && p < |programs| && programs[p] != []
    ensures Solo(capacity, programs[p][..|programs[p]| - 1]) + (Asked(programs) - Sum(programs[p])) <= capacity
  {
    assert OthersFitWith(capacity, programs, p);
  }

  /** What a thread with a call left has been granted it would have been granted alone. */
  lemma CallsMade(s: State, programs: seq<seq<nat>>, u: nat)
    requires Counting(s, programs) && u < |programs| && s.threads[u].todo != []
    ensures programs[u] != []
    ensures Sum(programs[u]) - Sum(s.threads[u].todo) <= Solo(s.capacity, programs[u][..|programs[u]| - 1])
  {
    var program, todo := programs[u], s.threads[u].todo;
    assert SuffixOf(todo, program);
    var k, n := |program| - |todo|, |program| - 1;
    assert program == program[..k] + todo;
    SumAppend(program[..k], todo);
    AskedCovers(s, programs, u);
    assert program[..n][..k] == program[..k];
    SoloCovers(s.capacity, program[..n], k);
  }

  /** A thread has been granted no more than all of them together. */
  lemma AskedCovers(s: State, programs: seq<seq<nat>>, u: nat)
    requires Suffixes(s, programs) && u < |programs|
    ensures Sum(programs[u]) - Sum(s.threads[u].todo) <= Asked(programs) - Pending(s.threads)
  {
    LeftOver(s.threads, Init(0, programs).threads, u) by {
      forall t: nat | t < |programs| ensures Sum(s.threads[t].todo) <= Sum(programs[t]) {
        assert SuffixOf(s.threads[t].todo, programs[t]);
        var k := |programs[t]| - |s.threads[t].todo|;
        assert programs[t] == programs[t][..k] + s.threads[t].todo;
        SumAppend(programs[t][..k], s.threads[t].todo);
      }
    }
  }

  lemma {:induction false} LeftOver(left: seq<Thread>, all: seq<Thread>, u: nat)
    requires |left| == |all| && u < |all|
    requires forall t: nat :: t < |all| ==> Sum(left[t].todo) <= Sum(all[t].todo)
    ensures Sum(all[u].todo) - Sum(left[u].todo) <= Pending(all) - Pending(left)
  {
    if u == 0 {
      NoMoreLeft(left[1..], all[1..]);
    } else {
      LeftOver(left[1..], all[1..], u - 1);
    }
  }

  lemma {:induction false} NoMoreLeft(left: seq<Thread>, all: seq<Thread>)
    requires |left| == |all| && forall t: nat :: t < |all| ==> Sum(left[t].todo) <= Sum(all[t].todo)
    ensures Pending(left) <= Pending(all)
  {
    if all != [] {
      NoMoreLeft(left[1..], all[1..]);
    }
  }

  lemma AloneStep(s: State, o: nat, t: nat)
    requires Alone(s, o) && Enabled(s, t) && s.capacity < WIDTH - 1
    ensures t == o && Alone(Step(s, t), o) && Step(s, t).capacity == s.capacity
  {
    var x := s.threads[o];
    if t != o {
      assert false;
    } else if x.phase.Overshot? {
      assert Step(s, o) == s.(used := x.phase.offset, threads := s.threads[o := Thread(x.todo, Ready)]);
    } else if s.used + x.todo[0] <= s.capacity {
      AloneGrant(s, o);
    } else {
      var used := (s.used + x.todo[0]) % WIDTH;
      assert Step(s, o) == s.(used := used, threads := s.threads[o := Thread(x.todo[1..], Overshot(s.used))]);
    }
  }

  lemma AloneGrant(s: State, o: nat)
    requires Alone(s, o) && Enabled(s, o) && s.capacity < WIDTH - 1 && s.threads[o].phase.Ready?
    requires s.used + s.threads[o].todo[0] <= s.capacity
    ensures Alone(Step(s, o), o) && Step(s, o).capacity == s.capacity
  {
    hide Step;
    hide GrantedBytes;
    hide Sum;
    hide Pending;
    GrantStep(s, o);
  }

  ghost predicate Accurate(s: State, programs: seq<seq<nat>>) {
    Counting(s, programs) || exists o: nat :: Alone(s, o)
  }

  lemma {:induction false} AccurateRun(s: State, programs: seq<seq<nat>>, schedule: seq<nat>)
    requires Accurate(s, programs) && IsRun(s, schedule) && s.capacity < WIDTH - 1 && OthersFit(s.capacity, programs)
    ensures Accurate(After(s, schedule), programs)
    decreases |schedule|
  {
    hide Step;
    hide Counting;
    hide Alone;
    hide OthersFit;
    if schedule != [] {
      var t := schedule[0];
      if Counting(s, programs) {
        CountingStep(s, programs, t);
      } else {
        var o: nat :| Alone(s, o);
        AloneStep(s, o, t);
      }
      AccurateRun(Step(s, t), programs, schedule[1..]);
    }
  }

  lemma CountingStep(s: State, programs: seq<seq<nat>>, t: nat)
    requires Counting(s, programs) && Enabled(s, t) && s.capacity < WIDTH - 1 && OthersFit(s.capacity, programs)
    ensures Counting(Step(s, t), programs) || Alone(Step(s, t), t)
    ensures Step(s, t).capacity == s.capacity
  {
    if s.used + s.threads[t].todo[0] <= s.capacity {
      CountingGrant(s, programs, t);
    } else {
      CountingRefusal(s, programs, t);
    }
  }

  lemma AccurateIfOthersFit(capacity: nat, programs: seq<seq<nat>>)
    requires capacity < WIDTH - 1 && OthersFit(capacity, programs)
    ensures AlwaysAccurate(capacity, programs)
  {
    var s0 := Init(capacity, programs);
    assert s0.threads == Init(0, programs).threads;
    assert Counting(s0, programs);
    forall schedule | IsRun(s0, schedule) && Finished(After(s0, schedule))
      ensures After(s0, schedule).used == GrantedBytes(After(s0, schedule).grants)
    {
      AccurateRun(s0, programs, schedule);
      FinishedIsAccurate(After(s0, schedule), programs);
    }
  }

  lemma FinishedIsAccurate(s: State, programs: seq<seq<nat>>)
    requires Accurate(s, programs) && Finished(s)
    ensures s.used == GrantedBytes(s.grants)
  {
    if o: nat :| Alone(s, o) {
      assert !Enabled(s, o);
    }
  }

  // ----- The interleaving that goes wrong -----

  lemma {:induction false} RunsJoin(s: State, a: seq<nat>, b: seq<nat>)
    requires IsRun(s, a) && IsRun(After(s, a), b)
    ensures IsRun(s, a + b) && After(s, a + b) == After(After(s, a), b)
    decreases |a|
  {
    if a == [] {
      assert a + b == b;
    } else {
      RunsJoin(Step(s, a[0]), a[1..], b);
      assert (a + b)[1..] == a[1..] + b;
    }
  }

  lemma OneStep(s: State, t: nat)
    requires Enabled(s, t)
    ensures IsRun(s, [t]) && After(s, [t]) == Step(s, t)
  {
    assert IsRun(Step(s, t), [t][1..]);
  }

  /** Steps a thread still has to take. */
  function Effort(x: Thread): nat {
    2 * |x.todo| + if x.phase.Overshot? then 1 else 0
  }

  function Efforts(s: State): seq<nat> {
    seq(|s.threads|, t requires 0 <= t < |s.threads| => Effort(s.threads[t]))
  }

  lemma StepIsWork(s: State, t: nat)
    requires Enabled(s, t)
    ensures Sum(Efforts(Step(s, t))) < Sum(Efforts(s))
    ensures |Step(s, t).threads| == |s.threads| && Step(s, t).capacity == s.capacity
    ensures forall u :: 0 <= u < |s.threads| && u != t ==> Step(s, t).threads[u] == s.threads[u]
  {
    var r := Effort(Step(s, t).threads[t]);
    assert Efforts(Step(s, t)) == Efforts(s)[t := r];
    SumUpdate(Efforts(s), t, r);
  }

  /** Once a rollback past the capacity is outstanding in a thread without calls left, everyone
      else can finish first, and then it is stored for good. */
  lemma {:induction false} StuckAfter(s: State, p: nat) returns (schedule: seq<nat>)
    requires p < |s.threads| && s.threads[p].todo == [] && s.threads[p].phase.Overshot?
    ensures IsRun(s, schedule) && Finished(After(s, schedule)) && After(s, schedule).used == s.threads[p].phase.offset
    decreases Sum(Efforts(s))
  {
    if t: nat :| t != p && Enabled(s, t) {
      hide Step;
      StepIsWork(s, t);
      var rest := StuckAfter(Step(s, t), p);
      schedule := [t] + rest;
      assert schedule[1..] == rest;
    } else {
      OneStep(s, p);
      schedule := [p];
      forall t: nat | t < |s.threads| ensures !Enabled(Step(s, p), t) {
        assert t != p ==> !Enabled(s, t);
      }
    }
  }

  /** Thread `p` has `todo` left, and nobody has been refused for good. */
  ghost predicate Settled(s: State, p: nat, todo: seq<nat>) {
    && p < |s.threads| && s.threads[p] == Thread(todo, Ready)
    && s.used == GrantedBytes(s.grants) <= s.capacity < WIDTH - 1
  }

  /** One call made to its end, rollback included. */
  lemma WholeCall(s: State, p: nat, todo: seq<nat>) returns (schedule: seq<nat>)
    requires Settled(s, p, todo) && todo != []
    ensures IsRun(s, schedule)
    ensures
      var t := After(s, schedule);
      && Settled(t, p, todo[1..]) && t.capacity == s.capacity && |t.threads| == |s.threads|
      && (forall u :: 0 <= u < |s.threads| && u != p ==> t.threads[u] == s.threads[u])
      && t.used == if s.used + todo[0] <= s.capacity then s.used + todo[0] else s.used
  {
    OneStep(s, p);
    if s.used + todo[0] <= s.capacity {
      GrantStep(s, p);
      schedule := [p];
    } else {
      OneStep(Step(s, p), p);
      RunsJoin(s, [p], [p]);
      schedule := [p] + [p];
    }
  }

  /** Thread `p` makes all its calls but the last, on its own. */
  lemma {:induction false} SoloRun(s: State, p: nat, program: seq<nat>, k: nat) returns (schedule: seq<nat>)
    requires k < |program| && Settled(s, p, program[k..]) && s.used == Solo(s.capacity, program[..k])
    ensures IsRun(s, schedule)
    ensures
      var n, t := |program| - 1, After(s, schedule);
      && Settled(t, p, program[n..]) && t.capacity == s.capacity && |t.threads| == |s.threads|
      && t.used == Solo(s.capacity, program[..n])
      && forall u :: 0 <= u < |s.threads| && u != p ==> t.threads[u] == s.threads[u]
    decreases |program| - k
  {
    hide Settled;
    if k == |program| - 1 {
      schedule := [];
    } else {
      var first := WholeCall(s, p, program[k..]);
      var t := After(s, first);
      assert program[k..][1..] == program[k + 1..];
      assert program[..k + 1][..k] == program[..k];
      var rest := SoloRun(t, p, program, k + 1);
      RunsJoin(s, first, rest);
      schedule := first + rest;
    }
  }

  /** While a thread's last call waits, the others together do not fit: one of them overshoots,
      and the waiting call is made before its rollback. */
  lemma {:induction false} OthersOvershoot(s: State, p: nat, last: nat) returns (schedule: seq<nat>)
    requires TooMuch(s, p, last)
    ensures IsRun(s, schedule) && After(s, schedule).capacity == s.capacity
    ensures Poised(After(s, schedule), p)
    decreases Pending(s.threads), Sum(Efforts(s))
  {
    var o := SomeoneElse(s, p, last);
    StepIsWork(s, o);
    OneStep(s, o);
    if s.used + s.threads[o].todo[0] <= s.capacity {
      OthersGrant(s, p, last, o);
      var rest := OthersOvershoot(Step(s, o), p, last);
      RunsJoin(s, [o], rest);
      schedule := [o] + rest;
    } else {
      OthersRefusal(s, p, last, o);
      OneStep(Step(s, o), p);
      RunsJoin(s, [o], [p]);
      schedule := [o] + [p];
    }
  }

  /** Thread `p` has one call left, and what the others still ask for does not fit. */
  ghost predicate TooMuch(s: State, p: nat, last: nat) {
    && Settled(s, p, [last]) && Quiet(s) && s.used + Pending(s.threads) < WIDTH
    && s.used + (Pending(s.threads) - last) > s.capacity
  }

  /** Thread `p` has made its last call and is about to store a value past the capacity. */
  predicate Poised(s: State, p: nat) {
    p < |s.threads| && s.threads[p].todo == [] && s.threads[p].phase.Overshot? && s.threads[p].phase.offset > s.capacity
  }

  lemma OthersGrant(s: State, p: nat, last: nat, o: nat)
    requires TooMuch(s, p, last) && o < |s.threads| && o != p && s.threads[o].todo != []
    requires s.used + s.threads[o].todo[0] <= s.capacity
    ensures Enabled(s, o) && TooMuch(Step(s, o), p, last) && Pending(Step(s, o).threads) <= Pending(s.threads)
  {
    var todo := s.threads[o].todo;
    CallParts(todo);
    PendingUpdate(s.threads, o, Thread(todo[1..], Ready));
    hide Step;
    hide GrantedBytes;
    hide Sum;
    hide Pending;
    GrantStep(s, o);
  }

  lemma OthersRefusal(s: State, p: nat, last: nat, o: nat)
    requires TooMuch(s, p, last) && o < |s.threads| && o != p && s.threads[o].todo != []
    requires s.used + s.threads[o].todo[0] > s.capacity
    ensures Enabled(s, o) && Enabled(Step(s, o), p) && Poised(Step(Step(s, o), p), p)
    ensures Step(Step(s, o), p).capacity == s.capacity
  {
    var todo := s.threads[o].todo;
    var x := Thread(todo[1..], Overshot(s.used));
    CallParts(todo);
    PendingTwo(s.threads, o, p);
    assert Sum([last]) == last;
    assert Step(s, o) == State(s.capacity, s.used + todo[0], s.threads[o := x], s.grants);
  }

  lemma SomeoneElse(s: State, p: nat, last: nat) returns (o: nat)
    requires Settled(s, p, [last]) && Quiet(s) && s.used + (Pending(s.threads) - last) > s.capacity
    ensures o < |s.threads| && o != p && s.threads[o].todo != [] && s.threads[o].phase.Ready?
  {
    assert Sum([last]) == last;
    if forall t :: 0 <= t < |s.threads| && t != p ==> s.threads[t].todo == [] {
      PendingOnly(s.threads, p);
      assert false;
    }
    o :| 0 <= o < |s.threads| && o != p && s.threads[o].todo != [];
  }

  lemma {:induction false} PendingZero(threads: seq<Thread>)
    requires forall t :: 0 <= t < |threads| ==> threads[t].todo == []
    ensures Pending(threads) == 0
  {
    if threads != [] {
      PendingZero(threads[1..]);
    }
  }

  lemma {:induction false} PendingOnly(threads: seq<Thread>, last: nat)
    requires last < |threads| && forall t :: 0 <= t < |threads| && t != last ==> threads[t].todo == []
    ensures Pending(threads) == Sum(threads[last].todo)
  {
    if last == 0 {
      PendingZero(threads[1..]);
    } else {
      PendingOnly(threads[1..], last - 1);
    }
  }

  /** If some thread's calls but the last, on their own, and the others' calls do not fit together,
      an interleaving leaves `used` past the capacity for good. */
  lemma StuckRun(capacity: nat, programs: seq<seq<nat>>, p: nat) returns (schedule: seq<nat>)
    requires capacity < WIDTH - 1 && Asked(programs) < WIDTH
    requires p < |programs| && programs[p] != [] && !OthersFitWith(capacity, programs, p)
    ensures var s0 := Init(capacity, programs);
      IsRun(s0, schedule) && Finished(After(s0, schedule)) && After(s0, schedule).used > capacity
  {
    var s0, program, n := Init(capacity, programs), programs[p], |programs[p]| - 1;
    assert s0.threads == Init(0, programs).threads && program[0..] == program && program[..0] == [];
    var first := SoloRun(s0, p, program, 0);
    var s1 := After(s0, first);
    assert program[n..] == [program[n]];
    AfterSolo(s0, s1, p, program[n]);
    SoloAsks(capacity, program);
    var second := OthersOvershoot(s1, p, program[n]);
    var third := StuckAfter(After(s1, second), p);
    RunsJoin(s1, second, third);
    RunsJoin(s0, first, second + third);
    schedule := first + (second + third);
  }

  /** A thread is granted no more than it asks for, its last call aside. */
  lemma SoloAsks(capacity: nat, program: seq<nat>)
    requires program != []
    ensures Solo(capacity, program[..|program| - 1]) + program[|program| - 1] <= Sum(program)
  {
    var n := |program| - 1;
    assert program == program[..n] + [program[n]];
    SumAppend(program[..n], [program[n]]);
    SoloAtMost(capacity, program[..n]);
  }

  lemma {:induction false} SoloAtMost(capacity: nat, program: seq<nat>)
    ensures Solo(capacity, program) <= Sum(program)
  {
    if program != [] {
      var n := |program| - 1;
      assert program == program[..n] + [program[n]];
      SumAppend(program[..n], [program[n]]);
      SoloAtMost(capacity, program[..n]);
    }
  }

  /** What is left after thread `p`'s solo calls. */
  lemma AfterSolo(s0: State, s1: State, p: nat, last: nat)
    requires p < |s0.threads| == |s1.threads| && s1.threads[p] == Thread([last], Ready) && Quiet(s0)
    requires forall u :: 0 <= u < |s0.threads| && u != p ==> s1.threads[u] == s0.threads[u]
    ensures Quiet(s1) && Pending(s1.threads) - last == Pending(s0.threads) - Sum(s0.threads[p].todo)
  {
    assert s1.threads == s0.threads[p := Thread([last], Ready)];
    PendingUpdate(s0.threads, p, Thread([last], Ready));
    assert Sum([last]) == last;
  }

  /** Concurrent threads, each making any number of `reserve` calls, keep `used` accurate in every
      interleaving if and only if, whichever thread's last call is left out, its other calls on
      their own and all the others' calls fit together. */
  lemma IsAccurateIff(capacity: nat, programs: seq<seq<nat>>)
    requires capacity < WIDTH - 1 && Asked(programs) < WIDTH
    ensures AlwaysAccurate(capacity, programs) <==> OthersFit(capacity, programs)
  {
    if OthersFit(capacity, programs) {
      AccurateIfOthersFit(capacity, programs);
    } else {
      var p: nat :| p < |programs| && programs[p] != [] && !OthersFitWith(capacity, programs, p);
      var schedule := StuckRun(capacity, programs, p);
      var s0 := Init(capacity, programs);
      assert s0.threads == Init(0, programs).threads;
      InitInv(capacity, programs);
      RunInv(s0, schedule);
      CapacityKept(s0, schedule);
    }
  }

  // ----- One call each -----

  function Batch(lens: seq<nat>): seq<seq<nat>> {
    seq(|lens|, t requires 0 <= t < |lens| => [lens[t]])
  }

  lemma {:induction false} BatchPending(threads: seq<Thread>, lens: seq<nat>)
    requires |threads| == |lens| && forall t :: 0 <= t < |lens| ==> threads[t] == Thread([lens[t]], Ready)
    ensures Pending(threads) == Sum(lens)
  {
    if lens != [] {
      BatchPending(threads[1..], lens[1..]);
      assert Sum([lens[0]]) == lens[0];
    }
  }

  /** With one call each: accurate if and only if, leaving out any one call, the rest fit. */
  lemma BatchIsAccurateIff(capacity: nat, lens: seq<nat>)
    requires capacity < WIDTH - 1 && Sum(lens) < WIDTH
    ensures AlwaysAccurate(capacity, Batch(lens)) <==> forall t :: 0 <= t < |lens| ==> Sum(lens) - lens[t] <= capacity
  {
    var programs := Batch(lens);
    BatchPending(Init(0, programs).threads, lens);
    IsAccurateIff(capacity, programs);
    forall t: nat | t < |lens| ensures OthersFitWith(capacity, programs, t) <==> Sum(lens) - lens[t] <= capacity {
      assert Sum([lens[t]]) == lens[t] && programs[t][..0] == [];
    }
  }
}
