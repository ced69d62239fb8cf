/** The pinned arena's bump allocation: `reserve` is a `fetch_add` and, on overshoot,
    a separate plain store of the old value. Threads interleave these two accesses
    in any order. */
module Arena {
  import opened Sums

  /** Values of a 64-bit `usize`; `fetch_add` wraps at this modulus. */
  const WIDTH: nat := 0x1_0000_0000_0000_0000

  datatype Reservation = Granted(offset: nat) | Overflow

  /** One thread's use of the arena: both accesses back to back. */
  class PinnedArena {
    const capacity: nat
    var used: nat

    ghost predicate Valid()
      reads this
    {
      used <= capacity < WIDTH - 1
    }

    constructor (size: nat)
      requires 0 < size < WIDTH - 1
      ensures Valid() && capacity == size && used == 0
    {
      capacity := size;
      used := 0;
    }

    /** The fallible constructor: an arena of no bytes is refused. */
    static method Create(size: nat) returns (arena: PinnedArena?)
      requires size < WIDTH - 1
      ensures arena == null <==> size == 0
      ensures arena != null ==> fresh(arena) && arena.Valid() && arena.capacity == size && arena.used == 0
    {
      if size == 0 {
        return null;
      }
      arena := new PinnedArena(size);
    }

    method FetchAdd(len: nat) returns (offset: nat)
      requires used < WIDTH && len < WIDTH
      modifies this
      ensures offset == old(used) && used == (old(used) + len) % WIDTH
    {
      offset := used;
      used := (used + len) % WIDTH;
    }

    method Reserve(len: nat) returns (r: Reservation)
      requires Valid() && len < WIDTH
      modifies this
      ensures Valid()
      ensures old(used) + len <= capacity ==> r == Granted(old(used)) && used == old(used) + len
      ensures old(used) + len > capacity ==> r == Overflow && used == old(used)
    {
      var offset := FetchAdd(len);
      if Saturated(offset + len) > capacity {
        used := offset;
        return Overflow;
      }
      return Granted(offset);
    }
  }

  function Saturated(sum: nat): nat {
    if sum < WIDTH then sum else WIDTH - 1
  }

  // ----- Interleavings -----

  datatype Phase = Ready | Overshot(offset: nat)

  /** `todo` are the lengths the thread has still to reserve. */
  datatype Thread = Thread(todo: seq<nat>, phase: Phase)

  datatype Grant = Grant(offset: nat, len: nat)

  datatype State = State(capacity: nat, used: nat, threads: seq<Thread>, grants: seq<Grant>)

  function Init(capacity: nat, programs: seq<seq<nat>>): State {
    State(capacity, 0, seq(|programs|, t requires 0 <= t < |programs| => Thread(programs[t], Ready)), [])
  }

  predicate Enabled(s: State, t: nat) {
    t < |s.threads| && (s.threads[t].phase.Overshot? || s.threads[t].todo != [])
  }

  function Step(s: State, t: nat): State
    requires Enabled(s, t)
  {
    var x := s.threads[t];
    match x.phase
    case Overshot(offset) => s.(used := offset, threads := s.threads[t := x.(phase := Ready)])
    case Ready =>
      var len, offset := x.todo[0], s.used;
      var s' := s.(used := (s.used + len) % WIDTH);
      if Saturated(offset + len) > s.capacity then
        s'.(threads := s.threads[t := Thread(x.todo[1..], Overshot(offset))])
      else
        s'.(threads := s.threads[t := Thread(x.todo[1..], Ready)], grants := s.grants + [Grant(offset, len)])
  }

  predicate IsRun(s: State, schedule: seq<nat>)
    decreases |schedule|
  {
    schedule == [] || (Enabled(s, schedule[0]) && IsRun(Step(s, schedule[0]), schedule[1..]))
  }

  function After(s: State, schedule: seq<nat>): State
    requires IsRun(s, schedule)
    decreases |schedule|
  {
    if schedule == [] then s else After(Step(s, schedule[0]), schedule[1..])
  }

  predicate Quiet(s: State) {
    forall t :: 0 <= t < |s.threads| ==> s.threads[t].phase.Ready?
  }

  predicate Finished(s: State) {
    forall t: nat :: t < |s.threads| ==> !Enabled(s, t)
  }

  /** Everything the threads have still to ask for. */
  function Pending(threads: seq<Thread>): nat {
    if threads == [] then 0 else Sum(threads[0].todo) + Pending(threads[1..])
  }

  function GrantedBytes(grants: seq<Grant>): nat {
    if grants == [] then 0 else GrantedBytes(grants[..|grants| - 1]) + grants[|grants| - 1].len
  }

  // ----- Invariant -----

  /** The grants are laid end to end from 0. */
  predicate Tiled(grants: seq<Grant>) {
    forall k :: 0 <= k < |grants| ==> grants[k].offset == GrantedBytes(grants[..k])
  }

  ghost predicate Inv(s: State) {
    var granted := GrantedBytes(s.grants);
    && s.capacity < WIDTH - 1
    && Tiled(s.grants) && granted <= s.capacity
    && (s.used <= s.capacity ==> s.used == granted)
    // A rollback still to be stored is the end of the grants, or past the capacity.
    && (forall t :: 0 <= t < |s.threads| && s.threads[t].phase.Overshot? ==>
          s.threads[t].phase.offset == granted || s.threads[t].phase.offset > s.capacity)
    // At most one is within the capacity, and while it is outstanding nothing can be granted.
    && (forall t :: 0 <= t < |s.threads| && s.threads[t].phase.Overshot? && s.threads[t].phase.offset <= s.capacity ==>
          s.used > s.capacity)
    && (forall t, u :: 0 <= t < u < |s.threads| && s.threads[t].phase.Overshot? && s.threads[u].phase.Overshot? ==>
          s.threads[t].phase.offset > s.capacity || s.threads[u].phase.offset > s.capacity)
    // No addition can wrap.
    && s.used + Pending(s.threads) < WIDTH
    && (forall t :: 0 <= t < |s.threads| && s.threads[t].phase.Overshot? ==>
          s.threads[t].phase.offset + Pending(s.threads) < WIDTH)
  }

  lemma {:induction false} PendingUpdate(threads: seq<Thread>, t: nat, x: Thread)
    requires t < |threads|
    ensures Pending(threads[t := x]) == Pending(threads) - Sum(threads[t].todo) + Sum(x.todo)
  {
    if t == 0 {
      assert threads[t := x][1..] == threads[1..];
    } else {
      assert threads[t := x][1..] == threads[1..][t - 1 := x];
      PendingUpdate(threads[1..], t - 1, x);
    }
  }

  lemma GrantAppended(grants: seq<Grant>, g: Grant)
    requires Tiled(grants) && g.offset == GrantedBytes(grants)
    ensures Tiled(grants + [g]) && GrantedBytes(grants + [g]) == GrantedBytes(grants) + g.len
  {
    var all := grants + [g];
    assert all[..|all| - 1] == grants;
    forall k | 0 <= k < |all| ensures all[k].offset == GrantedBytes(all[..k]) {
      if k < |grants| {
        assert all[..k] == grants[..k];
      }
    }
  }

  /** A reservation that fits: only possible with no rollback within the capacity outstanding. */
  lemma GrantInv(s: State, t: nat)
    requires Inv(s) && Enabled(s, t) && s.threads[t].phase.Ready?
    requires s.used + s.threads[t].todo[0] <= s.capacity
    ensures Inv(Step(s, t))
  {
    var todo := s.threads[t].todo;
    var x := Thread(todo[1..], Ready);
    PendingUpdate(s.threads, t, x);
    GrantAppended(s.grants, Grant(s.used, todo[0]));
    hide GrantedBytes;
    hide Tiled;
    hide Pending;
    assert Step(s, t) == State(s.capacity, s.used + todo[0], s.threads[t := x], s.grants + [Grant(s.used, todo[0])]);
  }

  lemma OvershootInv(s: State, t: nat)
    requires Inv(s) && Enabled(s, t) && s.threads[t].phase.Ready?
    requires s.used + s.threads[t].todo[0] > s.capacity
    ensures Inv(Step(s, t))
  {
    hide GrantedBytes;
    hide Pending;
    hide Tiled;
    var todo := s.threads[t].todo;
    var x := Thread(todo[1..], Overshot(s.used));
    PendingUpdate(s.threads, t, x);
    PendingCovers(s.threads, t);
    assert Step(s, t) == State(s.capacity, s.used + todo[0], s.threads[t := x], s.grants);
  }

  lemma RollbackInv(s: State, t: nat)
    requires Inv(s) && Enabled(s, t) && s.threads[t].phase.Overshot?
    ensures Inv(Step(s, t))
  {
    PendingUpdate(s.threads, t, s.threads[t].(phase := Ready));
  }

  lemma {:induction false} PendingCovers(threads: seq<Thread>, t: nat)
    requires t < |threads|
    ensures Sum(threads[t].todo) <= Pending(threads)
  {
    if t > 0 {
      PendingCovers(threads[1..], t - 1);
    }
  }

  lemma StepInv(s: State, t: nat)
    requires Inv(s) && Enabled(s, t)
    ensures Inv(Step(s, t))
  {
    if s.threads[t].phase.Overshot? {
      RollbackInv(s, t);
    } else if s.used + s.threads[t].todo[0] <= s.capacity {
      GrantInv(s, t);
    } else {
      OvershootInv(s, t);
    }
  }

  lemma {:induction false} RunInv(s: State, schedule: seq<nat>)
    requires Inv(s) && IsRun(s, schedule)
    ensures Inv(After(s, schedule))
    decreases |schedule|
  {
    if schedule != [] {
      StepInv(s, schedule[0]);
      RunInv(Step(s, schedule[0]), schedule[1..]);
    }
  }

  lemma InitInv(capacity: nat, programs: seq<seq<nat>>)
    requires capacity < WIDTH - 1 && Pending(Init(capacity, programs).threads) < WIDTH
    ensures Inv(Init(capacity, programs))
  {
  }

  // ----- Main results -----

  lemma {:induction false} BytesGrow(grants: seq<Grant>, a: nat, b: nat)
    requires a <= b <= |grants|
    ensures GrantedBytes(grants[..a]) <= GrantedBytes(grants[..b])
    decreases b - a
  {
    if a < b {
      assert grants[..b][..b - 1] == grants[..b - 1];
      BytesGrow(grants, a, b - 1);
    }
  }

  /** Whatever the interleaving, as long as all lengths ever asked for add up to less
      than the width of `usize`: the granted ranges are pairwise disjoint, lie inside
      the capacity and tile a prefix of the arena; and once no rollback is
      outstanding, `used` is the end of that prefix or past the capacity. */
  lemma GrantsAreSafe(capacity: nat, programs: seq<seq<nat>>, schedule: seq<nat>)
    requires capacity < WIDTH - 1 && Pending(Init(capacity, programs).threads) < WIDTH
    requires IsRun(Init(capacity, programs), schedule)
    ensures var s := After(Init(capacity, programs), schedule);
      && Tiled(s.grants)
      && (forall k :: 0 <= k < |s.grants| ==> s.grants[k].offset + s.grants[k].len <= capacity)
      && (forall j, k :: 0 <= j < k < |s.grants| ==> s.grants[j].offset + s.grants[j].len <= s.grants[k].offset)
      && (Quiet(s) ==> s.used == GrantedBytes(s.grants) || s.used > capacity)
  {
    InitInv(capacity, programs);
    RunInv(Init(capacity, programs), schedule);
    CapacityKept(Init(capacity, programs), schedule);
    TiledRanges(After(Init(capacity, programs), schedule).grants);
  }

  lemma TiledRanges(grants: seq<Grant>)
    requires Tiled(grants)
    ensures forall j, k :: 0 <= j < k < |grants| ==> grants[j].offset + grants[j].len <= grants[k].offset
    ensures forall k :: 0 <= k < |grants| ==> grants[k].offset + grants[k].len <= GrantedBytes(grants)
  {
    forall j, k | 0 <= j < k <= |grants|
      ensures grants[j].offset + grants[j].len <= GrantedBytes(grants[..k])
    {
      assert grants[..j + 1][..j] == grants[..j];
      BytesGrow(grants, j + 1, k);
    }
    assert grants[..|grants|] == grants;
  }

  lemma {:induction false} CapacityKept(s: State, schedule: seq<nat>)
    requires IsRun(s, schedule)
    ensures After(s, schedule).capacity == s.capacity && |After(s, schedule).threads| == |s.threads|
    decreases |schedule|
  {
    if schedule != [] {
      CapacityKept(Step(s, schedule[0]), schedule[1..]);
    }
  }

  /** When the lengths do add up past the width, a wrapped counter hands out bytes
      that are already granted. */
  lemma WrappedCounterOverlaps()
    ensures var programs := [[10, WIDTH - 5], [3]];
      var s0 := Init(16, programs);
      && IsRun(s0, [0, 0, 1])
      && After(s0, [0, 0, 1]).grants == [Grant(0, 10), Grant(5, 3)]
  {
    var s0 := Init(16, [[10, WIDTH - 5], [3]]);
    var s1 := Step(s0, 0);
    assert s1 == State(16, 10, [Thread([WIDTH - 5], Ready), Thread([3], Ready)], [Grant(0, 10)]);
    var s2 := Step(s1, 0);
    assert [WIDTH - 5][1..] == [];
    assert s2.threads == [Thread([], Overshot(10)), Thread([3], Ready)];
    assert s2.used == (10 + (WIDTH - 5)) % WIDTH == 5;
    var s3 := Step(s2, 1);
    assert s3.grants == [Grant(0, 10), Grant(5, 3)];
    assert [0, 0, 1][1..] == [0, 1] && [0, 1][1..] == [1];
    assert IsRun(s2, [1]) && After(s2, [1]) == s3;
    assert IsRun(s1, [0, 1]) && After(s1, [0, 1]) == s3;
  }
}
