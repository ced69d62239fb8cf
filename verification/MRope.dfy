/** Multimodal rotary position ids: text counts up, each image's merged tokens get their
    grid coordinates, and the counter then passes the image's longer side. */
module MRope {
  import opened Flat
  import opened Nested
  import opened Packer

  datatype Pos = Pos(t: int, h: int, w: int)

  datatype Grid = Grid(t: nat, h: nat, w: nat)

  function Max(a: int, b: int): (r: int)
    ensures r >= a && r >= b && (r == a || r == b)
  {
    if a > b then a else b
  }

  // ----- One image -----

  function VisionBounds(t: nat, h: nat, w: nat): Bounds {
    Bounds(1, t, h, w)
  }

  function VisionOf(start: int, interval: int): Body<Pos> {
    (o: nat, ti: nat, r: nat, c: nat) => Pos(ti * interval + start, r + start, c + start)
  }

  /** The ids of a merged grid: frame by frame, row by row. */
  function Vision(start: int, t: nat, h: nat, w: nat, interval: int): (r: seq<Pos>)
    ensures |r| == VisionBounds(t, h, w).Total()
  {
    Nest(VisionBounds(t, h, w), VisionOf(start, interval))
  }

  predicate Components(ids: seq<Pos>, t: seq<int>, h: seq<int>, w: seq<int>) {
    |t| == |h| == |w| == |ids| && forall k :: 0 <= k < |ids| ==> ids[k] == Pos(t[k], h[k], w[k])
  }

  method VisionPositionIds(start: int, grid: Grid, tempMerge: nat, spatialMerge: nat, interval: int)
    returns (temporal: seq<int>, height: seq<int>, width: seq<int>)
    ensures var tm, sm := AtLeastOne(tempMerge), AtLeastOne(spatialMerge);
      Components(Vision(start, grid.t / tm, grid.h / sm, grid.w / sm, interval), temporal, height, width)
  {
    hide Nest;
    hide Upto1;
    hide Upto2;
    hide Upto3;
    hide Upto4;
    hide Components;
    var tm, sm := AtLeastOne(tempMerge), AtLeastOne(spatialMerge);
    var llmT, llmH, llmW := grid.t / tm, grid.h / sm, grid.w / sm;
    ghost var n, f := VisionBounds(llmT, llmH, llmW), VisionOf(start, interval);
    temporal, height, width := [], [], [];
    Starts(n, f, 0, 0, 0);
    NoComponents();
    for ti := 0 to llmT
      invariant Components(Upto2(n, f, 0, ti), temporal, height, width)
    {
      Starts(n, f, 0, ti, 0);
      var tVal := ti * interval + start;
      for r := 0 to llmH
        invariant Components(Upto3(n, f, 0, ti, r), temporal, height, width)
      {
        Starts(n, f, 0, ti, r);
        for c := 0 to llmW
          invariant Components(Upto4(n, f, 0, ti, r, c), temporal, height, width)
        {
          Pushes(n, f, 0, ti, r, c);
          ComponentsNext(Upto4(n, f, 0, ti, r, c), temporal, height, width, Pos(tVal, r + start, c + start));
          temporal, height, width := temporal + [tVal], height + [r + start], width + [c + start];
        }
        EndsInner(n, f, 0, ti, r);
      }
      EndsMiddle(n, f, 0, ti);
    }
    EndsOuter(n, f, 0);
    Starts(n, f, 1, 0, 0);
  }

  lemma NoComponents()
    ensures Components([], [], [], [])
  {
  }

  lemma ComponentsNext(ids: seq<Pos>, t: seq<int>, h: seq<int>, w: seq<int>, p: Pos)
    requires Components(ids, t, h, w)
    ensures Components(ids + [p], t + [p.t], h + [p.h], w + [p.w])
  {
  }

  /** Every id of an image is one of its cells. */
  lemma VisionAt(start: int, t: nat, h: nat, w: nat, interval: int, k: nat) returns (ti: nat, r: nat, c: nat)
    requires k < |Vision(start, t, h, w, interval)|
    ensures ti < t && r < h && c < w && VisionBounds(t, h, w).At(0, ti, r, c) == k
    ensures Vision(start, t, h, w, interval)[k] == Pos(ti * interval + start, r + start, c + start)
  {
    hide Nest;
    hide Counters;
    hide Ix;
    var n := VisionBounds(t, h, w);
    CountersAt(n, k);
    var (o, a, b, d) := Counters(n, k);
    NestAt(n, VisionOf(start, interval), o, a, b, d);
    ti, r, c := a, b, d;
  }

  // ----- The merged token of a merge block -----

  /** Rows k*m*m to (k+1)*m*m - 1 of the packed order are the merge block at the (height,
      width) id of merged token `k`. */
  lemma MergedTokenIsBlock(a: nat, b: nat, m: nat, k: nat, mr: nat, mc: nat)
    requires k < |Vision(0, 1, a, b, 1)| && mr < m && mc < m
    ensures
      var id, r := Vision(0, 1, a, b, 1)[k], Ix(k, Ix(mr, mc, m), m * m);
      && id.h >= 0 && id.w >= 0 && r < |Order(a, b, m)|
      && Order(a, b, m)[r] == (Ix(id.h, mr, m), Ix(id.w, mc, m))
  {
    hide Nest;
    var ti, bh, bw := VisionAt(0, 1, a, b, 1, k);
    assert k == Ix(bh, bw, b);
    NestAt(OrderBounds(a, b, m), PatchOf(m), bh, bw, mr, mc);
  }

  // ----- A whole sequence -----

  datatype Error = MissingGrid | WrongLength | ExtraGrids

  datatype Outcome = Placed(ids: seq<Pos>) | Refused(error: Error)

  /** The end of the run of the same kind that contains position `j`. */
  function RunEnd(tokens: seq<nat>, img: nat, isImg: bool, j: nat): (e: nat)
    requires j <= |tokens|
    ensures j <= e <= |tokens|
    ensures forall q :: j <= q < e ==> (tokens[q] == img) == isImg
    ensures e < |tokens| ==> (tokens[e] == img) != isImg
    decreases |tokens| - j
  {
    if j < |tokens| && (tokens[j] == img) == isImg then RunEnd(tokens, img, isImg, j + 1) else j
  }

  function TextIds(pos: int, n: nat): (r: seq<Pos>)
    ensures |r| == n
  {
    seq(n, k requires 0 <= k < n => Pos(pos + k, pos + k, pos + k))
  }

  function ImageTokens(grid: Grid, sm: nat): nat
    requires sm > 0
  {
    var rows: nat, cols: nat := grid.h / sm, grid.w / sm;
    grid.t * rows * cols
  }

  /** How far an image moves the counter. */
  function Stride(grid: Grid, sm: nat): nat
    requires sm > 0
  {
    (if grid.h >= grid.w then grid.h else grid.w) / sm
  }

  function ImageIds(pos: int, grid: Grid, sm: nat): seq<Pos>
    requires sm > 0
  {
    Vision(pos, grid.t, grid.h / sm, grid.w / sm, 1)
  }

  function Prepend(ids: seq<Pos>, r: Outcome): Outcome {
    match r
    case Placed(rest) => Placed(ids + rest)
    case Refused(e) => Refused(e)
  }

  /** The ids from a run boundary on, with the counter at `pos` and `k` grids used. */
  function Ids(tokens: seq<nat>, img: nat, grids: seq<Grid>, sm: nat, i: nat, pos: int, k: nat): Outcome
    requires sm > 0 && i <= |tokens| && k <= |grids|
    decreases |tokens| - i
  {
    if i == |tokens| then (if k == |grids| then Placed([]) else Refused(ExtraGrids))
    else
      var isImg := tokens[i] == img;
      var e := RunEnd(tokens, img, isImg, i);
      assert e > i;
      if !isImg then Prepend(TextIds(pos, e - i), Ids(tokens, img, grids, sm, e, pos + (e - i), k))
      else if k == |grids| then Refused(MissingGrid)
      else if ImageTokens(grids[k], sm) != e - i then Refused(WrongLength)
      else Prepend(ImageIds(pos, grids[k], sm), Ids(tokens, img, grids, sm, e, pos + Stride(grids[k], sm), k + 1))
  }

  function RopeIndex(tokens: seq<nat>, img: nat, grids: seq<Grid>, sm: nat): Outcome
    requires sm > 0
  {
    Ids(tokens, img, grids, sm, 0, 0, 0)
  }

  lemma ImageIdsLength(pos: int, grid: Grid, sm: nat)
    requires sm > 0
    ensures |ImageIds(pos, grid, sm)| == ImageTokens(grid, sm)
  {
    var h, w := grid.h / sm, grid.w / sm;
    assert (1 * grid.t) * (h * w) == grid.t * h * w;
  }

  // ----- The loop -----

  /** The three arrays hold `done` up to its length. */
  predicate Filled(done: seq<Pos>, t: seq<int>, h: seq<int>, w: seq<int>) {
    |done| <= |t| == |h| == |w| && Components(done, t[..|done|], h[..|done|], w[..|done|])
  }

  method WriteRun(run: seq<Pos>, ghost done: seq<Pos>, start: nat, t: array<int>, h: array<int>, w: array<int>)
    requires t != h && h != w && t != w && |done| == start
    requires Filled(done, t[..], h[..], w[..]) && start + |run| <= t.Length
    modifies t, h, w
    ensures Filled(done + run, t[..], h[..], w[..])
  {
    for k := 0 to |run|
      invariant Filled(done + run[..k], t[..], h[..], w[..])
    {
      t[start + k], h[start + k], w[start + k] := run[k].t, run[k].h, run[k].w;
      assert done + run[..k + 1] == (done + run[..k]) + [run[k]];
    }
    assert run[..|run|] == run;
  }

  method EndOfRun(tokens: seq<nat>, img: nat, isImg: bool, start: nat) returns (i: nat)
    requires start <= |tokens|
    ensures i == RunEnd(tokens, img, isImg, start)
  {
    i := start;
    while i < |tokens| && (tokens[i] == img) == isImg
      invariant start <= i <= |tokens| && RunEnd(tokens, img, isImg, i) == RunEnd(tokens, img, isImg, start)
    {
      i := i + 1;
    }
  }

  /** The position ids of a sequence, or why the grids do not match it. */
  method GetRopeIndex(tokens: seq<nat>, img: nat, grids: seq<Grid>, mergeSize: nat)
    returns (error: seq<Error>, t: array<int>, h: array<int>, w: array<int>)
    ensures var spec := RopeIndex(tokens, img, grids, AtLeastOne(mergeSize));
      && (spec.Placed? ==> error == [] && Components(spec.ids, t[..], h[..], w[..]))
      && (spec.Refused? ==> error == [spec.error])
    ensures fresh(t) && fresh(h) && fresh(w)
  {
    hide Vision;
    hide ImageIds;
    hide ImageTokens;
    hide Stride;
    hide Filled;
    hide TextIds;
    hide RunEnd;
    var sm := AtLeastOne(mergeSize);
    t, h, w := new int[|tokens|](_ => 0), new int[|tokens|](_ => 0), new int[|tokens|](_ => 0);
    var currentPos, imgIdx, i := 0, 0, 0;
    ghost var done: seq<Pos> := [];
    NoneFilled(t[..], h[..], w[..]);
    NothingPrepended(RopeIndex(tokens, img, grids, sm));
    while i < |tokens|
      invariant i <= |tokens| && imgIdx <= |grids| && |done| == i && Filled(done, t[..], h[..], w[..])
      invariant t.Length == h.Length == w.Length == |tokens|
      invariant RopeIndex(tokens, img, grids, sm) == Prepend(done, Ids(tokens, img, grids, sm, i, currentPos, imgIdx))
      decreases |tokens| - i
    {
      var isImg := tokens[i] == img;
      var end := EndOfRun(tokens, img, isImg, i);
      if !isImg {
        var run := TextIds(currentPos, end - i);
        PrependTwice(done, run, Ids(tokens, img, grids, sm, end, currentPos + (end - i), imgIdx));
        WriteRun(run, done, i, t, h, w);
        done, currentPos := done + run, currentPos + (end - i);
      } else {
        if imgIdx == |grids| {
          return [MissingGrid], t, h, w;
        }
        var grid := grids[imgIdx];
        if ImageTokens(grid, sm) != end - i {
          return [WrongLength], t, h, w;
        }
        var run := ImageRun(currentPos, grid, sm);
        PrependTwice(done, run, Ids(tokens, img, grids, sm, end, currentPos + Stride(grid, sm), imgIdx + 1));
        WriteRun(run, done, i, t, h, w);
        done, currentPos, imgIdx := done + run, currentPos + Stride(grid, sm), imgIdx + 1;
      }
      i := end;
    }
    if imgIdx != |grids| {
      return [ExtraGrids], t, h, w;
    }
    AllFilled(done, t[..], h[..], w[..]);
    return [], t, h, w;
  }

  /** The image's three component lists, joined cell by cell. */
  method ImageRun(pos: int, grid: Grid, sm: nat) returns (run: seq<Pos>)
    requires sm > 0
    ensures run == ImageIds(pos, grid, sm) && |run| == ImageTokens(grid, sm)
  {
    hide Vision;
    hide ImageTokens;
    var t, h, w := VisionPositionIds(pos, grid, 1, sm, 1);
    ImageIdsLength(pos, grid, sm);
    Joined(ImageIds(pos, grid, sm), t, h, w);
    run := seq(|t|, k requires 0 <= k < |t| && |t| == |h| == |w| => Pos(t[k], h[k], w[k]));
  }

  lemma Joined(ids: seq<Pos>, t: seq<int>, h: seq<int>, w: seq<int>)
    requires Components(ids, t, h, w)
    ensures |t| == |h| == |w| == |ids|
    ensures seq(|t|, k requires 0 <= k < |t| && |t| == |h| == |w| => Pos(t[k], h[k], w[k])) == ids
  {
  }

  lemma NoneFilled(t: seq<int>, h: seq<int>, w: seq<int>)
    requires |t| == |h| == |w|
    ensures Filled([], t, h, w)
  {
  }

  lemma AllFilled(done: seq<Pos>, t: seq<int>, h: seq<int>, w: seq<int>)
    requires Filled(done, t, h, w) && |done| == |t|
    ensures Components(done, t, h, w) && done + [] == done
  {
    assert t[..|t|] == t && h[..|h|] == h && w[..|w|] == w;
  }

  lemma NothingPrepended(r: Outcome)
    ensures Prepend([], r) == r
  {
    if r.Placed? {
      assert [] + r.ids == r.ids;
    }
  }

  lemma PrependTwice(a: seq<Pos>, b: seq<Pos>, r: Outcome)
    ensures Prepend(a, Prepend(b, r)) == Prepend(a + b, r)
  {
    if r.Placed? {
      assert a + (b + r.ids) == a + b + r.ids;
    }
  }

  // ----- When it succeeds -----

  /** The lengths of the maximal image runs among the first `n` tokens. */
  function RunLengths(tokens: seq<nat>, img: nat, n: nat): seq<nat>
    requires n <= |tokens|
  {
    if n == 0 then []
    else
      var before := RunLengths(tokens, img, n - 1);
      if tokens[n - 1] != img then before
      else if n >= 2 && tokens[n - 2] == img && before != [] then before[|before| - 1 := before[|before| - 1] + 1]
      else before + [1]
  }

  function Expected(grids: seq<Grid>, sm: nat): (r: seq<nat>)
    requires sm > 0
    ensures |r| == |grids|
  {
    seq(|grids|, k requires 0 <= k < |grids| => ImageTokens(grids[k], sm))
  }

  /** No run is cut at `i`. */
  predicate Boundary(tokens: seq<nat>, img: nat, i: nat) {
    i == 0 || i >= |tokens| || (tokens[i - 1] == img) != (tokens[i] == img)
  }

  lemma {:induction false} RunLengthsEndInImage(tokens: seq<nat>, img: nat, n: nat)
    requires 0 < n <= |tokens| && tokens[n - 1] == img
    ensures RunLengths(tokens, img, n) != []
  {
  }

  lemma {:induction false} TextRunAddsNone(tokens: seq<nat>, img: nat, i: nat, e: nat)
    requires i <= e <= |tokens| && forall q :: i <= q < e ==> tokens[q] != img
    ensures RunLengths(tokens, img, e) == RunLengths(tokens, img, i)
    decreases e - i
  {
    if i < e {
      TextRunAddsNone(tokens, img, i, e - 1);
    }
  }

  lemma {:induction false} ImageRunAddsOne(tokens: seq<nat>, img: nat, i: nat, e: nat)
    requires i < e <= |tokens| && Boundary(tokens, img, i) && forall q :: i <= q < e ==> tokens[q] == img
    ensures RunLengths(tokens, img, e) == RunLengths(tokens, img, i) + [e - i]
    decreases e - i
  {
    if i < e - 1 {
      ImageRunAddsOne(tokens, img, i, e - 1);
      assert tokens[e - 2] == img;
    }
  }

  lemma NextLength(done: seq<nat>, x: nat, y: nat, tail: seq<nat>, all: seq<nat>)
    requires done + [x] <= all
    ensures (x == y && all == done + [x] + tail) <==> all == done + ([y] + tail)
    ensures all != done + []
  {
    assert all[|done|] == x;
    assert done + [y] + tail == done + ([y] + tail);
    assert (done + ([y] + tail))[|done|] == y;
  }

  /** Completed runs stay. */
  lemma {:induction false} RunLengthsGrow(tokens: seq<nat>, img: nat, i: nat)
    requires i <= |tokens| && Boundary(tokens, img, i)
    ensures RunLengths(tokens, img, i) <= RunLengths(tokens, img, |tokens|)
    decreases |tokens| - i
  {
    hide RunLengths;
    if i < |tokens| {
      var isImg := tokens[i] == img;
      var e := RunEnd(tokens, img, isImg, i);
      RunLengthsGrow(tokens, img, e);
      if isImg {
        ImageRunAddsOne(tokens, img, i, e);
      } else {
        TextRunAddsNone(tokens, img, i, e);
      }
    }
  }

  /** From a run boundary on, the ids exist exactly when the remaining runs have the
      lengths of the remaining grids. */
  lemma {:induction false} PlacedIffFrom(tokens: seq<nat>, img: nat, grids: seq<Grid>, sm: nat, i: nat, pos: int, k: nat)
    requires sm > 0 && i <= |tokens| && k <= |grids| && Boundary(tokens, img, i)
    ensures Ids(tokens, img, grids, sm, i, pos, k).Placed?
       <==> RunLengths(tokens, img, |tokens|) == RunLengths(tokens, img, i) + Expected(grids, sm)[k..]
    decreases |tokens| - i
  {
    hide RunLengths;
    hide ImageTokens;
    hide ImageIds;
    hide Stride;
    var all, want, done := RunLengths(tokens, img, |tokens|), Expected(grids, sm), RunLengths(tokens, img, i);
    if i == |tokens| {
      assert k == |grids| ==> done + want[k..] == done;
    } else {
      var isImg := tokens[i] == img;
      var e := RunEnd(tokens, img, isImg, i);
      if !isImg {
        TextRunAddsNone(tokens, img, i, e);
        PlacedIffFrom(tokens, img, grids, sm, e, pos + (e - i), k);
      } else {
        ImageRunAddsOne(tokens, img, i, e);
        RunLengthsGrow(tokens, img, e);
        if k < |grids| {
          PlacedIffFrom(tokens, img, grids, sm, e, pos + Stride(grids[k], sm), k + 1);
          assert want[k..] == [ImageTokens(grids[k], sm)] + want[k + 1..];
          NextLength(done, e - i, ImageTokens(grids[k], sm), want[k + 1..], all);
        } else {
          NextLength(done, e - i, 0, [], all);
        }
      }
    }
  }

  /** Success exactly when the image runs match the grids in number and in length. */
  lemma PlacedIff(tokens: seq<nat>, img: nat, grids: seq<Grid>, sm: nat)
    requires sm > 0
    ensures RopeIndex(tokens, img, grids, sm).Placed? <==> RunLengths(tokens, img, |tokens|) == Expected(grids, sm)
  {
    PlacedIffFrom(tokens, img, grids, sm, 0, 0, 0);
    assert [] + Expected(grids, sm)[0..] == Expected(grids, sm);
  }

  // ----- Positions are distinct -----

  predicate Distinct(ids: seq<Pos>) {
    forall a, b :: 0 <= a < b < |ids| ==> ids[a] != ids[b]
  }

  /** All height ids lie in [lo, hi). */
  predicate HeightsIn(ids: seq<Pos>, lo: int, hi: int) {
    forall k :: 0 <= k < |ids| ==> lo <= ids[k].h < hi
  }

  lemma StrideCovers(grid: Grid, sm: nat)
    requires sm > 0
    ensures Stride(grid, sm) >= grid.h / sm && Stride(grid, sm) >= grid.w / sm
    ensures Stride(grid, sm) == Max(grid.h / sm, grid.w / sm)
  {
    DivGrows(grid.h, Max(grid.h, grid.w), sm);
    DivGrows(grid.w, Max(grid.h, grid.w), sm);
  }

  lemma DivGrows(a: nat, b: nat, sm: nat)
    requires sm > 0 && a <= b
    ensures a / sm <= b / sm
  {
    var q, r := a / sm, b / sm;
    assert a == q * sm + a % sm && b == r * sm + b % sm;
    if r < q {
      MulMono(r + 1, q, sm);
    }
  }

  lemma ImageIsDistinct(pos: int, grid: Grid, sm: nat)
    requires sm > 0
    ensures Distinct(ImageIds(pos, grid, sm)) && HeightsIn(ImageIds(pos, grid, sm), pos, pos + Stride(grid, sm))
  {
    hide Stride;
    hide Vision;
    var t, h, w := grid.t, grid.h / sm, grid.w / sm;
    var ids := Vision(pos, t, h, w, 1);
    StrideCovers(grid, sm);
    forall k: nat | k < |ids| ensures pos <= ids[k].h < pos + Stride(grid, sm) {
      var ti, r, c := VisionAt(pos, t, h, w, 1, k);
    }
    forall a: nat, b: nat | a < b < |ids| ensures ids[a] != ids[b] {
      CellsDiffer(pos, t, h, w, a, b);
    }
  }

  lemma CellsDiffer(pos: int, t: nat, h: nat, w: nat, a: nat, b: nat)
    requires a < b < |Vision(pos, t, h, w, 1)|
    ensures Vision(pos, t, h, w, 1)[a] != Vision(pos, t, h, w, 1)[b]
  {
    hide Vision;
    hide Ix;
    var ta, ra, ca := VisionAt(pos, t, h, w, 1, a);
    var tb, rb, cb := VisionAt(pos, t, h, w, 1, b);
  }

  lemma DistinctJoin(run: seq<Pos>, rest: seq<Pos>, lo: int, mid: int)
    requires lo <= mid && Distinct(run) && Distinct(rest) && HeightsIn(run, lo, mid)
    requires forall k :: 0 <= k < |rest| ==> mid <= rest[k].h
    ensures Distinct(run + rest) && forall k :: 0 <= k < |run + rest| ==> lo <= (run + rest)[k].h
  {
    var all := run + rest;
    forall a, b | 0 <= a < b < |all| ensures all[a] != all[b] {
      if a < |run| && b >= |run| {
        assert all[a] == run[a] && all[b] == rest[b - |run|];
      }
    }
  }

  lemma {:induction false} DistinctFrom(tokens: seq<nat>, img: nat, grids: seq<Grid>, sm: nat, i: nat, pos: int, k: nat)
    requires sm > 0 && i <= |tokens| && k <= |grids| && Ids(tokens, img, grids, sm, i, pos, k).Placed?
    ensures
      var ids := Ids(tokens, img, grids, sm, i, pos, k).ids;
      Distinct(ids) && forall q :: 0 <= q < |ids| ==> pos <= ids[q].h
    decreases |tokens| - i
  {
    hide ImageIds;
    hide ImageTokens;
    hide Stride;
    hide Distinct;
    if i == |tokens| {
      NoneDistinct();
    } else {
      var isImg := tokens[i] == img;
      var e := RunEnd(tokens, img, isImg, i);
      var run := if isImg then ImageIds(pos, grids[k], sm) else TextIds(pos, e - i);
      var next := if isImg then pos + Stride(grids[k], sm) else pos + (e - i);
      var k' := if isImg then k + 1 else k;
      if isImg {
        ImageIsDistinct(pos, grids[k], sm);
      } else {
        TextIsDistinct(pos, e - i);
      }
      DistinctFrom(tokens, img, grids, sm, e, next, k');
      DistinctJoin(run, Ids(tokens, img, grids, sm, e, next, k').ids, pos, next);
    }
  }

  lemma NoneDistinct()
    ensures Distinct([])
  {
  }

  lemma TextIsDistinct(pos: int, n: nat)
    ensures Distinct(TextIds(pos, n)) && HeightsIn(TextIds(pos, n), pos, pos + n)
  {
  }

  /** No two tokens of a sequence share a (T, H, W) triple, whatever the grids. */
  lemma PositionsAreDistinct(tokens: seq<nat>, img: nat, grids: seq<Grid>, sm: nat)
    requires sm > 0 && RopeIndex(tokens, img, grids, sm).Placed?
    ensures Distinct(RopeIndex(tokens, img, grids, sm).ids)
  {
    DistinctFrom(tokens, img, grids, sm, 0, 0, 0);
  }

  // ----- Continuing a sequence -----

  /** The largest component among the first `n` ids, or -1. */
  function MaxComponent(ids: seq<Pos>, n: nat): (r: int)
    requires n <= |ids|
    ensures r >= -1
    ensures forall k :: 0 <= k < n ==> ids[k].t <= r && ids[k].h <= r && ids[k].w <= r
    ensures r == -1 || exists k :: 0 <= k < n && (ids[k].t == r || ids[k].h == r || ids[k].w == r)
  {
    if n == 0 then -1
    else Max(MaxComponent(ids, n - 1), Max(ids[n - 1].t, Max(ids[n - 1].h, ids[n - 1].w)))
  }

  function PositionDelta(ids: seq<Pos>): int {
    MaxComponent(ids, |ids|) + 1 - |ids|
  }

  /** The counter after the last run. */
  function EndPos(tokens: seq<nat>, img: nat, grids: seq<Grid>, sm: nat, i: nat, pos: int, k: nat): int
    requires sm > 0 && i <= |tokens| && k <= |grids|
    decreases |tokens| - i
  {
    if i == |tokens| then pos
    else
      var isImg := tokens[i] == img;
      var e := RunEnd(tokens, img, isImg, i);
      assert e > i;
      if !isImg then EndPos(tokens, img, grids, sm, e, pos + (e - i), k)
      else if k == |grids| then pos
      else EndPos(tokens, img, grids, sm, e, pos + Stride(grids[k], sm), k + 1)
  }

  lemma {:induction false} RunEndAppended(tokens: seq<nat>, x: nat, img: nat, isImg: bool, j: nat)
    requires j <= |tokens| && x != img
    ensures
      var e := RunEnd(tokens, img, isImg, j);
      RunEnd(tokens + [x], img, isImg, j) == if e == |tokens| && !isImg then e + 1 else e
    decreases |tokens| - j
  {
    if j < |tokens| {
      assert (tokens + [x])[j] == tokens[j];
      RunEndAppended(tokens, x, img, isImg, j + 1);
    } else {
      assert (tokens + [x])[j] == x;
    }
  }

  lemma OneMoreText(pos: int, n: nat)
    ensures TextIds(pos, n + 1) == TextIds(pos, n) + [Pos(pos + n, pos + n, pos + n)]
  {
  }

  /** An appended text token gets the end position; the earlier ids stay. */
  lemma {:induction false} AppendedFrom(tokens: seq<nat>, x: nat, img: nat, grids: seq<Grid>, sm: nat, i: nat, pos: int, k: nat)
    requires sm > 0 && i <= |tokens| && k <= |grids| && x != img && Ids(tokens, img, grids, sm, i, pos, k).Placed?
    ensures
      var e := EndPos(tokens, img, grids, sm, i, pos, k);
      Ids(tokens + [x], img, grids, sm, i, pos, k) == Placed(Ids(tokens, img, grids, sm, i, pos, k).ids + [Pos(e, e, e)])
    decreases |tokens| - i
  {
    hide ImageIds;
    hide ImageTokens;
    hide Stride;
    hide TextIds;
    hide RunEnd;
    var longer := tokens + [x];
    if i == |tokens| {
      AppendedToNothing(tokens, x, img, grids, sm, pos, k);
    } else {
      var isImg := tokens[i] == img;
      assert longer[i] == tokens[i];
      RunEndAppended(tokens, x, img, isImg, i);
      var e := RunEnd(tokens, img, isImg, i);
      if isImg {
        var next := pos + Stride(grids[k], sm);
        AppendedFrom(tokens, x, img, grids, sm, e, next, k + 1);
        JoinAssoc(ImageIds(pos, grids[k], sm), Ids(tokens, img, grids, sm, e, next, k + 1).ids,
                  EndPos(tokens, img, grids, sm, e, next, k + 1));
      } else if e < |tokens| {
        AppendedFrom(tokens, x, img, grids, sm, e, pos + (e - i), k);
        JoinAssoc(TextIds(pos, e - i), Ids(tokens, img, grids, sm, e, pos + (e - i), k).ids,
                  EndPos(tokens, img, grids, sm, e, pos + (e - i), k));
      } else {
        OneMoreText(pos, e - i);
        assert TextIds(pos, e - i) + [] == TextIds(pos, e - i);
        assert TextIds(pos, e - i + 1) + [] == TextIds(pos, e - i + 1);
      }
    }
  }

  lemma JoinAssoc(run: seq<Pos>, rest: seq<Pos>, e: int)
    ensures run + (rest + [Pos(e, e, e)]) == run + rest + [Pos(e, e, e)]
  {
  }

  lemma AppendedToNothing(tokens: seq<nat>, x: nat, img: nat, grids: seq<Grid>, sm: nat, pos: int, k: nat)
    requires sm > 0 && k == |grids| && x != img
    ensures Ids(tokens + [x], img, grids, sm, |tokens|, pos, k) == Placed([Pos(pos, pos, pos)])
  {
    var longer, n := tokens + [x], |tokens|;
    assert longer[n] == x;
    RunEndAppended(tokens, x, img, false, n);
    assert TextIds(pos, 1) == [Pos(pos, pos, pos)];
    assert TextIds(pos, 1) + [] == TextIds(pos, 1);
  }

  /** Height and width ids stay below the end. */
  predicate SpatialBelow(ids: seq<Pos>, e: int) {
    forall q :: 0 <= q < |ids| ==> ids[q].h < e && ids[q].w < e
  }

  predicate TemporalBelow(ids: seq<Pos>, e: int) {
    forall q :: 0 <= q < |ids| ==> ids[q].t < e
  }

  predicate Touches(ids: seq<Pos>, e: int) {
    exists q :: 0 <= q < |ids| && (ids[q].h == e - 1 || ids[q].w == e - 1)
  }

  lemma ImageBelow(pos: int, grid: Grid, sm: nat)
    requires sm > 0
    ensures SpatialBelow(ImageIds(pos, grid, sm), pos + Stride(grid, sm))
    ensures ImageTokens(grid, sm) > 0 ==> Touches(ImageIds(pos, grid, sm), pos + Stride(grid, sm))
  {
    hide Vision;
    hide Stride;
    var t, h, w := grid.t, grid.h / sm, grid.w / sm;
    var ids := Vision(pos, t, h, w, 1);
    StrideCovers(grid, sm);
    forall q: nat | q < |ids|
      ensures ids[q].h < pos + Stride(grid, sm) && ids[q].w < pos + Stride(grid, sm)
    {
      var ti, r, c := VisionAt(pos, t, h, w, 1, q);
    }
    if ImageTokens(grid, sm) > 0 {
      CornerTouches(pos, t, h, w);
    }
  }

  lemma CornerTouches(pos: int, t: nat, h: nat, w: nat)
    requires t > 0 && h > 0 && w > 0
    ensures Touches(Vision(pos, t, h, w, 1), pos + Max(h, w))
  {
    hide Nest;
    hide Ix;
    var n := VisionBounds(t, h, w);
    NestAt(n, VisionOf(pos, 1), 0, 0, h - 1, w - 1);
    assert Vision(pos, t, h, w, 1)[n.At(0, 0, h - 1, w - 1)] == Pos(pos, h - 1 + pos, w - 1 + pos);
  }

  lemma {:induction false} EndGrows(tokens: seq<nat>, img: nat, grids: seq<Grid>, sm: nat, i: nat, pos: int, k: nat)
    requires sm > 0 && i <= |tokens| && k <= |grids|
    ensures EndPos(tokens, img, grids, sm, i, pos, k) >= pos
    decreases |tokens| - i
  {
    hide Stride;
    if i < |tokens| {
      var isImg := tokens[i] == img;
      var e := RunEnd(tokens, img, isImg, i);
      if !isImg {
        EndGrows(tokens, img, grids, sm, e, pos + (e - i), k);
      } else if k < |grids| {
        EndGrows(tokens, img, grids, sm, e, pos + Stride(grids[k], sm), k + 1);
      }
    }
  }

  lemma BelowJoin(run: seq<Pos>, rest: seq<Pos>, mid: int, e: int)
    requires mid <= e && SpatialBelow(run, mid) && SpatialBelow(rest, e)
    ensures SpatialBelow(run + rest, e)
    ensures Touches(rest, e) || (rest == [] && mid == e && Touches(run, e)) ==> Touches(run + rest, e)
  {
    var all := run + rest;
    if Touches(rest, e) {
      var q :| 0 <= q < |rest| && (rest[q].h == e - 1 || rest[q].w == e - 1);
      assert all[|run| + q] == rest[q];
    }
    assert rest == [] ==> all == run;
  }

  lemma TextBelow(pos: int, n: nat)
    requires n > 0
    ensures SpatialBelow(TextIds(pos, n), pos + n) && Touches(TextIds(pos, n), pos + n)
  {
    assert TextIds(pos, n)[n - 1] == Pos(pos + n - 1, pos + n - 1, pos + n - 1);
  }

  /** The end position is one more than the largest spatial id. */
  lemma {:induction false} EndBounds(tokens: seq<nat>, img: nat, grids: seq<Grid>, sm: nat, i: nat, pos: int, k: nat)
    requires sm > 0 && i <= |tokens| && k <= |grids| && Ids(tokens, img, grids, sm, i, pos, k).Placed?
    ensures
      var ids, e := Ids(tokens, img, grids, sm, i, pos, k).ids, EndPos(tokens, img, grids, sm, i, pos, k);
      && SpatialBelow(ids, e)
      && (i < |tokens| ==> Touches(ids, e)) && |ids| == |tokens| - i
    decreases |tokens| - i
  {
    hide ImageIds;
    hide ImageTokens;
    hide Stride;
    hide TextIds;
    hide Touches;
    if i < |tokens| {
      var isImg := tokens[i] == img;
      var e := RunEnd(tokens, img, isImg, i);
      var run := if isImg then ImageIds(pos, grids[k], sm) else TextIds(pos, e - i);
      var next := if isImg then pos + Stride(grids[k], sm) else pos + (e - i);
      var k' := if isImg then k + 1 else k;
      if isImg {
        ImageBelow(pos, grids[k], sm);
        ImageIdsLength(pos, grids[k], sm);
      } else {
        TextBelow(pos, e - i);
      }
      EndBounds(tokens, img, grids, sm, e, next, k');
      EndGrows(tokens, img, grids, sm, e, next, k');
      BelowJoin(run, Ids(tokens, img, grids, sm, e, next, k').ids, next, EndPos(tokens, img, grids, sm, e, next, k'));
    }
  }

  lemma MaxIsEnd(ids: seq<Pos>, e: int)
    requires SpatialBelow(ids, e) && (Touches(ids, e) || (ids == [] && e == 0)) && e >= 0
    ensures MaxComponent(ids, |ids|) + 1 == e <==> TemporalBelow(ids, e)
  {
    var m := MaxComponent(ids, |ids|);
    if ids != [] {
      var q :| 0 <= q < |ids| && (ids[q].h == e - 1 || ids[q].w == e - 1);
      assert m >= e - 1;
    }
  }

  // ----- The counter, read off the tokens and grids -----

  /** Text tokens among the first `n`. */
  function TextBefore(tokens: seq<nat>, img: nat, n: nat): nat
    requires n <= |tokens|
  {
    if n == 0 then 0 else TextBefore(tokens, img, n - 1) + (if tokens[n - 1] == img then 0 else 1)
  }

  /** How far the first `k` images move the counter. */
  function Moved(grids: seq<Grid>, sm: nat, k: nat): nat
    requires sm > 0 && k <= |grids|
  {
    if k == 0 then 0 else Moved(grids, sm, k - 1) + Stride(grids[k - 1], sm)
  }

  /** Image runs that begin among the first `i` tokens. */
  function ImagesBefore(tokens: seq<nat>, img: nat, i: nat): nat
    requires i <= |tokens|
  {
    |RunLengths(tokens, img, i)|
  }

  predicate StartsImage(tokens: seq<nat>, img: nat, i: nat) {
    i < |tokens| && tokens[i] == img && (i == 0 || tokens[i - 1] != img)
  }

  /** The counter at the run boundary before token `i`: one for each text token, a stride for
      each image. */
  function CounterAt(tokens: seq<nat>, img: nat, grids: seq<Grid>, sm: nat, i: nat): int
    requires sm > 0 && i <= |tokens| && ImagesBefore(tokens, img, i) <= |grids|
  {
    TextBefore(tokens, img, i) + Moved(grids, sm, ImagesBefore(tokens, img, i))
  }

  /** The image that begins at token `i` has no frame at `e` or later. */
  predicate FrameFits(tokens: seq<nat>, img: nat, grids: seq<Grid>, sm: nat, i: nat, e: int)
    requires sm > 0 && i <= |tokens|
  {
    var k := ImagesBefore(tokens, img, i);
    k < |grids| ==> CounterAt(tokens, img, grids, sm, i) + grids[k].t <= e
  }

  predicate FramesFitFrom(tokens: seq<nat>, img: nat, grids: seq<Grid>, sm: nat, from: nat, e: int)
    requires sm > 0
  {
    forall i: nat :: from <= i < |tokens| && StartsImage(tokens, img, i) ==> FrameFits(tokens, img, grids, sm, i, e)
  }

  /** No image has more frames than the counter moves from its start to the end of the sequence. */
  predicate FramesFit(tokens: seq<nat>, img: nat, grids: seq<Grid>, sm: nat)
    requires sm > 0 && ImagesBefore(tokens, img, |tokens|) <= |grids|
  {
    FramesFitFrom(tokens, img, grids, sm, 0, CounterAt(tokens, img, grids, sm, |tokens|))
  }

  lemma {:induction false} TextCounted(tokens: seq<nat>, img: nat, i: nat, e: nat, isImg: bool)
    requires i <= e <= |tokens| && forall q :: i <= q < e ==> (tokens[q] == img) == isImg
    ensures TextBefore(tokens, img, e) == TextBefore(tokens, img, i) + (if isImg then 0 else e - i)
    decreases e - i
  {
    if i < e {
      TextCounted(tokens, img, i, e - 1, isImg);
    }
  }

  /** One run moves the counter as the loop does. */
  lemma CounterMoves(tokens: seq<nat>, img: nat, grids: seq<Grid>, sm: nat, i: nat)
    requires sm > 0 && i < |tokens| && Boundary(tokens, img, i) && ImagesBefore(tokens, img, i) <= |grids|
    ensures
      var isImg, k := tokens[i] == img, ImagesBefore(tokens, img, i);
      var e := RunEnd(tokens, img, isImg, i);
      && Boundary(tokens, img, e) && ImagesBefore(tokens, img, e) == (if isImg then k + 1 else k)
      && (isImg && k < |grids| ==>
            CounterAt(tokens, img, grids, sm, e) == CounterAt(tokens, img, grids, sm, i) + Stride(grids[k], sm))
      && (!isImg ==> CounterAt(tokens, img, grids, sm, e) == CounterAt(tokens, img, grids, sm, i) + (e - i))
  {
    hide RunLengths;
    hide Stride;
    var isImg := tokens[i] == img;
    var e := RunEnd(tokens, img, isImg, i);
    TextCounted(tokens, img, i, e, isImg);
    if isImg {
      ImageRunAddsOne(tokens, img, i, e);
    } else {
      TextRunAddsNone(tokens, img, i, e);
    }
  }

  /** The end position of a placed sequence: its text tokens and all its strides. */
  lemma {:induction false} EndIsCounter(tokens: seq<nat>, img: nat, grids: seq<Grid>, sm: nat, i: nat, pos: int, k: nat)
    requires sm > 0 && i <= |tokens| && k <= |grids| && Boundary(tokens, img, i) && k == ImagesBefore(tokens, img, i)
    requires pos == CounterAt(tokens, img, grids, sm, i) && Ids(tokens, img, grids, sm, i, pos, k).Placed?
    ensures ImagesBefore(tokens, img, |tokens|) == |grids|
    ensures EndPos(tokens, img, grids, sm, i, pos, k) == CounterAt(tokens, img, grids, sm, |tokens|)
    decreases |tokens| - i
  {
    hide ImagesBefore;
    hide CounterAt;
    hide ImageIds;
    hide ImageTokens;
    hide Stride;
    hide TextIds;
    if i < |tokens| {
      CounterMoves(tokens, img, grids, sm, i);
      var isImg := tokens[i] == img;
      var e := RunEnd(tokens, img, isImg, i);
      if isImg {
        EndIsCounter(tokens, img, grids, sm, e, pos + Stride(grids[k], sm), k + 1);
      } else {
        EndIsCounter(tokens, img, grids, sm, e, pos + (e - i), k);
      }
    }
  }

  // ----- Every token's id -----

  /** Where the run of image tokens that holds token `q` begins. */
  function RunStart(tokens: seq<nat>, img: nat, q: nat): (b: nat)
    requires q < |tokens| && tokens[q] == img
    ensures b <= q && StartsImage(tokens, img, b)
    ensures forall i :: b <= i <= q ==> tokens[i] == img
  {
    if q == 0 || tokens[q - 1] != img then q else RunStart(tokens, img, q - 1)
  }

  /** The id of cell `o` of an image at counter `c`: frame, row and column, column fastest. */
  predicate CellId(p: Pos, c: int, grid: Grid, sm: nat, o: nat)
    requires sm > 0
  {
    var h, w := grid.h / sm, grid.w / sm;
    h > 0 && w > 0 && p == Pos(c + o / w / h, c + o / w % h, c + o % w)
  }

  /** A text token's id is the counter before it three times; an image token's is that of its cell, at
      the counter before its image. */
  predicate IdIs(tokens: seq<nat>, img: nat, grids: seq<Grid>, sm: nat, q: nat, p: Pos)
    requires sm > 0 && q < |tokens|
  {
    if tokens[q] != img then
      ImagesBefore(tokens, img, q) <= |grids|
      && var c := CounterAt(tokens, img, grids, sm, q); p == Pos(c, c, c)
    else
      var b := RunStart(tokens, img, q);
      ImagesBefore(tokens, img, b) < |grids|
      && CellId(p, CounterAt(tokens, img, grids, sm, b), grids[ImagesBefore(tokens, img, b)], sm, q - b)
  }

  lemma ImageCell(pos: int, grid: Grid, sm: nat, o: nat)
    requires sm > 0 && o < |ImageIds(pos, grid, sm)|
    ensures CellId(ImageIds(pos, grid, sm)[o], pos, grid, sm, o)
  {
    hide Vision;
    var t, h, w := grid.t, grid.h / sm, grid.w / sm;
    var ti, r, c := VisionAt(pos, t, h, w, 1, o);
    AtIs(t, h, w, ti, r, c);
    IxSplit(Ix(ti, r, h), c, w);
    IxSplit(ti, r, h);
  }

  lemma AtIs(t: nat, h: nat, w: nat, ti: nat, r: nat, c: nat)
    ensures VisionBounds(t, h, w).At(0, ti, r, c) == Ix(Ix(ti, r, h), c, w)
  {
  }

  lemma {:induction false} StartOfRun(tokens: seq<nat>, img: nat, i: nat, q: nat)
    requires i <= q < |tokens| && Boundary(tokens, img, i) && forall k :: i <= k <= q ==> tokens[k] == img
    ensures RunStart(tokens, img, q) == i
    decreases q
  {
    if i < q {
      StartOfRun(tokens, img, i, q - 1);
    }
  }

  /** A token inside the run that begins at `i`. */
  lemma IdInRun(tokens: seq<nat>, img: nat, grids: seq<Grid>, sm: nat, i: nat, q: nat, p: Pos)
    requires sm > 0 && i <= q < |tokens| && Boundary(tokens, img, i) && ImagesBefore(tokens, img, i) <= |grids|
    requires forall k :: i <= k <= q ==> (tokens[k] == img) == (tokens[i] == img)
    requires var c := CounterAt(tokens, img, grids, sm, i);
      if tokens[i] == img then
        var k := ImagesBefore(tokens, img, i); k < |grids| && CellId(p, c, grids[k], sm, q - i)
      else p == Pos(c + (q - i), c + (q - i), c + (q - i))
    ensures IdIs(tokens, img, grids, sm, q, p)
  {
    hide RunLengths;
    hide CellId;
    if tokens[i] == img {
      StartOfRun(tokens, img, i, q);
    } else {
      TextCounted(tokens, img, i, q, false);
      TextRunAddsNone(tokens, img, i, q);
    }
  }

  lemma {:induction false} IdsAreFrom(tokens: seq<nat>, img: nat, grids: seq<Grid>, sm: nat, i: nat, pos: int, k: nat, q: nat)
    requires sm > 0 && i <= q < |tokens| && k <= |grids| && Boundary(tokens, img, i) && k == ImagesBefore(tokens, img, i)
    requires pos == CounterAt(tokens, img, grids, sm, i) && Ids(tokens, img, grids, sm, i, pos, k).Placed?
    ensures var ids := Ids(tokens, img, grids, sm, i, pos, k).ids;
      q - i < |ids| && IdIs(tokens, img, grids, sm, q, ids[q - i])
    decreases |tokens| - i
  {
    hide ImagesBefore;
    hide CounterAt;
    hide ImageIds;
    hide ImageTokens;
    hide Stride;
    hide TextIds;
    hide IdIs;
    hide CellId;
    CounterMoves(tokens, img, grids, sm, i);
    var isImg := tokens[i] == img;
    var e := RunEnd(tokens, img, isImg, i);
    var run := if isImg then ImageIds(pos, grids[k], sm) else TextIds(pos, e - i);
    if isImg {
      ImageIdsLength(pos, grids[k], sm);
    }
    if q < e {
      if isImg {
        ImageCell(pos, grids[k], sm, q - i);
      } else {
        TextIdAt(pos, e - i, q - i);
      }
      IdInRun(tokens, img, grids, sm, i, q, run[q - i]);
    } else if isImg {
      IdsAreFrom(tokens, img, grids, sm, e, pos + Stride(grids[k], sm), k + 1, q);
    } else {
      IdsAreFrom(tokens, img, grids, sm, e, pos + (e - i), k, q);
    }
  }

  lemma TextIdAt(pos: int, n: nat, o: nat)
    requires o < n
    ensures TextIds(pos, n)[o] == Pos(pos + o, pos + o, pos + o)
  {
  }

  /** The id of every token of a placed sequence, read off the tokens and the grids. */
  lemma IdsAre(tokens: seq<nat>, img: nat, grids: seq<Grid>, sm: nat, q: nat)
    requires sm > 0 && q < |tokens| && RopeIndex(tokens, img, grids, sm).Placed?
    ensures var ids := RopeIndex(tokens, img, grids, sm).ids;
      q < |ids| && IdIs(tokens, img, grids, sm, q, ids[q])
  {
    IdsAreFrom(tokens, img, grids, sm, 0, 0, 0, q);
  }

  /** An image's temporal ids stay below `e` exactly when its start plus its frames does. */
  lemma ImageFrames(pos: int, grid: Grid, sm: nat, e: int)
    requires sm > 0 && ImageTokens(grid, sm) > 0
    ensures TemporalBelow(ImageIds(pos, grid, sm), e) <==> pos + grid.t <= e
  {
    hide Vision;
    var t, h, w := grid.t, grid.h / sm, grid.w / sm;
    var ids := Vision(pos, t, h, w, 1);
    if pos + t <= e {
      forall q: nat | q < |ids| ensures ids[q].t < e {
        var ti, r, c := VisionAt(pos, t, h, w, 1, q);
      }
    } else {
      LastFrame(pos, t, h, w);
    }
  }

  lemma LastFrame(pos: int, t: nat, h: nat, w: nat)
    requires t > 0 && h > 0 && w > 0
    ensures exists q :: 0 <= q < |Vision(pos, t, h, w, 1)| && Vision(pos, t, h, w, 1)[q].t == pos + t - 1
  {
    hide Nest;
    hide Ix;
    var n := VisionBounds(t, h, w);
    NestAt(n, VisionOf(pos, 1), 0, t - 1, 0, 0);
    assert Vision(pos, t, h, w, 1)[n.At(0, t - 1, 0, 0)] == Pos(t - 1 + pos, pos, pos);
  }

  lemma TemporalJoin(run: seq<Pos>, rest: seq<Pos>, e: int)
    ensures TemporalBelow(run + rest, e) <==> TemporalBelow(run, e) && TemporalBelow(rest, e)
  {
    var all := run + rest;
    if TemporalBelow(all, e) {
      forall q | 0 <= q < |rest| ensures rest[q].t < e {
        assert all[|run| + q] == rest[q];
      }
      forall q | 0 <= q < |run| ensures run[q].t < e {
        assert all[q] == run[q];
      }
    }
  }

  /** Only a run's first token can begin an image. */
  lemma FramesOfRun(tokens: seq<nat>, img: nat, grids: seq<Grid>, sm: nat, i: nat, e: int)
    requires sm > 0 && i < |tokens| && Boundary(tokens, img, i)
    ensures
      var isImg := tokens[i] == img;
      FramesFitFrom(tokens, img, grids, sm, i, e)
      <==> FramesFitFrom(tokens, img, grids, sm, RunEnd(tokens, img, isImg, i), e)
           && (isImg ==> FrameFits(tokens, img, grids, sm, i, e))
  {
    hide FrameFits;
    var isImg := tokens[i] == img;
    var next := RunEnd(tokens, img, isImg, i);
    forall q: nat | i < q < next ensures !StartsImage(tokens, img, q) {
      assert (tokens[q - 1] == img) == isImg;
    }
    assert StartsImage(tokens, img, i) <==> isImg;
    if FramesFitFrom(tokens, img, grids, sm, next, e) && (isImg ==> FrameFits(tokens, img, grids, sm, i, e)) {
      forall q: nat | i <= q && StartsImage(tokens, img, q) ensures FrameFits(tokens, img, grids, sm, q, e) {
        assert q == i || q >= next;
      }
    }
  }

  /** From a run boundary on, the temporal ids stay below a bound past the end exactly when every
      image's frames do. */
  lemma {:induction false} FramesIff(tokens: seq<nat>, img: nat, grids: seq<Grid>, sm: nat, i: nat, pos: int, k: nat, bound: int)
    requires sm > 0 && i <= |tokens| && k <= |grids| && Boundary(tokens, img, i) && k == ImagesBefore(tokens, img, i)
    requires pos == CounterAt(tokens, img, grids, sm, i) && Ids(tokens, img, grids, sm, i, pos, k).Placed?
    requires EndPos(tokens, img, grids, sm, i, pos, k) <= bound
    ensures TemporalBelow(Ids(tokens, img, grids, sm, i, pos, k).ids, bound)
       <==> FramesFitFrom(tokens, img, grids, sm, i, bound)
    decreases |tokens| - i
  {
    hide ImagesBefore;
    hide CounterAt;
    hide ImageIds;
    hide ImageTokens;
    hide Stride;
    hide FramesFitFrom;
    hide TextIds;
    if i == |tokens| {
      NoFrames(tokens, img, grids, sm, bound);
    } else {
      CounterMoves(tokens, img, grids, sm, i);
      var isImg := tokens[i] == img;
      var e := RunEnd(tokens, img, isImg, i);
      FramesOfRun(tokens, img, grids, sm, i, bound);
      if isImg {
        var next := pos + Stride(grids[k], sm);
        FramesIff(tokens, img, grids, sm, e, next, k + 1, bound);
        ImageFrames(pos, grids[k], sm, bound);
        TemporalJoin(ImageIds(pos, grids[k], sm), Ids(tokens, img, grids, sm, e, next, k + 1).ids, bound);
      } else {
        var next := pos + (e - i);
        FramesIff(tokens, img, grids, sm, e, next, k, bound);
        EndGrows(tokens, img, grids, sm, e, next, k);
        TextFrames(pos, e - i, bound);
        TemporalJoin(TextIds(pos, e - i), Ids(tokens, img, grids, sm, e, next, k).ids, bound);
      }
    }
  }

  lemma NoFrames(tokens: seq<nat>, img: nat, grids: seq<Grid>, sm: nat, bound: int)
    requires sm > 0
    ensures TemporalBelow([], bound) && FramesFitFrom(tokens, img, grids, sm, |tokens|, bound)
  {
  }

  lemma TextFrames(pos: int, n: nat, bound: int)
    requires pos + n <= bound
    ensures TemporalBelow(TextIds(pos, n), bound)
  {
  }

  /** Continuation: a text token appended to a placed sequence gets the counter's end position,
      with the earlier ids unchanged; `seq_len + position_delta` is that position exactly when no
      image has more frames than the counter moves from its start to the end. */
  lemma ContinuationIff(tokens: seq<nat>, x: nat, img: nat, grids: seq<Grid>, sm: nat)
    requires sm > 0 && x != img && RopeIndex(tokens, img, grids, sm).Placed?
    ensures ImagesBefore(tokens, img, |tokens|) == |grids|
    ensures
      var ids, e := RopeIndex(tokens, img, grids, sm).ids, CounterAt(tokens, img, grids, sm, |tokens|);
      && RopeIndex(tokens + [x], img, grids, sm) == Placed(ids + [Pos(e, e, e)])
      && (|tokens| + PositionDelta(ids) == e <==> FramesFit(tokens, img, grids, sm))
  {
    AppendedFrom(tokens, x, img, grids, sm, 0, 0, 0);
    EndBounds(tokens, img, grids, sm, 0, 0, 0);
    EndGrows(tokens, img, grids, sm, 0, 0, 0);
    EndIsCounter(tokens, img, grids, sm, 0, 0, 0);
    FramesIff(tokens, img, grids, sm, 0, 0, 0, EndPos(tokens, img, grids, sm, 0, 0, 0));
    MaxIsEnd(RopeIndex(tokens, img, grids, sm).ids, EndPos(tokens, img, grids, sm, 0, 0, 0));
  }

  /** Still images (t = 1), and any image with no more frames than its stride, continue. */
  lemma StillImagesContinue(tokens: seq<nat>, x: nat, img: nat, grids: seq<Grid>, sm: nat)
    requires sm > 0 && x != img && RopeIndex(tokens, img, grids, sm).Placed?
    requires forall k :: 0 <= k < |grids| ==> grids[k].t == 1 || grids[k].t <= Stride(grids[k], sm)
    ensures
      var ids := RopeIndex(tokens, img, grids, sm).ids;
      var p := |tokens| + PositionDelta(ids);
      RopeIndex(tokens + [x], img, grids, sm) == Placed(ids + [Pos(p, p, p)])
  {
    hide Stride;
    hide CounterAt;
    hide RopeIndex;
    ContinuationIff(tokens, x, img, grids, sm);
    PlacedIff(tokens, img, grids, sm);
    var e := CounterAt(tokens, img, grids, sm, |tokens|);
    forall i: nat | StartsImage(tokens, img, i) ensures FrameFits(tokens, img, grids, sm, i, e) {
      var k := ImagesBefore(tokens, img, i);
      if k < |grids| {
        assert RunLengths(tokens, img, |tokens|)[k] == ImageTokens(grids[k], sm);
        RunsAreNonEmpty(tokens, img, |tokens|);
        StrideIsPositive(grids[k], sm);
        StrideAhead(tokens, img, grids, sm, i);
      }
    }
  }

  /** The counter has at least an image's own stride to go. */
  lemma StrideAhead(tokens: seq<nat>, img: nat, grids: seq<Grid>, sm: nat, i: nat)
    requires sm > 0 && StartsImage(tokens, img, i) && ImagesBefore(tokens, img, i) < |grids|
    requires ImagesBefore(tokens, img, |tokens|) == |grids|
    ensures CounterAt(tokens, img, grids, sm, i) + Stride(grids[ImagesBefore(tokens, img, i)], sm)
         <= CounterAt(tokens, img, grids, sm, |tokens|)
  {
    hide Stride;
    MovedGrows(grids, sm, ImagesBefore(tokens, img, i) + 1, |grids|);
    TextGrows(tokens, img, i, |tokens|);
  }

  lemma {:induction false} MovedGrows(grids: seq<Grid>, sm: nat, a: nat, b: nat)
    requires sm > 0 && a <= b <= |grids|
    ensures Moved(grids, sm, a) <= Moved(grids, sm, b)
    decreases b - a
  {
    if a < b {
      MovedGrows(grids, sm, a, b - 1);
    }
  }

  lemma {:induction false} TextGrows(tokens: seq<nat>, img: nat, a: nat, b: nat)
    requires a <= b <= |tokens|
    ensures TextBefore(tokens, img, a) <= TextBefore(tokens, img, b)
    decreases b - a
  {
    if a < b {
      TextGrows(tokens, img, a, b - 1);
    }
  }

  lemma {:induction false} RunsAreNonEmpty(tokens: seq<nat>, img: nat, n: nat)
    requires n <= |tokens|
    ensures forall k :: 0 <= k < |RunLengths(tokens, img, n)| ==> RunLengths(tokens, img, n)[k] > 0
  {
    if n > 0 {
      RunsAreNonEmpty(tokens, img, n - 1);
    }
  }

  lemma StrideIsPositive(grid: Grid, sm: nat)
    requires sm > 0 && ImageTokens(grid, sm) > 0
    ensures Stride(grid, sm) > 0
  {
    StrideCovers(grid, sm);
    var rows, cols := grid.h / sm, grid.w / sm;
    assert rows > 0;
  }

  /** Two frames of one patch: the counter stops at 1 but the second frame's id is 1, so
      the delta points one position too far. */
  lemma VideoSkipsAPosition()
    ensures
      var ids := [Pos(0, 0, 0), Pos(1, 0, 0)];
      && RopeIndex([7, 7], 7, [Grid(2, 1, 1)], 1) == Placed(ids)
      && RopeIndex([7, 7, 0], 7, [Grid(2, 1, 1)], 1) == Placed(ids + [Pos(1, 1, 1)])
      && 2 + PositionDelta(ids) == 2
    ensures ImagesBefore([7, 7], 7, 2) == 1 && !FramesFit([7, 7], 7, [Grid(2, 1, 1)], 1)
  {
    var tokens, grids := [7, 7], [Grid(2, 1, 1)];
    var run := ImageIds(0, grids[0], 1);
    ImageIdsLength(0, grids[0], 1);
    var t0, r0, c0 := VisionAt(0, 2, 1, 1, 1, 0);
    var t1, r1, c1 := VisionAt(0, 2, 1, 1, 1, 1);
    assert run == [Pos(0, 0, 0), Pos(1, 0, 0)];
    assert RunEnd(tokens, 7, true, 2) == 2;
    assert RunEnd(tokens, 7, true, 1) == 2;
    assert run + [] == run;
    AppendedFrom(tokens, 0, 7, grids, 1, 0, 0, 0);
    assert tokens + [0] == [7, 7, 0];
    assert MaxComponent(run, 1) == 0;
    ContinuationIff(tokens, 0, 7, grids, 1);
  }
}
