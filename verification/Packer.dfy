/** The Qwen2-VL patch packer and the vision-tower position ids: nested loops in two files
    that must enumerate the same patches in the same order. */
module Packer {
  import opened Flat
  import opened Nested

  // ----- The patch order -----

  type Patch = (nat, nat)

  /** Patch (mr, mc) of merge block (bh, bw). */
  function PatchOf(m: nat): Body<Patch> {
    (bh: nat, bw: nat, mr: nat, mc: nat) => (Ix(bh, mr, m), Ix(bw, mc, m))
  }

  function OrderBounds(a: nat, b: nat, m: nat): Bounds {
    Bounds(a, b, m, m)
  }

  /** The patches of a grid `a` merge blocks high and `b` wide, block after block. */
  function Order(a: nat, b: nat, m: nat): (r: seq<Patch>)
    ensures |r| == OrderBounds(a, b, m).Total()
  {
    Nest(OrderBounds(a, b, m), PatchOf(m))
  }

  /** Where patch (ph, pw) stands in the order. */
  function RowIndex(ph: nat, pw: nat, a: nat, b: nat, m: nat): nat
    requires m > 0
  {
    OrderBounds(a, b, m).At(ph / m, pw / m, ph % m, pw % m)
  }

  /** Every patch of the grid stands at its row index. */
  lemma OrderHolds(a: nat, b: nat, m: nat, ph: nat, pw: nat)
    requires ph < a * m && pw < b * m
    ensures m > 0 && RowIndex(ph, pw, a, b, m) < |Order(a, b, m)|
    ensures Order(a, b, m)[RowIndex(ph, pw, a, b, m)] == (ph, pw)
  {
    hide Ix;
    hide Nest;
    IxJoin(ph, a, m);
    IxJoin(pw, b, m);
    NestAt(OrderBounds(a, b, m), PatchOf(m), ph / m, pw / m, ph % m, pw % m);
  }

  /** Every row of the order is the row index of its own patch, inside the grid. */
  lemma OrderIsRowIndex(a: nat, b: nat, m: nat, r: nat)
    requires r < |Order(a, b, m)|
    ensures
      var (ph, pw) := Order(a, b, m)[r];
      m > 0 && ph < a * m && pw < b * m && RowIndex(ph, pw, a, b, m) == r
  {
    hide Ix;
    hide Nest;
    hide Counters;
    var n := OrderBounds(a, b, m);
    CountersAt(n, r);
    var (bh, bw, mr, mc) := Counters(n, r);
    NestAt(n, PatchOf(m), bh, bw, mr, mc);
    IxBound(bh, mr, a, m);
    IxBound(bw, mc, b, m);
    IxSplit(bh, mr, m);
    IxSplit(bw, mc, m);
  }

  // ----- The packed matrix -----

  /** Image sides in pixels, patch side, merge side and temporal copies. */
  datatype Config = Config(h: nat, w: nat, p: nat, m: nat, tp: nat) {
    predicate Ok() {
      && p > 0 && m > 0 && tp > 0
      && h % p == 0 && w % p == 0 && h / p % m == 0 && w / p % m == 0
    }

    function BlocksH(): nat
      requires p > 0 && m > 0
    {
      h / p / m
    }

    function BlocksW(): nat
      requires p > 0 && m > 0
    {
      w / p / m
    }

    function Patches(): seq<Patch>
      requires p > 0 && m > 0
    {
      Order(BlocksH(), BlocksW(), m)
    }

    /** Columns of a row: channel, temporal copy, pixel row, pixel column. */
    function RowBounds(): Bounds {
      Bounds(3, tp, p, p)
    }

    function EmbedDim(): nat {
      RowBounds().Total()
    }
  }

  /** The index of a pixel in the plane-major image. */
  function Pixel(cfg: Config, ci: nat, y: nat, x: nat): nat {
    Ix(ci, Ix(y, x, cfg.w), cfg.h * cfg.w)
  }

  function PixelOf(cfg: Config, patch: Patch): Body<nat> {
    (ci: nat, t: nat, py: nat, px: nat) => Pixel(cfg, ci, Ix(patch.0, py, cfg.p), Ix(patch.1, px, cfg.p))
  }

  /** The source indices of one packed row. */
  function PatchRow(cfg: Config, patch: Patch): (r: seq<nat>)
    ensures |r| == cfg.EmbedDim()
  {
    Nest(cfg.RowBounds(), PixelOf(cfg, patch))
  }

  function RowsOf(cfg: Config, patches: seq<Patch>): (r: seq<seq<nat>>)
    ensures |r| == |patches| && Even(r, cfg.EmbedDim())
  {
    hide PatchRow;
    seq(|patches|, r requires 0 <= r < |patches| => PatchRow(cfg, patches[r]))
  }

  /** The source index of every cell of the packed matrix. */
  function Sources(cfg: Config): (r: seq<nat>)
    requires cfg.Ok()
    ensures |r| == |cfg.Patches()| * cfg.EmbedDim()
  {
    ConcatLength(RowsOf(cfg, cfg.Patches()), cfg.EmbedDim());
    Concat(RowsOf(cfg, cfg.Patches()))
  }

  lemma Exactly(n: nat, p: nat)
    requires p > 0 && n % p == 0
    ensures (n / p) * p == n
  {
  }

  /** The sides are whole numbers of blocks of patches. */
  lemma Sides(cfg: Config)
    requires cfg.Ok()
    ensures cfg.BlocksH() * cfg.m == cfg.h / cfg.p && cfg.h / cfg.p * cfg.p == cfg.h
    ensures cfg.BlocksW() * cfg.m == cfg.w / cfg.p && cfg.w / cfg.p * cfg.p == cfg.w
  {
    Exactly(cfg.h, cfg.p);
    Exactly(cfg.w, cfg.p);
    Exactly(cfg.h / cfg.p, cfg.m);
    Exactly(cfg.w / cfg.p, cfg.m);
  }

  // ----- Packed row r is patch r -----

  function Column(cfg: Config, ci: nat, t: nat, py: nat, px: nat): nat {
    cfg.RowBounds().At(ci, t, py, px)
  }

  /** A column of row `r` reads the pixel of that patch, whatever the temporal copy. */
  lemma PackedAt(cfg: Config, r: nat, ci: nat, t: nat, py: nat, px: nat)
    requires cfg.Ok() && r < |cfg.Patches()| && cfg.RowBounds().Has(ci, t, py, px)
    ensures
      var (ph, pw) := cfg.Patches()[r];
      var k := Ix(r, Column(cfg, ci, t, py, px), cfg.EmbedDim());
      k < |Sources(cfg)| && Sources(cfg)[k] == Pixel(cfg, ci, Ix(ph, py, cfg.p), Ix(pw, px, cfg.p))
  {
    hide Ix;
    hide Pixel;
    hide Nest;
    hide Order;
    var patch := cfg.Patches()[r];
    NestAt(cfg.RowBounds(), PixelOf(cfg, patch), ci, t, py, px);
    ConcatAt(RowsOf(cfg, cfg.Patches()), cfg.EmbedDim(), r, Column(cfg, ci, t, py, px));
  }

  predicate InImage(cfg: Config, ci: nat, t: nat, y: nat, x: nat) {
    ci < 3 && t < cfg.tp && y < cfg.h && x < cfg.w
  }

  /** The cell holding copy `t` of pixel (ci, y, x). */
  function CellIndex(cfg: Config, ci: nat, t: nat, y: nat, x: nat): nat
    requires cfg.Ok()
  {
    Ix(RowIndex(y / cfg.p, x / cfg.p, cfg.BlocksH(), cfg.BlocksW(), cfg.m), Column(cfg, ci, t, y % cfg.p, x % cfg.p),
       cfg.EmbedDim())
  }

  lemma CellHolds(cfg: Config, ci: nat, t: nat, y: nat, x: nat)
    requires cfg.Ok() && InImage(cfg, ci, t, y, x)
    ensures CellIndex(cfg, ci, t, y, x) < |Sources(cfg)|
    ensures Sources(cfg)[CellIndex(cfg, ci, t, y, x)] == Pixel(cfg, ci, y, x)
  {
    hide Ix;
    hide Pixel;
    hide Order;
    hide RowIndex;
    hide Sources;
    Sides(cfg);
    IxJoin(y, cfg.h / cfg.p, cfg.p);
    IxJoin(x, cfg.w / cfg.p, cfg.p);
    OrderHolds(cfg.BlocksH(), cfg.BlocksW(), cfg.m, y / cfg.p, x / cfg.p);
    PackedAt(cfg, RowIndex(y / cfg.p, x / cfg.p, cfg.BlocksH(), cfg.BlocksW(), cfg.m), ci, t, y % cfg.p, x % cfg.p);
  }

  /** Every cell is the copy of some pixel of the image. */
  lemma CellIsSome(cfg: Config, k: nat) returns (ci: nat, t: nat, y: nat, x: nat)
    requires cfg.Ok() && k < |Sources(cfg)|
    ensures InImage(cfg, ci, t, y, x) && CellIndex(cfg, ci, t, y, x) == k
  {
    hide Ix;
    hide Order;
    hide RowIndex;
    hide Sources;
    hide Counters;
    var embed := cfg.EmbedDim();
    IxJoin(k, |cfg.Patches()|, embed);
    var r, col := k / embed, k % embed;
    OrderIsRowIndex(cfg.BlocksH(), cfg.BlocksW(), cfg.m, r);
    var (ph, pw) := cfg.Patches()[r];
    CountersAt(cfg.RowBounds(), col);
    var (c, s, py, px) := Counters(cfg.RowBounds(), col);
    ci, t := c, s;
    y, x := Ix(ph, py, cfg.p), Ix(pw, px, cfg.p);
    Sides(cfg);
    IxBound(ph, py, cfg.h / cfg.p, cfg.p);
    IxBound(pw, px, cfg.w / cfg.p, cfg.p);
    IxSplit(ph, py, cfg.p);
    IxSplit(pw, px, cfg.p);
  }

  lemma PixelInjective(cfg: Config, ci: nat, y: nat, x: nat, ci': nat, y': nat, x': nat)
    requires y < cfg.h && x < cfg.w && y' < cfg.h && x' < cfg.w
    requires Pixel(cfg, ci, y, x) == Pixel(cfg, ci', y', x')
    ensures ci == ci' && y == y' && x == x'
  {
    hide Ix;
    IxBound(y, x, cfg.h, cfg.w);
    IxBound(y', x', cfg.h, cfg.w);
    IxSplit(ci, Ix(y, x, cfg.w), cfg.h * cfg.w);
    IxSplit(ci', Ix(y', x', cfg.w), cfg.h * cfg.w);
    IxSplit(y, x, cfg.w);
    IxSplit(y', x', cfg.w);
  }

  lemma CopiesDiffer(cfg: Config, ci: nat, t: nat, t': nat, y: nat, x: nat)
    requires cfg.Ok() && InImage(cfg, ci, t, y, x) && InImage(cfg, ci, t', y, x)
    requires CellIndex(cfg, ci, t, y, x) == CellIndex(cfg, ci, t', y, x)
    ensures t == t'
  {
    hide Ix;
    hide RowIndex;
    hide Counters;
    var n := cfg.RowBounds();
    var py, px := y % cfg.p, x % cfg.p;
    AtCounters(n, ci, t, py, px);
    AtCounters(n, ci, t', py, px);
    var r := RowIndex(y / cfg.p, x / cfg.p, cfg.BlocksH(), cfg.BlocksW(), cfg.m);
    IxSplit(r, Column(cfg, ci, t, py, px), cfg.EmbedDim());
    IxSplit(r, Column(cfg, ci, t', py, px), cfg.EmbedDim());
  }

  predicate IsCopy(cfg: Config, ci: nat, y: nat, x: nat, k: nat, t: nat)
    requires cfg.Ok()
  {
    t < cfg.tp && k == CellIndex(cfg, ci, t, y, x)
  }

  /** Each pixel appears in exactly `tp` cells: one for each temporal copy, all distinct. */
  lemma PixelAppears(cfg: Config, ci: nat, y: nat, x: nat, k: nat)
    requires cfg.Ok() && ci < 3 && y < cfg.h && x < cfg.w && k < |Sources(cfg)|
    ensures Sources(cfg)[k] == Pixel(cfg, ci, y, x) <==> exists t: nat :: IsCopy(cfg, ci, y, x, k, t)
    ensures forall t: nat, t': nat :: IsCopy(cfg, ci, y, x, k, t) && IsCopy(cfg, ci, y, x, k, t') ==> t == t'
  {
    hide Sources;
    hide CellIndex;
    hide Pixel;
    var c, s, y', x' := CellIsSome(cfg, k);
    CellHolds(cfg, c, s, y', x');
    if Sources(cfg)[k] == Pixel(cfg, ci, y, x) {
      PixelInjective(cfg, c, y', x', ci, y, x);
      assert IsCopy(cfg, ci, y, x, k, s);
    }
    forall t: nat | IsCopy(cfg, ci, y, x, k, t) ensures Sources(cfg)[k] == Pixel(cfg, ci, y, x) {
      CellHolds(cfg, ci, t, y, x);
    }
    forall t: nat, t': nat | IsCopy(cfg, ci, y, x, k, t) && IsCopy(cfg, ci, y, x, k, t') ensures t == t' {
      CopiesDiffer(cfg, ci, t, t', y, x);
    }
  }

  // ----- The packing loops -----

  /** `out` is what `chw` holds at `indices`. */
  predicate Read<V(==)>(out: seq<V>, chw: seq<V>, indices: seq<nat>) {
    |out| == |indices| && forall q :: 0 <= q < |out| ==> indices[q] < |chw| && out[q] == chw[indices[q]]
  }

  lemma ReadNext<V>(out: seq<V>, chw: seq<V>, indices: seq<nat>, v: nat)
    requires Read(out, chw, indices) && v < |chw|
    ensures Read(out + [chw[v]], chw, indices + [v])
  {
  }

  lemma ReadJoin<V>(a: seq<V>, b: seq<V>, chw: seq<V>, i: seq<nat>, j: seq<nat>)
    requires Read(a, chw, i) && Read(b, chw, j)
    ensures Read(a + b, chw, i + j)
  {
  }

  lemma PixelBound(cfg: Config, ci: nat, ph: nat, pw: nat, py: nat, px: nat)
    requires cfg.Ok() && ci < 3 && ph < cfg.h / cfg.p && pw < cfg.w / cfg.p && py < cfg.p && px < cfg.p
    ensures Pixel(cfg, ci, Ix(ph, py, cfg.p), Ix(pw, px, cfg.p)) < 3 * (cfg.h * cfg.w)
  {
    hide Ix;
    Sides(cfg);
    IxBound(ph, py, cfg.h / cfg.p, cfg.p);
    IxBound(pw, px, cfg.w / cfg.p, cfg.p);
    IxBound(Ix(ph, py, cfg.p), Ix(pw, px, cfg.p), cfg.h, cfg.w);
    IxBound(ci, Ix(Ix(ph, py, cfg.p), Ix(pw, px, cfg.p), cfg.w), 3, cfg.h * cfg.w);
  }

  /** One packed row: four loops over channel, temporal copy and the patch's pixels. */
  method PackRow<V(==)>(cfg: Config, chw: seq<V>, patch: Patch) returns (out: seq<V>)
    requires cfg.Ok() && |chw| == 3 * (cfg.h * cfg.w) && patch.0 < cfg.h / cfg.p && patch.1 < cfg.w / cfg.p
    ensures Read(out, chw, PatchRow(cfg, patch))
  {
    hide Read;
    hide Nest;
    hide Upto1;
    hide Upto2;
    hide Upto3;
    hide Upto4;
    hide Pixel;
    hide Ix;
    ghost var n, f := cfg.RowBounds(), PixelOf(cfg, patch);
    out := [];
    Starts(n, f, 0, 0, 0);
    NothingRead(chw);
    for ci := 0 to 3
      invariant Read(out, chw, Upto1(n, f, ci))
    {
      Starts(n, f, ci, 0, 0);
      for t := 0 to cfg.tp
        invariant Read(out, chw, Upto2(n, f, ci, t))
      {
        Starts(n, f, ci, t, 0);
        for py := 0 to cfg.p
          invariant Read(out, chw, Upto3(n, f, ci, t, py))
        {
          Starts(n, f, ci, t, py);
          var y := Ix(patch.0, py, cfg.p);
          for px := 0 to cfg.p
            invariant Read(out, chw, Upto4(n, f, ci, t, py, px))
          {
            PixelBound(cfg, ci, patch.0, patch.1, py, px);
            var at := Pixel(cfg, ci, y, Ix(patch.1, px, cfg.p));
            Pushes(n, f, ci, t, py, px);
            ReadNext(out, chw, Upto4(n, f, ci, t, py, px), at);
            out := out + [chw[at]];
          }
          EndsInner(n, f, ci, t, py);
        }
        EndsMiddle(n, f, ci, t);
      }
      EndsOuter(n, f, ci);
    }
    Starts(n, f, 3, 0, 0);
  }

  lemma NothingRead<V>(chw: seq<V>)
    ensures Read([], chw, [])
  {
  }

  datatype PackError = BadPatch | BadGrid | BadLength

  datatype Result<T> = Ok(value: T) | Err(error: PackError)

  /** A merge or temporal size of 0 counts as 1. */
  function AtLeastOne(n: nat): nat {
    if n == 0 then 1 else n
  }

  lemma RowsNext(cfg: Config, patches: seq<Patch>, patch: Patch)
    ensures Concat(RowsOf(cfg, patches + [patch])) == Concat(RowsOf(cfg, patches)) + PatchRow(cfg, patch)
  {
    hide PatchRow;
    assert RowsOf(cfg, patches + [patch]) == RowsOf(cfg, patches) + [PatchRow(cfg, patch)];
    ConcatNext(RowsOf(cfg, patches), PatchRow(cfg, patch));
  }

  /** The packer: refuses sides that are not whole patches, grids that are not whole merge
      blocks, and buffers of the wrong length; otherwise the packed matrix. */
  method PackQwen2vlChw<V(==)>(chw: seq<V>, h: nat, w: nat, patchSize: nat, mergeSize: nat, temporal: nat)
    returns (r: Result<seq<V>>)
    ensures var cfg := Config(h, w, patchSize, AtLeastOne(mergeSize), AtLeastOne(temporal));
      && (r.Ok? <==> cfg.Ok() && |chw| == 3 * h * w)
      && (r.Ok? ==> Read(r.value, chw, Sources(cfg)))
  {
    var p, m := patchSize, AtLeastOne(mergeSize);
    if p == 0 || h % p != 0 || w % p != 0 {
      return Err(BadPatch);
    }
    if h / p % m != 0 || w / p % m != 0 {
      return Err(BadGrid);
    }
    if |chw| != 3 * h * w {
      return Err(BadLength);
    }
    var out := PackRows(Config(h, w, p, m, AtLeastOne(temporal)), chw);
    return Ok(out);
  }

  /** Row of a patch: merge block (bh, bw) of `blocksW` to a row of blocks, patch (mr, mc) in it. */
  function RowFormula(blocksW: nat, m: nat, bh: nat, bw: nat, mr: nat, mc: nat): nat {
    (bh * blocksW + bw) * (m * m) + (mr * m + mc)
  }

  /** Column of a value: channel, temporal copy, pixel (py, px) in the patch. */
  function ColumnFormula(tp: nat, p: nat, ci: nat, t: nat, py: nat, px: nat): nat {
    (ci * tp + t) * (p * p) + (py * p + px)
  }

  /** Index of pixel (y, x) of a plane of an `h` by `w` image. */
  function PixelFormula(h: nat, w: nat, ci: nat, y: nat, x: nat): nat {
    ci * (h * w) + (y * w + x)
  }

  /** The cell of a value, in a matrix of `3 * tp * p * p` columns. */
  function CellFormula(blocksW: nat, m: nat, tp: nat, p: nat, bh: nat, bw: nat, mr: nat, mc: nat, ci: nat, t: nat, py: nat, px: nat): nat {
    RowFormula(blocksW, m, bh, bw, mr, mc) * (3 * tp * (p * p)) + ColumnFormula(tp, p, ci, t, py, px)
  }

  /** The pixel of patch (bh * m + mr, bw * m + mc) at (py, px). */
  function PatchPixelFormula(h: nat, w: nat, m: nat, p: nat, bh: nat, bw: nat, mr: nat, mc: nat, ci: nat, py: nat, px: nat): nat {
    PixelFormula(h, w, ci, (bh * m + mr) * p + py, (bw * m + mc) * p + px)
  }

  predicate Copies<V(==)>(out: seq<V>, at: nat, chw: seq<V>, pixel: nat) {
    at < |out| && pixel < |chw| && out[at] == chw[pixel]
  }

  /** Every cell of the packed matrix, by its formula. */
  lemma PackedCell<V>(cfg: Config, chw: seq<V>, out: seq<V>, bh: nat, bw: nat, mr: nat, mc: nat, ci: nat, t: nat, py: nat, px: nat)
    requires cfg.Ok() && Read(out, chw, Sources(cfg))
    requires bh < cfg.BlocksH() && bw < cfg.BlocksW() && mr < cfg.m && mc < cfg.m && ci < 3 && t < cfg.tp && py < cfg.p && px < cfg.p
    ensures Copies(out, CellFormula(cfg.BlocksW(), cfg.m, cfg.tp, cfg.p, bh, bw, mr, mc, ci, t, py, px),
                   chw, PatchPixelFormula(cfg.h, cfg.w, cfg.m, cfg.p, bh, bw, mr, mc, ci, py, px))
  {
    hide Nest;
    hide Sources;
    hide Order;
    hide Config.Ok;
    var r := OrderBounds(cfg.BlocksH(), cfg.BlocksW(), cfg.m).At(bh, bw, mr, mc);
    OrderAt(cfg.BlocksH(), cfg.BlocksW(), cfg.m, bh, bw, mr, mc);
    PackedAt(cfg, r, ci, t, py, px);
    SameFormulas(cfg, bh, bw, mr, mc, ci, t, py, px);
    hide Ix;
    hide Pixel;
    hide Column;
    hide CellFormula;
    hide PatchPixelFormula;
  }

  lemma SameFormulas(cfg: Config, bh: nat, bw: nat, mr: nat, mc: nat, ci: nat, t: nat, py: nat, px: nat)
    requires cfg.p > 0 && cfg.m > 0
    ensures
      var r := OrderBounds(cfg.BlocksH(), cfg.BlocksW(), cfg.m).At(bh, bw, mr, mc);
      && Ix(r, Column(cfg, ci, t, py, px), cfg.EmbedDim())
         == CellFormula(cfg.BlocksW(), cfg.m, cfg.tp, cfg.p, bh, bw, mr, mc, ci, t, py, px)
      && Pixel(cfg, ci, Ix(Ix(bh, mr, cfg.m), py, cfg.p), Ix(Ix(bw, mc, cfg.m), px, cfg.p))
         == PatchPixelFormula(cfg.h, cfg.w, cfg.m, cfg.p, bh, bw, mr, mc, ci, py, px)
  {
  }

  lemma OrderAt(a: nat, b: nat, m: nat, bh: nat, bw: nat, mr: nat, mc: nat)
    requires bh < a && bw < b && mr < m && mc < m
    ensures
      var r := OrderBounds(a, b, m).At(bh, bw, mr, mc);
      r < |Order(a, b, m)| && Order(a, b, m)[r] == (Ix(bh, mr, m), Ix(bw, mc, m))
  {
    hide Nest;
    hide Ix;
    NestAt(OrderBounds(a, b, m), PatchOf(m), bh, bw, mr, mc);
  }

  method PackRows<V(==)>(cfg: Config, chw: seq<V>) returns (out: seq<V>)
    requires cfg.Ok() && |chw| == 3 * (cfg.h * cfg.w)
    ensures Read(out, chw, Sources(cfg))
  {
    hide Read;
    hide Nest;
    hide Upto1;
    hide Upto2;
    hide Upto3;
    hide Upto4;
    hide Ix;
    hide RowsOf;
    hide Concat;
    hide PatchRow;
    ghost var n, f := OrderBounds(cfg.BlocksH(), cfg.BlocksW(), cfg.m), PatchOf(cfg.m);
    out := [];
    Starts(n, f, 0, 0, 0);
    NoRows(cfg);
    NothingRead(chw);
    Sides(cfg);
    for bgh := 0 to cfg.BlocksH()
      invariant Read(out, chw, Concat(RowsOf(cfg, Upto1(n, f, bgh))))
    {
      Starts(n, f, bgh, 0, 0);
      for bgw := 0 to cfg.BlocksW()
        invariant Read(out, chw, Concat(RowsOf(cfg, Upto2(n, f, bgh, bgw))))
      {
        Starts(n, f, bgh, bgw, 0);
        for mr := 0 to cfg.m
          invariant Read(out, chw, Concat(RowsOf(cfg, Upto3(n, f, bgh, bgw, mr))))
        {
          Starts(n, f, bgh, bgw, mr);
          IxBound(bgh, mr, cfg.BlocksH(), cfg.m);
          for mc := 0 to cfg.m
            invariant Read(out, chw, Concat(RowsOf(cfg, Upto4(n, f, bgh, bgw, mr, mc))))
          {
            IxBound(bgw, mc, cfg.BlocksW(), cfg.m);
            var patch := (Ix(bgh, mr, cfg.m), Ix(bgw, mc, cfg.m));
            var row := PackRow(cfg, chw, patch);
            Pushes(n, f, bgh, bgw, mr, mc);
            RowsNext(cfg, Upto4(n, f, bgh, bgw, mr, mc), patch);
            ReadJoin(out, row, chw, Concat(RowsOf(cfg, Upto4(n, f, bgh, bgw, mr, mc))), PatchRow(cfg, patch));
            out := out + row;
          }
          EndsInner(n, f, bgh, bgw, mr);
        }
        EndsMiddle(n, f, bgh, bgw);
      }
      EndsOuter(n, f, bgh);
    }
    Starts(n, f, n.a, 0, 0);
  }

  lemma NoRows(cfg: Config)
    ensures Concat(RowsOf(cfg, [])) == []
  {
  }

  function ImageLength(cfg: Config): nat {
    3 * (cfg.h * cfg.w)
  }

  /** Where copy `t` of source index `i` is. */
  function UnpackIndex(cfg: Config, i: nat, t: nat): (k: nat)
    requires cfg.Ok() && t < cfg.tp && i < ImageLength(cfg)
    ensures k < |Sources(cfg)| && Sources(cfg)[k] == i
  {
    hide Ix;
    hide Sources;
    hide CellIndex;
    hide Pixel;
    SourceSplits(cfg, i, t);
    var plane := cfg.h * cfg.w;
    CellHolds(cfg, i / plane, t, i % plane / cfg.w, i % plane % cfg.w);
    CellIndex(cfg, i / plane, t, i % plane / cfg.w, i % plane % cfg.w)
  }

  /** A source index is a channel, a row and a column. */
  lemma SourceSplits(cfg: Config, i: nat, t: nat)
    requires i < ImageLength(cfg) && t < cfg.tp
    ensures cfg.h * cfg.w > 0 && cfg.w > 0
    ensures
      var plane := cfg.h * cfg.w;
      var ci, y, x := i / plane, i % plane / cfg.w, i % plane % cfg.w;
      InImage(cfg, ci, t, y, x) && Pixel(cfg, ci, y, x) == i
  {
    hide Ix;
    var plane := cfg.h * cfg.w;
    IxJoin(i, 3, plane);
    IxJoin(i % plane, cfg.h, cfg.w);
  }

  /** The image read back from temporal copy `t`. */
  function Unpack<V>(cfg: Config, packed: seq<V>, t: nat): (r: seq<V>)
    requires cfg.Ok() && t < cfg.tp && |packed| == |Sources(cfg)|
    ensures |r| == ImageLength(cfg)
  {
    hide Sources;
    hide UnpackIndex;
    hide ImageLength;
    seq(ImageLength(cfg), i requires 0 <= i < ImageLength(cfg) => packed[UnpackIndex(cfg, i, t)])
  }

  /** The round trip: any temporal copy recovers the image. */
  lemma UnpackRecovers<V>(cfg: Config, chw: seq<V>, packed: seq<V>, t: nat)
    requires cfg.Ok() && t < cfg.tp && |chw| == ImageLength(cfg) && Read(packed, chw, Sources(cfg))
    ensures Unpack(cfg, packed, t) == chw
  {
    hide Sources;
    hide UnpackIndex;
    hide ImageLength;
    forall i: nat | i < |chw| ensures Unpack(cfg, packed, t)[i] == chw[i] {
      assert packed[UnpackIndex(cfg, i, t)] == chw[Sources(cfg)[UnpackIndex(cfg, i, t)]];
    }
  }

  // ----- Vision-tower position ids -----

  function Pairs(patches: seq<Patch>): (r: seq<nat>)
    ensures |r| == 2 * |patches|
  {
    seq(2 * |patches|, i requires 0 <= i < 2 * |patches| => if i % 2 == 0 then patches[i / 2].0 else patches[i / 2].1)
  }

  lemma PairsNext(patches: seq<Patch>, patch: Patch)
    ensures Pairs(patches + [patch]) == Pairs(patches) + [patch.0, patch.1]
  {
  }

  /** (row, col) ids in merge-block order; a grid that is not whole blocks leaves zeros at
      the end. */
  method QwenVisionPositionIds(gridH: nat, gridW: nat, merge: nat) returns (out: seq<nat>)
    ensures var m := AtLeastOne(merge);
      && |out| == 2 * (gridH * gridW) >= 2 * |Order(gridH / m, gridW / m, m)|
      && out[..2 * |Order(gridH / m, gridW / m, m)|] == Pairs(Order(gridH / m, gridW / m, m))
      && (forall i :: 2 * |Order(gridH / m, gridW / m, m)| <= i < |out| ==> out[i] == 0)
  {
    hide Nest;
    hide Upto1;
    hide Upto2;
    hide Upto3;
    hide Upto4;
    hide Ix;
    hide Pairs;
    var m := AtLeastOne(merge);
    ghost var n, f := OrderBounds(gridH / m, gridW / m, m), PatchOf(m);
    out := [];
    Starts(n, f, 0, 0, 0);
    NoPairs();
    for bh := 0 to gridH / m
      invariant out == Pairs(Upto1(n, f, bh))
    {
      Starts(n, f, bh, 0, 0);
      for bw := 0 to gridW / m
        invariant out == Pairs(Upto2(n, f, bh, bw))
      {
        Starts(n, f, bh, bw, 0);
        for mr := 0 to m
          invariant out == Pairs(Upto3(n, f, bh, bw, mr))
        {
          Starts(n, f, bh, bw, mr);
          for mc := 0 to m
            invariant out == Pairs(Upto4(n, f, bh, bw, mr, mc))
          {
            Pushes(n, f, bh, bw, mr, mc);
            PairsNext(Upto4(n, f, bh, bw, mr, mc), (Ix(bh, mr, m), Ix(bw, mc, m)));
            out := out + [Ix(bh, mr, m), Ix(bw, mc, m)];
          }
          EndsInner(n, f, bh, bw, mr);
        }
        EndsMiddle(n, f, bh, bw);
      }
      EndsOuter(n, f, bh);
    }
    Starts(n, f, n.a, 0, 0);
    OrderFits(gridH, gridW, m);
    ghost var filled := out;
    while |out| < 2 * (gridH * gridW)
      invariant filled <= out && |out| <= 2 * (gridH * gridW) && forall i :: |filled| <= i < |out| ==> out[i] == 0
    {
      out := out + [0];
    }
  }

  /** The whole merge blocks of a grid hold no more patches than the grid. */
  lemma OrderFits(gridH: nat, gridW: nat, m: nat)
    requires m > 0
    ensures |Order(gridH / m, gridW / m, m)| <= gridH * gridW
  {
    var a, b := gridH / m, gridW / m;
    WholeBlocks(gridH, m);
    WholeBlocks(gridW, m);
    Grouped(a, b, m);
    MulMono(a * m, gridH, b * m);
    MulMono(b * m, gridW, gridH);
  }

  lemma WholeBlocks(n: nat, m: nat)
    requires m > 0
    ensures (n / m) * m <= n
  {
  }

  lemma Grouped(a: nat, b: nat, m: nat)
    ensures OrderBounds(a, b, m).Total() == (a * m) * (b * m)
  {
  }

  lemma NoPairs()
    ensures Pairs([]) == []
  {
  }

  /** The two files agree: packed row `r` reads the patch whose (row, col) is entry `r` of
      the position ids. */
  lemma PackerAgreesWithIds(cfg: Config, ids: seq<nat>, r: nat, ci: nat, t: nat, py: nat, px: nat)
    requires cfg.Ok() && r < |cfg.Patches()| && cfg.RowBounds().Has(ci, t, py, px)
    requires 2 * |cfg.Patches()| <= |ids| && ids[..2 * |cfg.Patches()|] == Pairs(cfg.Patches())
    ensures
      var k := Ix(r, Column(cfg, ci, t, py, px), cfg.EmbedDim());
      k < |Sources(cfg)| && Sources(cfg)[k] == Pixel(cfg, ci, Ix(ids[2 * r], py, cfg.p), Ix(ids[2 * r + 1], px, cfg.p))
  {
    hide Sources;
    hide Order;
    hide Pixel;
    hide Ix;
    PackedAt(cfg, r, ci, t, py, px);
    var pairs := Pairs(cfg.Patches());
    assert ids[2 * r] == pairs[2 * r] == cfg.Patches()[r].0;
    assert ids[2 * r + 1] == pairs[2 * r + 1] == cfg.Patches()[r].1;
  }
}
