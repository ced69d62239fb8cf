/** The Qwen2-VL target size: both sides rounded to multiples of a factor, rescaled when the
    area is out of bounds. Over exact reals, with the square root given by its law. */
module SmartResize {
  import opened Flat
  import Nested

  /** Rounds to the nearest multiple, ties (to within 1e-9) to the even one. */
  function RoundByFactor(value: real, factor: nat): (r: nat)
    requires value >= 0.0 && factor > 0
    ensures IsMultiple(r, factor)
  {
    var q := value / factor as real;
    NotNegative(value, factor as real);
    var fl := q.Floor;
    var gap := q - fl as real - 0.5;
    var n: nat := if -0.000000001 < gap < 0.000000001 then (if fl % 2 == 0 then fl else fl + 1)
                  else (q + 0.5).Floor;
    Multiple(n, factor)
  }

  /** The nearest multiple `n`; within 1e-9 of a tie, the even one of the two. */
  lemma RoundsToNearest(value: real, factor: nat) returns (n: nat)
    requires value >= 0.0 && factor > 0
    ensures RoundByFactor(value, factor) == n * factor
    ensures var q, gap := value / factor as real, value / factor as real - n as real;
      && -0.500000001 < gap < 0.500000001
      && (gap < -0.499999999 || gap > 0.499999999 ==> n % 2 == 0)
      && (n % 2 != 0 ==> -0.5 <= gap <= 0.5)
  {
    var q := value / factor as real;
    NotNegative(value, factor as real);
    var fl := q.Floor;
    var gap := q - fl as real - 0.5;
    if -0.000000001 < gap < 0.000000001 {
      n := if fl % 2 == 0 then fl else fl + 1;
    } else {
      n := (q + 0.5).Floor;
      assert n == fl || n == fl + 1;
    }
    assert RoundByFactor(value, factor) == Multiple(n, factor);
  }

  predicate IsMultiple(r: nat, factor: nat)
    requires factor > 0
  {
    r % factor == 0
  }

  /** `n` factors. */
  function Multiple(n: nat, factor: nat): (r: nat)
    requires factor > 0
    ensures IsMultiple(r, factor)
  {
    Nested.IxSplit(n, 0, factor);
    n * factor
  }

  lemma MultipleIs(n: nat, factor: nat)
    requires factor > 0
    ensures Multiple(n, factor) as real == n as real * factor as real
    ensures n >= 1 ==> Multiple(n, factor) >= factor
  {
    assert n >= 1 ==> (n - 1) * factor >= 0;
  }

  lemma NotNegative(value: real, f: real)
    requires value >= 0.0 && f > 0.0
    ensures value / f >= 0.0
  {
  }

  function Ceil(x: real): (c: int)
    ensures c as real >= x && (c - 1) as real < x
  {
    -((-x).Floor)
  }

  function FloorByFactor(value: real, factor: nat): (r: nat)
    requires value >= 0.0 && factor > 0
    ensures IsMultiple(r, factor)
  {
    NotNegative(value, factor as real);
    var n: nat := (value / factor as real).Floor;
    Multiple(n, factor)
  }

  function CeilByFactor(value: real, factor: nat): (r: nat)
    requires value >= 0.0 && factor > 0
    ensures IsMultiple(r, factor)
  {
    NotNegative(value, factor as real);
    var n: nat := Ceil(value / factor as real);
    Multiple(n, factor)
  }

  function AtLeast(n: nat, factor: nat): (r: nat)
    requires factor > 0 && IsMultiple(n, factor)
    ensures IsMultiple(r, factor) && r >= factor && r >= n && (n >= factor ==> r == n)
  {
    if n < factor then factor else n
  }

  /** The non-negative square root. */
  ghost predicate IsRoot(root: real -> real) {
    forall x :: x >= 0.0 ==> RootAt(root, x)
  }

  predicate RootAt(root: real -> real, x: real) {
    root(x) >= 0.0 && root(x) * root(x) == x
  }

  /** Which way the size is adjusted. */
  datatype Branch = Keep | Shrink(beta: real) | Grow(beta: real)

  function ShrinkBeta(root: real -> real, h: nat, w: nat, maxPixels: nat): real
    requires maxPixels > 0
  {
    root((h as real * w as real) / maxPixels as real)
  }

  function GrowBeta(root: real -> real, h: nat, w: nat, minPixels: nat): real
    requires h > 0 && w > 0
  {
    Positive(h, w);
    root(minPixels as real / (h as real * w as real))
  }

  function BranchOf(root: real -> real, h: nat, w: nat, factor: nat, minPixels: nat, maxPixels: nat): Branch
    requires h > 0 && w > 0 && factor > 0 && maxPixels > 0
  {
    var area := RoundByFactor(h as real, factor) * RoundByFactor(w as real, factor);
    if area > maxPixels then Shrink(ShrinkBeta(root, h, w, maxPixels))
    else if area < minPixels then Grow(GrowBeta(root, h, w, minPixels))
    else Keep
  }

  lemma Positive(h: nat, w: nat)
    requires h > 0 && w > 0
    ensures h as real * w as real > 0.0
  {
  }

  /** The resized (height, width). A shrinking scale of 0 cannot occur with a true root. */
  function Resize(root: real -> real, h: nat, w: nat, factor: nat, minPixels: nat, maxPixels: nat): (nat, nat)
    requires IsRoot(root) && h > 0 && w > 0 && factor > 0 && maxPixels > 0
  {
    match BranchOf(root, h, w, factor, minPixels, maxPixels)
    case Keep => (RoundByFactor(h as real, factor), RoundByFactor(w as real, factor))
    case Shrink(beta) =>
      ShrinkScale(root, h, w, maxPixels, beta);
      Quotients(h, w, beta);
      (AtLeast(FloorByFactor(h as real / beta, factor), factor), AtLeast(FloorByFactor(w as real / beta, factor), factor))
    case Grow(beta) =>
      GrowScale(root, h, w, minPixels, beta);
      Products(h, w, beta);
      (CeilByFactor(h as real * beta, factor), CeilByFactor(w as real * beta, factor))
  }

  /** `beta` is the side ratio between an area and a bound. */
  predicate IsScale(beta: real, area: real, bound: real) {
    beta >= 0.0 && (beta * beta) * bound == area
  }

  lemma ShrinkScale(root: real -> real, h: nat, w: nat, maxPixels: nat, beta: real)
    requires IsRoot(root) && h > 0 && w > 0 && maxPixels > 0
    requires beta == ShrinkBeta(root, h, w, maxPixels)
    ensures beta > 0.0 && IsScale(beta, h as real * w as real, maxPixels as real)
  {
    Positive(h, w);
    RootScale(root, h as real * w as real, maxPixels as real, beta);
  }

  lemma GrowScale(root: real -> real, h: nat, w: nat, minPixels: nat, beta: real)
    requires IsRoot(root) && h > 0 && w > 0
    requires beta == GrowBeta(root, h, w, minPixels)
    ensures beta >= 0.0 && IsScale(beta, minPixels as real, h as real * w as real)
  {
    Positive(h, w);
    RootScale(root, minPixels as real, h as real * w as real, beta);
  }

  lemma RootScale(root: real -> real, area: real, bound: real, beta: real)
    requires IsRoot(root) && area >= 0.0 && bound > 0.0 && beta == root(area / bound)
    ensures IsScale(beta, area, bound)
    ensures area > 0.0 ==> beta > 0.0
  {
    var x := area / bound;
    Undivided(area, bound, x);
    NotNegative(area, bound);
    assert RootAt(root, x);
  }

  lemma Quotients(h: nat, w: nat, beta: real)
    requires beta > 0.0
    ensures h as real / beta >= 0.0 && w as real / beta >= 0.0
  {
  }

  lemma Products(h: nat, w: nat, beta: real)
    requires beta >= 0.0
    ensures h as real * beta >= 0.0 && w as real * beta >= 0.0
  {
  }

  /** Both sides are multiples of the factor. */
  lemma SidesAreMultiples(root: real -> real, h: nat, w: nat, factor: nat, minPixels: nat, maxPixels: nat)
    requires IsRoot(root) && h > 0 && w > 0 && factor > 0 && maxPixels > 0
    ensures
      var (rh, rw) := Resize(root, h, w, factor, minPixels, maxPixels);
      IsMultiple(rh, factor) && IsMultiple(rw, factor)
  {
    hide RoundByFactor;
    hide ShrinkBeta;
    hide GrowBeta;
    hide FloorByFactor;
    hide CeilByFactor;
    hide IsMultiple;
    hide AtLeast;
    hide IsRoot;
    match BranchOf(root, h, w, factor, minPixels, maxPixels)
    case Keep =>
    case Shrink(beta) =>
      ShrinkScale(root, h, w, maxPixels, beta);
      Quotients(h, w, beta);
    case Grow(beta) =>
      GrowScale(root, h, w, minPixels, beta);
      Products(h, w, beta);
  }

  // ----- The area bounds -----

  /** The side the rescaling aims at, before rounding. */
  function Ideal(side: nat, b: Branch): real
    requires ScalePositive(b)
  {
    match b
    case Keep => side as real
    case Shrink(beta) => side as real / beta
    case Grow(beta) => side as real * beta
  }

  predicate ScalePositive(b: Branch) {
    b.Shrink? ==> b.beta > 0.0
  }

  lemma Undivided(x: real, f: real, q: real)
    requires f > 0.0 && q == x / f
    ensures q * f == x
  {
  }

  lemma TimesMono(a: real, b: real, f: real)
    requires f > 0.0 && a <= b
    ensures a * f <= b * f
  {
  }

  lemma TimesStrict(a: real, b: real, f: real)
    requires f > 0.0 && a < b
    ensures a * f < b * f
  {
  }

  /** The quotient by the factor is at least one exactly when the side is at least the factor. */
  lemma QuotientIff(q: real, f: real, x: real)
    requires f > 0.0 && q * f == x
    ensures q >= 1.0 <==> x >= f
  {
    if q >= 1.0 {
      TimesMono(1.0, q, f);
    } else {
      TimesStrict(q, 1.0, f);
    }
  }

  /** A floored side keeps at least half of the ideal one, and never exceeds it unless clamped. */
  lemma ShrunkSide(x: real, factor: nat)
    requires factor > 0 && x >= 0.0
    ensures
      var r := AtLeast(FloorByFactor(x, factor), factor);
      0.5 * x <= r as real && (x >= factor as real ==> r as real <= x) && (x < factor as real ==> r == factor)
  {
    hide Multiple;
    hide IsMultiple;
    var f := factor as real;
    var q := x / f;
    Undivided(x, f, q);
    NotNegative(x, f);
    QuotientIff(q, f, x);
    var n := q.Floor;
    MultipleIs(n, factor);
    if n >= 1 {
      FlooredBounds(n, q, f, x);
    } else {
      assert n == 0;
      assert FloorByFactor(x, factor) == Multiple(0, factor);
    }
  }

  lemma FlooredBounds(n: int, q: real, f: real, x: real)
    requires f > 0.0 && n >= 1 && n as real <= q < n as real + 1.0 && x == q * f
    ensures 0.5 * x <= n as real * f <= x
  {
    var a := n as real;
    TimesMono(a, q, f);
    TimesMono(0.5 * q, a, f);
    assert (0.5 * q) * f == 0.5 * (q * f);
  }

  /** A ceiled side reaches the ideal one, and at most doubles it unless it was below one factor. */
  lemma GrownSide(x: real, factor: nat)
    requires factor > 0 && x > 0.0
    ensures
      var r := CeilByFactor(x, factor);
      x <= r as real && (x >= factor as real ==> r as real <= 2.0 * x) && (x < factor as real ==> r == factor)
  {
    hide Multiple;
    hide IsMultiple;
    var f := factor as real;
    var q := x / f;
    Undivided(x, f, q);
    NotNegative(x, f);
    QuotientIff(q, f, x);
    PositiveQuotient(x, f, q);
    var n := Ceil(q);
    MultipleIs(n, factor);
    var r := CeilByFactor(x, factor);
    assert r == Multiple(n, factor);
    CeiledBounds(n, q, f, x, r as real);
  }

  lemma CeiledBounds(n: int, q: real, f: real, x: real, r: real)
    requires f > 0.0 && q > 0.0 && (n - 1) as real < q <= n as real && x == q * f && r == n as real * f
    ensures x <= r && (q >= 1.0 ==> r <= 2.0 * x) && (q < 1.0 ==> r == f)
  {
    var a := n as real;
    TimesMono(q, a, f);
    if q >= 1.0 {
      TimesMono(0.5 * a, q, f);
      assert (0.5 * a) * f == 0.5 * (a * f);
    } else {
      assert n == 1;
    }
  }

  lemma ProductMono(a: real, b: real, c: real, d: real)
    requires 0.0 <= a <= b && 0.0 <= c <= d
    ensures a * c <= b * d
  {
    assert (b - a) * c >= 0.0 && b * (d - c) >= 0.0;
  }

  /** Scaling both sides by `k` scales the area by `k * k`. */
  lemma ScaledArea(k: real, x: real, y: real)
    ensures (k * x) * (k * y) == (k * k) * (x * y)
  {
  }

  lemma RealArea(a: nat, b: nat)
    ensures (a * b) as real == a as real * b as real
  {
  }

  lemma IdealAreaShrunk(h: real, w: real, beta: real, square: real, maxArea: real, x: real, y: real)
    requires beta > 0.0 && square == beta * beta && IsScale(beta, h * w, maxArea) && x * beta == h && y * beta == w
    ensures x * y == maxArea
  {
    PositiveProduct(beta, beta, square);
    assert maxArea * square == h * w;
    SquareOut(x, y, beta, square, h, w);
    Cancel(x * y, maxArea, square, h * w);
  }

  lemma PositiveTimes(a: real, b: real)
    requires a > 0.0 && b > 0.0
    ensures a * b > 0.0
  {
  }

  lemma PositiveProduct(a: real, b: real, p: real)
    requires a > 0.0 && b > 0.0 && p == a * b
    ensures p > 0.0
  {
  }

  lemma SquareOut(x: real, y: real, beta: real, square: real, h: real, w: real)
    requires square == beta * beta && x * beta == h && y * beta == w
    ensures (x * y) * square == h * w
  {
    assert (x * y) * (beta * beta) == (x * beta) * (y * beta);
  }

  lemma Cancel(a: real, b: real, c: real, p: real)
    requires c > 0.0 && a * c == p && b * c == p
    ensures a == b
  {
    if a < b {
      TimesStrict(a, b, c);
    } else if b < a {
      TimesStrict(b, a, c);
    }
  }

  lemma IdealAreaGrown(h: real, w: real, beta: real, minArea: real)
    requires IsScale(beta, minArea, h * w)
    ensures (h * beta) * (w * beta) == minArea
  {
  }

  /** The ideal area is the bound that was missed, and the ideal sides are positive. */
  lemma IdealArea(root: real -> real, h: nat, w: nat, factor: nat, minPixels: nat, maxPixels: nat)
    requires IsRoot(root) && h > 0 && w > 0 && factor > 0 && maxPixels > 0
    ensures
      var b := BranchOf(root, h, w, factor, minPixels, maxPixels);
      && ScalePositive(b)
      && Ideal(h, b) > 0.0 && Ideal(w, b) > 0.0
      && (b.Shrink? ==> IsArea(Ideal(h, b), Ideal(w, b), maxPixels))
      && (b.Grow? ==> IsArea(Ideal(h, b), Ideal(w, b), minPixels))
  {
    hide IsRoot;
    hide IsScale;
    hide RoundByFactor;
    hide ShrinkBeta;
    hide GrowBeta;
    var hr, wr := h as real, w as real;
    match BranchOf(root, h, w, factor, minPixels, maxPixels)
    case Keep =>
    case Shrink(beta) =>
      ShrinkScale(root, h, w, maxPixels, beta);
      var x, y := hr / beta, wr / beta;
      Undivided(hr, beta, x);
      Undivided(wr, beta, y);
      PositiveQuotient(hr, beta, x);
      PositiveQuotient(wr, beta, y);
      IdealAreaShrunk(hr, wr, beta, beta * beta, maxPixels as real, x, y);
    case Grow(beta) =>
      GrowScale(root, h, w, minPixels, beta);
      IdealAreaGrown(hr, wr, beta, minPixels as real);
      GrowPositive(hr, wr, beta, minPixels as real);
  }

  predicate IsArea(x: real, y: real, area: nat) {
    x * y == area as real
  }

  lemma PositiveQuotient(h: real, beta: real, x: real)
    requires h > 0.0 && beta > 0.0 && x * beta == h
    ensures x > 0.0
  {
    if x <= 0.0 {
      TimesMono(x, 0.0, beta);
    }
  }

  lemma GrowPositive(h: real, w: real, beta: real, minArea: real)
    requires h > 0.0 && w > 0.0 && minArea > 0.0 && IsScale(beta, minArea, h * w)
    ensures h * beta > 0.0 && w * beta > 0.0
  {
    assert beta != 0.0;
    PositiveTimes(h, beta);
    PositiveTimes(w, beta);
  }

  /** The sides a branch produces from its ideal ones. */
  function RoundedSide(x: real, factor: nat, b: Branch): (r: nat)
    requires factor > 0 && x >= 0.0
  {
    match b
    case Keep => RoundByFactor(x, factor)
    case Shrink(_) => AtLeast(FloorByFactor(x, factor), factor)
    case Grow(_) => CeilByFactor(x, factor)
  }

  lemma ResizeRoundsIdeal(root: real -> real, h: nat, w: nat, factor: nat, minPixels: nat, maxPixels: nat)
    requires IsRoot(root) && h > 0 && w > 0 && factor > 0 && maxPixels > 0
    ensures
      var b := BranchOf(root, h, w, factor, minPixels, maxPixels);
      && ScalePositive(b) && Ideal(h, b) > 0.0 && Ideal(w, b) > 0.0
      && Resize(root, h, w, factor, minPixels, maxPixels)
         == (RoundedSide(Ideal(h, b), factor, b), RoundedSide(Ideal(w, b), factor, b))
  {
    IdealArea(root, h, w, factor, minPixels, maxPixels);
    hide IsRoot;
    hide BranchOf;
    hide RoundByFactor;
    hide FloorByFactor;
    hide CeilByFactor;
    hide AtLeast;
  }

  /** Shrinking keeps at least a quarter of the maximum; it stays within it unless a side is clamped. */
  lemma ShrunkArea(x: real, y: real, factor: nat, maxPixels: nat)
    requires factor > 0 && x > 0.0 && y > 0.0 && IsArea(x, y, maxPixels)
    ensures
      var a, b := AtLeast(FloorByFactor(x, factor), factor), AtLeast(FloorByFactor(y, factor), factor);
      && maxPixels <= 4 * (a * b)
      && (x >= factor as real && y >= factor as real ==> a * b <= maxPixels)
      && (x < factor as real && y < factor as real ==> a * b > maxPixels)
  {
    hide FloorByFactor;
    hide AtLeast;
    hide IsArea;
    var a, b := AtLeast(FloorByFactor(x, factor), factor), AtLeast(FloorByFactor(y, factor), factor);
    ShrunkSide(x, factor);
    ShrunkSide(y, factor);
    AtLeastScaled(0.5, a, b, x, y, maxPixels);
    assert maxPixels <= 4 * (a * b);
    if x >= factor as real && y >= factor as real {
      AtMostScaled(1.0, a, b, x, y, maxPixels);
    } else if x < factor as real && y < factor as real {
      BelowSquare(x, y, factor, maxPixels);
    }
  }

  lemma AtLeastScaled(k: real, a: nat, b: nat, x: real, y: real, area: nat)
    requires k >= 0.0 && x > 0.0 && y > 0.0 && IsArea(x, y, area) && k * x <= a as real && k * y <= b as real
    ensures (k * k) * area as real <= (a * b) as real
  {
    RealArea(a, b);
    ScaledArea(k, x, y);
    ProductMono(k * x, a as real, k * y, b as real);
  }

  lemma AtMostScaled(k: real, a: nat, b: nat, x: real, y: real, area: nat)
    requires IsArea(x, y, area) && a as real <= k * x && b as real <= k * y
    ensures (a * b) as real <= (k * k) * area as real
  {
    RealArea(a, b);
    ScaledArea(k, x, y);
    ProductMono(a as real, k * x, b as real, k * y);
  }

  lemma BelowSquare(x: real, y: real, factor: nat, area: nat)
    requires 0.0 < x < factor as real && 0.0 < y < factor as real && IsArea(x, y, area)
    ensures area < factor * factor
  {
    var f := factor as real;
    RealArea(factor, factor);
    TimesStrict(x, f, y);
    TimesStrict(y, f, f);
  }

  /** Growing reaches the minimum, and at most four times it unless a side stays below one factor. */
  lemma GrownArea(x: real, y: real, factor: nat, minPixels: nat)
    requires factor > 0 && x > 0.0 && y > 0.0 && IsArea(x, y, minPixels)
    ensures
      var a, b := CeilByFactor(x, factor), CeilByFactor(y, factor);
      && minPixels <= a * b
      && (x >= factor as real && y >= factor as real ==> a * b <= 4 * minPixels)
  {
    hide CeilByFactor;
    hide IsArea;
    var a, b := CeilByFactor(x, factor), CeilByFactor(y, factor);
    GrownSide(x, factor);
    GrownSide(y, factor);
    AtLeastScaled(1.0, a, b, x, y, minPixels);
    if x >= factor as real && y >= factor as real {
      AtMostScaled(2.0, a, b, x, y, minPixels);
    }
  }

  /** The documented minimum is always met unless shrinking between bounds closer than a factor of
      four; the documented maximum is met whenever no rescaled side falls below one factor and, when
      enlarging, the bounds are a factor of four apart. */
  lemma AreaInBounds(root: real -> real, h: nat, w: nat, factor: nat, minPixels: nat, maxPixels: nat)
    requires IsRoot(root) && h > 0 && w > 0 && factor > 0 && maxPixels > 0
    ensures
      var (rh, rw) := Resize(root, h, w, factor, minPixels, maxPixels);
      var b := BranchOf(root, h, w, factor, minPixels, maxPixels);
      && (!b.Shrink? || 4 * minPixels <= maxPixels ==> minPixels <= rh * rw)
      && (NoTinySide(b, h, w, factor) && (b.Grow? ==> 4 * minPixels <= maxPixels) ==> rh * rw <= maxPixels)
  {
    ResizeRoundsIdeal(root, h, w, factor, minPixels, maxPixels);
    IdealArea(root, h, w, factor, minPixels, maxPixels);
    var b := BranchOf(root, h, w, factor, minPixels, maxPixels);
    if b.Keep? {
      KeptArea(root, h, w, factor, minPixels, maxPixels);
    } else {
      var x, y := Ideal(h, b), Ideal(w, b);
      hide IsRoot;
      hide Resize;
      hide BranchOf;
      hide Ideal;
      hide FloorByFactor;
      hide CeilByFactor;
      hide AtLeast;
      hide IsArea;
      if b.Shrink? {
        ShrunkArea(x, y, factor, maxPixels);
      } else {
        GrownArea(x, y, factor, minPixels);
      }
    }
  }

  /** Neither ideal side of a rescaling is below one factor. */
  predicate NoTinySide(b: Branch, h: nat, w: nat, factor: nat) {
    ScalePositive(b) && (b.Keep? || (Ideal(h, b) >= factor as real && Ideal(w, b) >= factor as real))
  }

  lemma KeptArea(root: real -> real, h: nat, w: nat, factor: nat, minPixels: nat, maxPixels: nat)
    requires IsRoot(root) && h > 0 && w > 0 && factor > 0 && maxPixels > 0
    requires BranchOf(root, h, w, factor, minPixels, maxPixels).Keep?
    ensures
      var (rh, rw) := Resize(root, h, w, factor, minPixels, maxPixels);
      minPixels <= rh * rw <= maxPixels
  {
    hide RoundByFactor;
  }

  // ----- Exactly when the bounds are met -----

  /** Whole factors in a side. */
  function FloorBlocks(x: real, factor: nat): (n: nat)
    requires factor > 0 && x >= 0.0
    ensures n >= 1 <==> x >= factor as real
  {
    var q := x / factor as real;
    Undivided(x, factor as real, q);
    NotNegative(x, factor as real);
    QuotientIff(q, factor as real, x);
    q.Floor
  }

  /** Factors that cover a side. */
  function CeilBlocks(x: real, factor: nat): (n: nat)
    requires factor > 0 && x >= 0.0
  {
    NotNegative(x, factor as real);
    Ceil(x / factor as real)
  }

  function AtLeastOne(n: nat): nat {
    if n == 0 then 1 else n
  }

  /** How many factor-by-factor blocks fit in an area, and how many reach it. */
  function BlocksWithin(area: nat, factor: nat): nat
    requires factor > 0
  {
    PositiveNat(factor);
    area / (factor * factor)
  }

  function BlocksReaching(area: nat, factor: nat): nat
    requires factor > 0
  {
    PositiveNat(factor);
    (area + (factor * factor - 1)) / (factor * factor)
  }

  lemma PositiveNat(n: nat)
    requires n > 0
    ensures n * n > 0
  {
  }

  /** Shrinking fits when no side vanishes, or one does and the blocks along the other are few
      enough; never when both do. Enlarging fits when the covering blocks are few enough. */
  predicate MaximumFits(x: real, y: real, b: Branch, factor: nat, maxPixels: nat)
    requires factor > 0 && x > 0.0 && y > 0.0
  {
    var most := BlocksWithin(maxPixels, factor);
    match b
    case Keep => true
    case Shrink(_) =>
      var p, q := FloorBlocks(x, factor), FloorBlocks(y, factor);
      (p >= 1 && q >= 1) || (p == 0 && 1 <= q <= most) || (q == 0 && 1 <= p <= most)
    case Grow(_) => CeilBlocks(x, factor) * CeilBlocks(y, factor) <= most
  }

  /** Only shrinking can miss the minimum: when its whole blocks do not reach it. */
  predicate MinimumFits(x: real, y: real, b: Branch, factor: nat, minPixels: nat)
    requires factor > 0 && x > 0.0 && y > 0.0
  {
    b.Shrink? ==>
      BlocksReaching(minPixels, factor) <= AtLeastOne(FloorBlocks(x, factor)) * AtLeastOne(FloorBlocks(y, factor))
  }

  lemma BlockCount(n: nat, area: nat, block: nat)
    requires block > 0
    ensures n * block <= area <==> n <= area / block
    ensures area <= n * block <==> (area + (block - 1)) / block <= n
  {
    Whole(n, area, area / block, area % block, block);
    var top := area + (block - 1);
    Whole(n + 1, top, top / block, top % block, block);
  }

  lemma Whole(n: nat, area: nat, k: nat, rest: nat, block: nat)
    requires rest < block && area == k * block + rest
    ensures n * block <= area <==> n <= k
    ensures (n * block + block) == (n + 1) * block
  {
    if n <= k {
      MulMono(n, k, block);
    } else {
      MulMono(k + 1, n, block);
    }
  }

  lemma BlockArea(p: nat, q: nat, factor: nat)
    requires factor > 0
    ensures Multiple(p, factor) * Multiple(q, factor) == (p * q) * (factor * factor)
  {
    assert (p * factor) * (q * factor) == (p * q) * (factor * factor);
  }

  /** A block area against the two bounds. */
  lemma BlockBounds(p: nat, q: nat, factor: nat, minPixels: nat, maxPixels: nat)
    requires factor > 0
    ensures
      var area := Multiple(p, factor) * Multiple(q, factor);
      && (area <= maxPixels <==> p * q <= BlocksWithin(maxPixels, factor))
      && (minPixels <= area <==> BlocksReaching(minPixels, factor) <= p * q)
  {
    hide Multiple;
    BlockArea(p, q, factor);
    PositiveNat(factor);
    BlockCount(p * q, maxPixels, factor * factor);
    BlockCount(p * q, minPixels, factor * factor);
  }

  lemma ShrunkIsBlocks(x: real, factor: nat)
    requires factor > 0 && x > 0.0
    ensures AtLeast(FloorByFactor(x, factor), factor) == Multiple(AtLeastOne(FloorBlocks(x, factor)), factor)
  {
    var n := FloorBlocks(x, factor);
    assert FloorByFactor(x, factor) == Multiple(n, factor);
    hide FloorByFactor;
    hide FloorBlocks;
    if n >= 1 {
      MultipleIs(n, factor);
    }
  }

  /** The documented bounds on the result of a rescaling, as conditions on the ideal sides. */
  lemma BoundsIff(x: real, y: real, b: Branch, factor: nat, minPixels: nat, maxPixels: nat)
    requires factor > 0 && x > 0.0 && y > 0.0 && !b.Keep?
    requires IsArea(x, y, if b.Shrink? then maxPixels else minPixels)
    ensures
      var area := RoundedSide(x, factor, b) * RoundedSide(y, factor, b);
      && (area <= maxPixels <==> MaximumFits(x, y, b, factor, maxPixels))
      && (minPixels <= area <==> MinimumFits(x, y, b, factor, minPixels))
  {
    hide IsArea;
    hide Multiple;
    hide BlocksWithin;
    hide BlocksReaching;
    if b.Shrink? {
      ShrunkArea(x, y, factor, maxPixels);
      ShrunkIsBlocks(x, factor);
      ShrunkIsBlocks(y, factor);
      hide FloorByFactor;
      hide FloorBlocks;
      hide AtLeast;
      BlockBounds(AtLeastOne(FloorBlocks(x, factor)), AtLeastOne(FloorBlocks(y, factor)), factor, minPixels, maxPixels);
    } else {
      GrownArea(x, y, factor, minPixels);
      BlockBounds(CeilBlocks(x, factor), CeilBlocks(y, factor), factor, minPixels, maxPixels);
    }
  }

  /** Exactly when the documented maximum is met, whatever the bounds. */
  lemma MaximumMetIff(root: real -> real, h: nat, w: nat, factor: nat, minPixels: nat, maxPixels: nat)
    requires IsRoot(root) && h > 0 && w > 0 && factor > 0 && maxPixels > 0
    ensures
      var (rh, rw) := Resize(root, h, w, factor, minPixels, maxPixels);
      var b := BranchOf(root, h, w, factor, minPixels, maxPixels);
      && ScalePositive(b) && Ideal(h, b) > 0.0 && Ideal(w, b) > 0.0
      && (rh * rw <= maxPixels <==> MaximumFits(Ideal(h, b), Ideal(w, b), b, factor, maxPixels))
  {
    ResizeBounds(root, h, w, factor, minPixels, maxPixels);
  }

  /** Exactly when the documented minimum is met. */
  lemma MinimumMetIff(root: real -> real, h: nat, w: nat, factor: nat, minPixels: nat, maxPixels: nat)
    requires IsRoot(root) && h > 0 && w > 0 && factor > 0 && maxPixels > 0
    ensures
      var (rh, rw) := Resize(root, h, w, factor, minPixels, maxPixels);
      var b := BranchOf(root, h, w, factor, minPixels, maxPixels);
      && ScalePositive(b) && Ideal(h, b) > 0.0 && Ideal(w, b) > 0.0
      && (minPixels <= rh * rw <==> MinimumFits(Ideal(h, b), Ideal(w, b), b, factor, minPixels))
  {
    ResizeBounds(root, h, w, factor, minPixels, maxPixels);
  }

  lemma ResizeBounds(root: real -> real, h: nat, w: nat, factor: nat, minPixels: nat, maxPixels: nat)
    requires IsRoot(root) && h > 0 && w > 0 && factor > 0 && maxPixels > 0
    ensures
      var (rh, rw) := Resize(root, h, w, factor, minPixels, maxPixels);
      var b := BranchOf(root, h, w, factor, minPixels, maxPixels);
      && ScalePositive(b) && Ideal(h, b) > 0.0 && Ideal(w, b) > 0.0
      && (rh * rw <= maxPixels <==> MaximumFits(Ideal(h, b), Ideal(w, b), b, factor, maxPixels))
      && (minPixels <= rh * rw <==> MinimumFits(Ideal(h, b), Ideal(w, b), b, factor, minPixels))
  {
    ResizeRoundsIdeal(root, h, w, factor, minPixels, maxPixels);
    IdealArea(root, h, w, factor, minPixels, maxPixels);
    var b := BranchOf(root, h, w, factor, minPixels, maxPixels);
    if b.Keep? {
      KeptArea(root, h, w, factor, minPixels, maxPixels);
    } else {
      var x, y := Ideal(h, b), Ideal(w, b);
      hide IsRoot;
      hide Resize;
      hide BranchOf;
      hide Ideal;
      hide IsArea;
      hide RoundedSide;
      hide MaximumFits;
      hide MinimumFits;
      BoundsIff(x, y, b, factor, minPixels, maxPixels);
    }
  }

  /** The blocks of a rescaled side, without the root: when shrinking it has at least `p` whole
      blocks, and when enlarging at most `p` blocks cover it, exactly when an integer comparison of
      the image and the limits says so. With `p` = 1: when a side is clamped. */
  lemma BlocksOnInputs(root: real -> real, h: nat, w: nat, factor: nat, minPixels: nat, maxPixels: nat, p: nat)
    requires IsRoot(root) && h > 0 && w > 0 && factor > 0 && maxPixels > 0
    ensures
      var b := BranchOf(root, h, w, factor, minPixels, maxPixels);
      var square := (p * factor) * (p * factor);
      && ScalePositive(b) && Ideal(h, b) > 0.0 && Ideal(w, b) > 0.0
      && (b.Shrink? ==> (p <= FloorBlocks(Ideal(h, b), factor) <==> w * square <= h * maxPixels))
      && (b.Shrink? ==> (p <= FloorBlocks(Ideal(w, b), factor) <==> h * square <= w * maxPixels))
      && (b.Grow? ==> (CeilBlocks(Ideal(h, b), factor) <= p <==> h * minPixels <= w * square))
      && (b.Grow? ==> (CeilBlocks(Ideal(w, b), factor) <= p <==> w * minPixels <= h * square))
  {
    IdealArea(root, h, w, factor, minPixels, maxPixels);
    var b := BranchOf(root, h, w, factor, minPixels, maxPixels);
    if !b.Keep? {
      var x, y := Ideal(h, b), Ideal(w, b);
      hide IsRoot;
      hide BranchOf;
      SameRatio(h, w, b);
      BlocksOfShare(x, y, h, w, factor, if b.Shrink? then maxPixels else minPixels, p);
      BlocksOfShare(y, x, w, h, factor, if b.Shrink? then maxPixels else minPixels, p);
    }
  }

  lemma BlocksOfShare(x: real, y: real, h: nat, w: nat, factor: nat, area: nat, p: nat)
    requires x > 0.0 && y > 0.0 && h > 0 && w > 0 && factor > 0
    requires IsArea(x, y, area) && x * w as real == y * h as real
    ensures p <= FloorBlocks(x, factor) <==> w * ((p * factor) * (p * factor)) <= h * area
    ensures CeilBlocks(x, factor) <= p <==> h * area <= w * ((p * factor) * (p * factor))
  {
    hide IsArea;
    BlocksAgainst(x, factor, p);
    ShareAgainst(x, y, h, w, p * factor, area);
    hide FloorBlocks;
    hide CeilBlocks;
  }

  lemma BlocksAgainst(x: real, factor: nat, p: nat)
    requires x > 0.0 && factor > 0
    ensures p <= FloorBlocks(x, factor) <==> (p * factor) as real <= x
    ensures CeilBlocks(x, factor) <= p <==> x <= (p * factor) as real
  {
    var q := Quotient(x, factor);
    RealArea(p, factor);
    QuotientAgainst(x, factor as real, q, p as real, (p * factor) as real);
    WholeAgainst(q, p);
  }

  /** A side in factors, of which the block counts are the floor and the ceiling. */
  lemma Quotient(x: real, factor: nat) returns (q: real)
    requires x > 0.0 && factor > 0
    ensures q * factor as real == x && FloorBlocks(x, factor) == q.Floor && CeilBlocks(x, factor) == Ceil(q)
  {
    q := x / factor as real;
    Undivided(x, factor as real, q);
    hide Ceil;
  }

  lemma QuotientAgainst(x: real, f: real, q: real, p: real, pf: real)
    requires f > 0.0 && q * f == x && p * f == pf
    ensures p <= q <==> pf <= x
    ensures q <= p <==> x <= pf
  {
    InOrder(p, q, f);
    InOrder(q, p, f);
  }

  lemma WholeAgainst(q: real, p: nat)
    ensures p <= q.Floor <==> p as real <= q
    ensures Ceil(q) <= p <==> q <= p as real
  {
  }

  lemma InOrder(a: real, b: real, f: real)
    requires f > 0.0
    ensures a <= b <==> a * f <= b * f
  {
    if a <= b {
      TimesMono(a, b, f);
    } else {
      TimesStrict(b, a, f);
    }
  }

  lemma SameRatio(h: nat, w: nat, b: Branch)
    requires ScalePositive(b)
    ensures Ideal(h, b) * w as real == Ideal(w, b) * h as real
  {
    var x, y := Ideal(h, b), Ideal(w, b);
    if b.Shrink? {
      Undivided(h as real, b.beta, x);
      Undivided(w as real, b.beta, y);
      assert x * (y * b.beta) == y * (x * b.beta);
    }
  }

  lemma ShareAgainst(x: real, y: real, h: nat, w: nat, side: nat, area: nat)
    requires x > 0.0 && y > 0.0 && h > 0 && w > 0
    requires IsArea(x, y, area) && x * w as real == y * h as real
    ensures side as real <= x <==> w * (side * side) <= h * area
    ensures x <= side as real <==> h * area <= w * (side * side)
  {
    var n := side as real;
    ShareIsSquare(x, y, h as real, w as real, area as real);
    RealArea(h, area);
    RealArea(side, side);
    RealArea(w, side * side);
    hide IsArea;
    SquaresInOrder(n, x);
    SquaresInOrder(x, n);
    InOrder(n * n, x * x, w as real);
    InOrder(x * x, n * n, w as real);
  }

  lemma SquaresInOrder(a: real, b: real)
    requires a >= 0.0 && b >= 0.0
    ensures a <= b <==> a * a <= b * b
  {
    if a <= b {
      SquaresMono(a, b);
    } else {
      SquaresStrict(b, a);
    }
  }

  lemma ShareIsSquare(x: real, y: real, h: real, w: real, area: real)
    requires x * y == area && x * w == y * h
    ensures h * area == (x * x) * w
  {
    assert h * (x * y) == x * (y * h);
    assert x * (x * w) == (x * x) * w;
  }

  lemma SquaresMono(a: real, b: real)
    requires 0.0 <= a <= b
    ensures a * a <= b * b
  {
    if a < b {
      SquaresStrict(a, b);
    }
  }

  lemma RootOfSquare(root: real -> real, s: real)
    requires IsRoot(root) && s > 0.0
    ensures root(s * s) == s
  {
    PositiveTimes(s, s);
    assert RootAt(root, s * s);
    var r := root(s * s);
    if r < s {
      SquaresStrict(r, s);
    } else if s < r {
      SquaresStrict(s, r);
    }
  }

  lemma SquaresStrict(a: real, b: real)
    requires 0.0 <= a < b
    ensures a * a < b * b
  {
    assert b * b - a * a == (b - a) * (b + a);
    PositiveTimes(b - a, b + a);
  }

  /** One clamped side can break the maximum: 8 by 500 pixels against a limit of 1000 becomes 10 by 250. */
  lemma ClampExceedsMaximum(root: real -> real)
    requires IsRoot(root)
    ensures BranchOf(root, 8, 500, 10, 10, 1000) == Shrink(2.0)
    ensures Resize(root, 8, 500, 10, 10, 1000) == (10, 250)
  {
    RootOfSquare(root, 2.0);
    assert (8.0 / 10.0).Floor == 0 && (500.0 / 10.0).Floor == 50;
    assert RoundByFactor(8.0, 10) == 10;
    assert RoundByFactor(500.0, 10) == 500;
    assert (8.0 * 500.0) / 1000.0 == 4.0;
    assert (8.0 / 2.0 / 10.0).Floor == 0;
    assert (500.0 / 2.0 / 10.0).Floor == 25;
  }

  /** Enlarging can overshoot the maximum: 14 by 14 pixels between 121 and 300 becomes 20 by 20. */
  lemma EnlargingOvershoots(root: real -> real)
    requires IsRoot(root)
    ensures BranchOf(root, 14, 14, 10, 121, 300) == Grow(11.0 / 14.0)
    ensures Resize(root, 14, 14, 10, 121, 300) == (20, 20)
  {
    RootOfSquare(root, 11.0 / 14.0);
    assert (14.0 / 10.0).Floor == 1;
    assert RoundByFactor(14.0, 10) == 10;
    assert 121.0 / (14.0 * 14.0) == (11.0 / 14.0) * (11.0 / 14.0);
    assert 14.0 * (11.0 / 14.0) == 11.0;
    assert Ceil(11.0 / 10.0) == 2;
  }

  /** Bounds closer than a factor of four can miss the minimum: 19 by 19 pixels between 200 and
      361 becomes 10 by 10. */
  lemma NearBoundsMissMinimum(root: real -> real)
    requires IsRoot(root)
    ensures BranchOf(root, 19, 19, 10, 200, 361) == Shrink(1.0)
    ensures Resize(root, 19, 19, 10, 200, 361) == (10, 10)
  {
    RootOfSquare(root, 1.0);
    assert (19.0 / 10.0).Floor == 1;
    assert RoundByFactor(19.0, 10) == 20;
    assert (19.0 * 19.0) / 361.0 == 1.0;
    assert (19.0 / 1.0 / 10.0).Floor == 1;
  }
}
