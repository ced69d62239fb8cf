/** How far int8 activations move an INT4 row product, over exact reals. */
module Int4Accuracy {
  import opened Int4
  import opened Magnitude

  /** Rounding to nearest, halves away from zero. */
  function Round(x: real): (r: int)
    ensures -0.5 <= r as real - x <= 0.5
  {
    if x >= 0.0 then (x + 0.5).Floor else -((-x + 0.5).Floor)
  }

  function ScaleOf(amax: real): (s: real)
    requires amax >= 0.0
    ensures s > 0.0
  {
    if amax > 0.0 then amax / 127.0 else 1.0
  }

  function InverseOf(amax: real): real
    requires amax >= 0.0
  {
    if amax > 0.0 then 127.0 / amax else 0.0
  }

  function Clamp(v: int): Code {
    if v > 127 then 127 else if v < -127 then -127 else v
  }

  function Product(a: real, b: real): real {
    a * b
  }

  function CodeOf(x: real, amax: real): Code
    requires amax >= 0.0
  {
    Clamp(Round(Product(x, InverseOf(amax))))
  }

  lemma Scaled(x: real, amax: real)
    requires amax > 0.0 && -amax <= x <= amax
    ensures x == Product(Product(x, InverseOf(amax)), ScaleOf(amax)) && -127.0 <= Product(x, InverseOf(amax)) <= 127.0
  {
    var i, s := InverseOf(amax), ScaleOf(amax);
    Units(amax, i, s);
    Undone(x, i, s);
    Bounded(x, amax, i);
  }

  lemma Units(amax: real, i: real, s: real)
    requires amax > 0.0 && i == 127.0 / amax && s == amax / 127.0
    ensures i * s == 1.0 && amax * i == 127.0 && i > 0.0
  {
  }

  lemma Undone(x: real, i: real, s: real)
    requires i * s == 1.0
    ensures x == (x * i) * s
  {
    RealAssoc(x, i, s);
    var unit := i * s;
    assert x * unit == x;
  }

  lemma RealAssoc(x: real, y: real, z: real)
    ensures (x * y) * z == x * (y * z)
  {
  }

  lemma Bounded(x: real, m: real, i: real)
    requires -m <= x <= m && i > 0.0
    ensures -(m * i) <= x * i <= m * i
  {
  }

  lemma Within(e: real, s: real)
    requires s > 0.0 && -0.5 <= e <= 0.5
    ensures -(s / 2.0) <= Product(e, s) <= s / 2.0
  {
    assert (e + 0.5) * s >= 0.0 && (0.5 - e) * s >= 0.0;
    assert (e + 0.5) * s == e * s + 0.5 * s && (0.5 - e) * s == 0.5 * s - e * s;
  }

  lemma Factored(x: real, v: real, r: int, s: real)
    requires x == Product(v, s)
    ensures x - Times(r, s) == Product(v - r as real, s)
  {
  }

  /** How far a code's value is from the element. */
  function Miss(x: real, q: int, s: real): real {
    Abs(x - Times(q, s))
  }

  /** Each code is in range and its value within half a step of the element. */
  lemma CodeIsAccurate(x: real, amax: real)
    requires amax >= 0.0 && Abs(x) <= amax
    ensures -127 <= CodeOf(x, amax) <= 127
    ensures Miss(x, CodeOf(x, amax), ScaleOf(amax)) <= ScaleOf(amax) / 2.0
    ensures amax == 0.0 ==> x == 0.0 && CodeOf(x, amax) == 0
  {
    hide Product;
    hide Round;
    hide Times;
    if amax > 0.0 {
      Scaled(x, amax);
      RoundedIsAccurate(x, Product(x, InverseOf(amax)), ScaleOf(amax));
    } else {
      ZeroCode();
    }
  }

  lemma ZeroCode()
    ensures CodeOf(0.0, 0.0) == 0 && Miss(0.0, 0, 1.0) == 0.0
  {
  }

  lemma RoundedIsAccurate(x: real, v: real, s: real)
    requires s > 0.0 && x == Product(v, s) && -127.0 <= v <= 127.0
    ensures -127 <= Round(v) <= 127 && Clamp(Round(v)) == Round(v)
    ensures Miss(x, Round(v), s) <= s / 2.0
  {
    hide Product;
    hide Times;
    var r := Round(v);
    assert -127 <= r <= 127;
    Within(v - r as real, s);
    Factored(x, v, r, s);
  }

  predicate IsQuantized(x: seq<real>, a: Activation<real>) {
    var amax := Amax(x, |x|);
    && a.Valid() && |a.q| == |x| && a.scale == ScaleOf(amax)
    && forall i :: 0 <= i < |x| ==> a.q[i] == CodeOf(x[i], amax)
  }

  /** One token's activation, quantised group by group. */
  method QuantizeActivation(x: seq<real>) returns (a: Activation<real>)
    requires |x| % 128 == 0
    ensures IsQuantized(x, a)
  {
    var amax := 0.0;
    for i := 0 to |x|
      invariant amax == Amax(x, i)
    {
      amax := if Abs(x[i]) > amax then Abs(x[i]) else amax;
    }
    var q: seq<Code>, sums: seq<int> := [], [];
    for g := 0 to |x| / 128
      invariant |q| == 128 * g && |sums| == g
      invariant forall i :: 0 <= i < |q| ==> q[i] == CodeOf(x[i], amax)
      invariant Activation(q, ScaleOf(amax), sums).Valid()
    {
      var codes, sum := QuantizeGroup(x[128 * g..128 * g + 128], amax);
      Extended(q, codes, sums, sum, ScaleOf(amax));
      q, sums := q + codes, sums + [sum];
    }
    a := Activation(q, ScaleOf(amax), sums);
  }

  lemma Extended(q: seq<Code>, codes: seq<Code>, sums: seq<int>, sum: int, scale: real)
    requires |codes| == 128 && sum == CodeSum(codes, 128) && Activation(q, scale, sums).Valid()
    ensures Activation(q + codes, scale, sums + [sum]).Valid()
  {
    var a, b := Activation(q, scale, sums), Activation(q + codes, scale, sums + [sum]);
    forall g: nat | g < |sums| + 1 ensures b.SumAt(g) {
      if g < |sums| {
        assert a.SumAt(g);
        assert b.Codes(g) == a.Codes(g);
      } else {
        assert b.Codes(g) == codes;
      }
    }
  }

  method QuantizeGroup(x: seq<real>, amax: real) returns (codes: seq<Code>, sum: int)
    requires amax >= 0.0
    ensures |codes| == |x| && forall i :: 0 <= i < |x| ==> codes[i] == CodeOf(x[i], amax)
    ensures sum == CodeSum(codes, |codes|)
  {
    codes, sum := [], 0;
    for k := 0 to |x|
      invariant |codes| == k && forall i :: 0 <= i < k ==> codes[i] == CodeOf(x[i], amax)
      invariant sum == CodeSum(codes, k)
    {
      var code := CodeOf(x[k], amax);
      SumExtends(codes, code, k);
      codes, sum := codes + [code], sum + code;
    }
  }

  lemma {:induction false} SumExtends(codes: seq<Code>, code: Code, n: nat)
    requires n <= |codes|
    ensures CodeSum(codes + [code], n) == CodeSum(codes, n)
  {
    if n > 0 {
      SumExtends(codes, code, n - 1);
    }
  }

  // ----- The two row products -----

  /** The group's product with the raw activation. */
  function Exact(bytes: seq<Byte>, x: seq<real>, n: nat): real
    requires |bytes| == 64 && |x| == 128 && n <= 128
  {
    if n == 0 then 0.0 else Exact(bytes, x, n - 1) + Times(Nibble(bytes, n - 1) - 7, x[n - 1])
  }

  function Times(w: int, x: real): real {
    w as real * x
  }

  function Elements(x: seq<real>, g: nat): (r: seq<real>)
    requires 128 * g + 128 <= |x|
    ensures |r| == 128
  {
    x[128 * g..128 * g + 128]
  }

  /** The reference with full-precision activations. */
  function RowExact(packed: seq<Byte>, scales: seq<real>, x: seq<real>, n: nat): real
    requires |packed| == 64 * |scales| && |x| == 128 * |scales| && n <= |scales|
  {
    if n == 0 then 0.0
    else RowExact(packed, scales, x, n - 1) + Exact(Bytes(packed, n - 1), Elements(x, n - 1), 128) * scales[n - 1]
  }

  const REAL_OPS: RowOps<real> := RowOps(0.0, (i: int) => i as real, (a: real, b: real) => a * b, (a: real, b: real) => a + b)

  function ScaleMass(scales: seq<real>, n: nat): (r: real)
    requires n <= |scales|
    ensures r >= 0.0
  {
    if n == 0 then 0.0 else ScaleMass(scales, n - 1) + Abs(scales[n - 1])
  }

  lemma TermError(w: int, x: real, q: int, s: real)
    requires -7 <= w <= 8 && s > 0.0 && Miss(x, q, s) <= s / 2.0
    ensures Abs(Times(w, x) - Times(w * q, s)) <= 4.0 * s
  {
    var k := if w >= 0 then w as real else -(w as real);
    var e := x - Times(q, s);
    ScaledError(k, e, s / 2.0);
    assert w < 0 ==> w as real * e == -(k * e);
    ErrorTerm(w, x, q, s);
  }

  lemma ScaledError(k: real, e: real, h: real)
    requires 0.0 <= k <= 8.0 && -h <= e <= h
    ensures -(8.0 * h) <= k * e <= 8.0 * h
  {
    assert k * (h - e) >= 0.0 && k * (h + e) >= 0.0;
    assert (8.0 - k) * h >= 0.0;
  }

  lemma ErrorTerm(w: int, x: real, q: int, s: real)
    ensures Times(w, x) - Times(w * q, s) == w as real * (x - Times(q, s))
  {
    assert (w * q) as real == w as real * q as real;
    RealAssoc(w as real, q as real, s);
  }

  predicate CloseTo(x: seq<real>, q: seq<Code>, s: real) {
    |x| == |q| && forall i :: 0 <= i < |x| ==> Miss(x[i], q[i], s) <= s / 2.0
  }

  /** Within a group, at most four steps of error per column. */
  lemma {:induction false} GroupError(bytes: seq<Byte>, x: seq<real>, q: seq<Code>, s: real, n: nat)
    requires Group(bytes, q) && |x| == 128 && n <= 128 && s > 0.0 && CloseTo(x, q, s)
    ensures Abs(Exact(bytes, x, n) - Times(Centred(bytes, q, n), s)) <= Times(n, 4.0 * s)
  {
    hide Abs;
    hide Times;
    hide Miss;
    if n == 0 {
      NoError(s);
    } else {
      var c := n - 1;
      var w := Nibble(bytes, c) - 7;
      GroupError(bytes, x, q, s, c);
      TermError(w, x[c], q[c], s);
      Combine(Exact(bytes, x, c), Times(Centred(bytes, q, c), s), Times(w, x[c]), Times(w * q[c], s), Times(c, 4.0 * s), 4.0 * s);
      TimesSum(Centred(bytes, q, c), w * q[c], s);
      TimesSum(c, 1, 4.0 * s);
      TimesOne(4.0 * s);
    }
  }

  lemma NoError(s: real)
    ensures Abs(0.0 - Times(0, s)) <= Times(0, 4.0 * s)
  {
  }

  lemma TimesOne(s: real)
    ensures Times(1, s) == s
  {
  }

  lemma TimesSum(a: int, b: int, s: real)
    ensures Times(a + b, s) == Times(a, s) + Times(b, s)
  {
  }

  lemma Combine(a: real, b: real, x: real, y: real, bound: real, more: real)
    requires Abs(a - b) <= bound && Abs(x - y) <= more
    ensures Abs((a + x) - (b + y)) <= bound + more
  {
  }

  lemma GroupDifference(exact: real, centred: int, gscale: real, s: real, bound: real)
    requires Abs(exact - Times(centred, s)) <= bound
    ensures Abs(exact * gscale - centred as real * gscale * s) <= Abs(gscale) * bound
  {
    var c := centred as real;
    var e := exact - c * s;
    Reordered(exact, c, gscale, s);
    ProductBound(e, gscale, bound);
  }

  lemma Reordered(exact: real, c: real, g: real, s: real)
    ensures exact * g - c * g * s == (exact - c * s) * g
  {
    assert c * g * s == c * s * g;
  }

  lemma ProductBound(e: real, g: real, bound: real)
    requires Abs(e) <= bound
    ensures Abs(e * g) <= Abs(g) * bound
  {
    assert Abs(e * g) == Abs(e) * Abs(g);
  }

  lemma CloseGroup(x: seq<real>, a: Activation<real>, g: nat)
    requires IsQuantized(x, a) && g < |a.groupSums|
    ensures CloseTo(Elements(x, g), a.Codes(g), a.scale)
  {
    hide CodeOf;
    hide ScaleOf;
    hide Amax;
    hide Abs;
    hide Miss;
    var elements, codes, at := Elements(x, g), a.Codes(g), 128 * g;
    forall i | 0 <= i < 128 ensures Miss(elements[i], codes[i], a.scale) <= a.scale / 2.0 {
      assert elements[i] == x[at + i] && codes[i] == a.q[at + i] == CodeOf(x[at + i], Amax(x, |x|));
      CodeIsAccurate(x[at + i], Amax(x, |x|));
    }
  }

  /** 512 activation steps for each unit of scale. */
  function Budget(s: real, mass: real): real {
    512.0 * s * mass
  }

  /** The accuracy bound: int8 activations move a row by at most 512 activation steps for
      each unit of group scale. */
  lemma {:induction false} RowError(packed: seq<Byte>, scales: seq<real>, x: seq<real>, a: Activation<real>, n: nat)
    requires RowFits(packed, scales, a) && IsQuantized(x, a) && n <= |scales|
    ensures Abs(RowExact(packed, scales, x, n) - RowDot(REAL_OPS, packed, scales, a, n)) <= Budget(a.scale, ScaleMass(scales, n))
  {
    hide Exact;
    hide Centred;
    hide RowExact;
    hide RowDot;
    hide ScaleMass;
    hide Budget;
    hide Abs;
    hide Times;
    if n == 0 {
      RowNone(packed, scales, x, a);
    } else {
      var g := n - 1;
      RowError(packed, scales, x, a, g);
      PartError(packed, x, a, g);
      RowNext(packed, scales, x, a, g, Exact(Bytes(packed, g), Elements(x, g), 128),
              Centred(Bytes(packed, g), a.Codes(g), 128));
    }
  }

  lemma PartError(packed: seq<Byte>, x: seq<real>, a: Activation<real>, g: nat)
    requires IsQuantized(x, a) && g < |a.groupSums| && |packed| == 64 * |a.groupSums|
    ensures Abs(Exact(Bytes(packed, g), Elements(x, g), 128) - Times(Centred(Bytes(packed, g), a.Codes(g), 128), a.scale))
         <= Times(128, 4.0 * a.scale)
  {
    CloseGroup(x, a, g);
    GroupError(Bytes(packed, g), Elements(x, g), a.Codes(g), a.scale, 128);
  }

  lemma RowNone(packed: seq<Byte>, scales: seq<real>, x: seq<real>, a: Activation<real>)
    requires RowFits(packed, scales, a) && |x| == 128 * |scales|
    ensures Abs(RowExact(packed, scales, x, 0) - RowDot(REAL_OPS, packed, scales, a, 0)) <= Budget(a.scale, ScaleMass(scales, 0))
  {
  }

  lemma RowNext(packed: seq<Byte>, scales: seq<real>, x: seq<real>, a: Activation<real>, g: nat, part: real, centred: int)
    requires RowFits(packed, scales, a) && |x| == 128 * |scales| && g < |scales|
    requires part == Exact(Bytes(packed, g), Elements(x, g), 128) && centred == Centred(Bytes(packed, g), a.Codes(g), 128)
    requires Abs(part - Times(centred, a.scale)) <= Times(128, 4.0 * a.scale)
    requires Abs(RowExact(packed, scales, x, g) - RowDot(REAL_OPS, packed, scales, a, g)) <= Budget(a.scale, ScaleMass(scales, g))
    ensures Abs(RowExact(packed, scales, x, g + 1) - RowDot(REAL_OPS, packed, scales, a, g + 1))
         <= Budget(a.scale, ScaleMass(scales, g + 1))
  {
    hide Exact;
    hide Centred;
    hide Abs;
    hide Times;
    hide Budget;
    hide RowDot;
    hide RowExact;
    hide ScaleMass;
    DotNext(packed, scales, a, g);
    ExactNext(packed, scales, x, g);
    RowStep(RowExact(packed, scales, x, g), RowDot(REAL_OPS, packed, scales, a, g), part, centred, scales[g], a.scale,
            ScaleMass(scales, g), RowExact(packed, scales, x, g + 1), RowDot(REAL_OPS, packed, scales, a, g + 1));
  }

  lemma ExactNext(packed: seq<Byte>, scales: seq<real>, x: seq<real>, g: nat)
    requires |packed| == 64 * |scales| && |x| == 128 * |scales| && g < |scales|
    ensures RowExact(packed, scales, x, g + 1)
         == RowExact(packed, scales, x, g) + Exact(Bytes(packed, g), Elements(x, g), 128) * scales[g]
    ensures ScaleMass(scales, g + 1) == ScaleMass(scales, g) + Abs(scales[g])
  {
    hide Exact;
    hide Abs;
  }

  lemma DotNext(packed: seq<Byte>, scales: seq<real>, a: Activation<real>, g: nat)
    requires RowFits(packed, scales, a) && g < |scales|
    ensures RowDot(REAL_OPS, packed, scales, a, g + 1)
         == RowDot(REAL_OPS, packed, scales, a, g) + Centred(Bytes(packed, g), a.Codes(g), 128) as real * scales[g] * a.scale
  {
    hide Centred;
  }

  lemma RowStep(exact: real, dot: real, part: real, centred: int, gscale: real, s: real, mass: real, exact': real, dot': real)
    requires Abs(exact - dot) <= Budget(s, mass) && Abs(part - Times(centred, s)) <= Times(128, 4.0 * s)
    requires exact' == exact + part * gscale && dot' == dot + centred as real * gscale * s
    ensures Abs(exact' - dot') <= Budget(s, mass + Abs(gscale))
  {
    var bound := 512.0 * s;
    GroupDifference(part, centred, gscale, s, bound);
    Combine(exact, dot, part * gscale, centred as real * gscale * s, bound * mass, Abs(gscale) * bound);
    Distribute(bound, mass, Abs(gscale));
  }

  lemma Distribute(k: real, a: real, b: real)
    ensures k * (a + b) == k * a + b * k
  {
  }

  lemma {:induction false} ZeroGroup(bytes: seq<Byte>, x: seq<real>, q: seq<Code>, n: nat)
    requires Group(bytes, q) && |x| == 128 && n <= 128
    requires forall i :: 0 <= i < 128 ==> x[i] == 0.0 && q[i] == 0
    ensures Exact(bytes, x, n) == 0.0 && Centred(bytes, q, n) == 0
  {
    if n > 0 {
      ZeroGroup(bytes, x, q, n - 1);
    }
  }

  /** The zero activation is exact: both products are 0. */
  lemma {:induction false} ZeroRow(packed: seq<Byte>, scales: seq<real>, x: seq<real>, a: Activation<real>, n: nat)
    requires RowFits(packed, scales, a) && IsQuantized(x, a) && n <= |scales| && Amax(x, |x|) == 0.0
    ensures RowExact(packed, scales, x, n) == RowDot(REAL_OPS, packed, scales, a, n) == 0.0
  {
    hide Exact;
    hide Centred;
    if n > 0 {
      ZeroRow(packed, scales, x, a, n - 1);
      ZeroPart(packed, x, a, n - 1);
    }
  }

  lemma ZeroPart(packed: seq<Byte>, x: seq<real>, a: Activation<real>, g: nat)
    requires IsQuantized(x, a) && g < |a.groupSums| && |packed| == 64 * |a.groupSums| && Amax(x, |x|) == 0.0
    ensures Exact(Bytes(packed, g), Elements(x, g), 128) == 0.0 && Centred(Bytes(packed, g), a.Codes(g), 128) == 0
  {
    hide Miss;
    hide CodeOf;
    forall i | 0 <= i < 128 ensures Elements(x, g)[i] == 0.0 && a.Codes(g)[i] == 0 {
      CodeIsAccurate(x[128 * g + i], 0.0);
    }
    ZeroGroup(Bytes(packed, g), Elements(x, g), a.Codes(g), 128);
  }

  // ----- The rows, column by column -----

  /** The weight at column `c` of a row: the low nibble of a byte for an even column, the high one for
      an odd column, minus the zero point. */
  function WeightAt(packed: seq<Byte>, c: nat): (w: int)
    requires c < 2 * |packed|
  {
    (if c % 2 == 0 then packed[c / 2] % 16 else packed[c / 2] / 16) as int - 7
  }

  /** The sum over the first `n` columns of weight times element times the column's group scale. */
  function ByColumns(packed: seq<Byte>, scales: seq<real>, x: seq<real>, n: nat): real
    requires |packed| == 64 * |scales| && n <= |x| == 128 * |scales|
  {
    if n == 0 then 0.0
    else ByColumns(packed, scales, x, n - 1) + Product(Times(WeightAt(packed, n - 1), x[n - 1]), scales[(n - 1) / 128])
  }

  function Values(q: seq<Code>): (r: seq<real>)
    ensures |r| == |q|
  {
    seq(|q|, i requires 0 <= i < |q| => q[i] as real)
  }

  lemma ColumnOfGroup(packed: seq<Byte>, g: nat, c: nat)
    requires 64 * g + 64 <= |packed| && c < 128
    ensures WeightAt(packed, 128 * g + c) == Nibble(Bytes(packed, g), c) - 7
  {
    assert (128 * g + c) / 2 == 64 * g + c / 2 && (128 * g + c) % 2 == c % 2;
  }

  lemma NextProduct(sum: real, term: real, scale: real)
    ensures Product(sum + term, scale) == Product(sum, scale) + Product(term, scale)
  {
  }

  lemma NoProduct(scale: real)
    ensures Product(0.0, scale) == 0.0
  {
  }

  /** A group's columns. */
  lemma {:induction false} GroupByColumns(packed: seq<Byte>, scales: seq<real>, x: seq<real>, g: nat, n: nat)
    requires |packed| == 64 * |scales| && |x| == 128 * |scales| && g < |scales| && n <= 128
    ensures ByColumns(packed, scales, x, 128 * g + n)
         == ByColumns(packed, scales, x, 128 * g) + Product(Exact(Bytes(packed, g), Elements(x, g), n), scales[g])
  {
    hide Product;
    hide Times;
    hide WeightAt;
    hide Nibble;
    if n == 0 {
      NoProduct(scales[g]);
    } else {
      var c := n - 1;
      GroupByColumns(packed, scales, x, g, c);
      ColumnOfGroup(packed, g, c);
      assert (128 * g + c) / 128 == g && Elements(x, g)[c] == x[128 * g + c];
      NextProduct(Exact(Bytes(packed, g), Elements(x, g), c), Times(Nibble(Bytes(packed, g), c) - 7, Elements(x, g)[c]), scales[g]);
    }
  }

  lemma ExactGroup(packed: seq<Byte>, scales: seq<real>, x: seq<real>, g: nat)
    requires |packed| == 64 * |scales| && |x| == 128 * |scales| && g < |scales|
    requires RowExact(packed, scales, x, g) == ByColumns(packed, scales, x, 128 * g)
    ensures RowExact(packed, scales, x, g + 1) == ByColumns(packed, scales, x, 128 * g + 128)
  {
    hide *;
    ExactNext(packed, scales, x, g);
    GroupByColumns(packed, scales, x, g, 128);
    ProductIs(Exact(Bytes(packed, g), Elements(x, g), 128), scales[g]);
  }

  /** The reference row is the sum over all columns. */
  lemma {:induction false} RowExactByColumns(packed: seq<Byte>, scales: seq<real>, x: seq<real>, n: nat)
    requires |packed| == 64 * |scales| && |x| == 128 * |scales| && n <= |scales|
    ensures RowExact(packed, scales, x, n) == ByColumns(packed, scales, x, 128 * n)
  {
    if n > 0 {
      hide *;
      RowExactByColumns(packed, scales, x, n - 1);
      ExactGroup(packed, scales, x, n - 1);
    }
  }

  lemma ProductIs(a: real, b: real)
    ensures Product(a, b) == a * b
  {
  }

  lemma {:induction false} CentredIsExact(bytes: seq<Byte>, q: seq<Code>, n: nat)
    requires Group(bytes, q) && n <= 128
    ensures Centred(bytes, q, n) as real == Exact(bytes, Values(q), n)
  {
    hide Nibble;
    if n > 0 {
      CentredIsExact(bytes, q, n - 1);
      CodeTimes(Nibble(bytes, n - 1) - 7, q[n - 1]);
    }
  }

  lemma CodeTimes(w: int, q: int)
    ensures (w * q) as real == Times(w, q as real)
  {
  }

  lemma ValuesOfGroup(a: Activation<real>, g: nat)
    requires |a.q| == 128 * |a.groupSums| && g < |a.groupSums|
    ensures Values(a.Codes(g)) == Elements(Values(a.q), g)
  {
    var codes, elements := Values(a.Codes(g)), Elements(Values(a.q), g);
    forall i | 0 <= i < 128 ensures codes[i] == elements[i] {
      assert a.Codes(g)[i] == a.q[128 * g + i];
    }
  }

  lemma DotGroup(packed: seq<Byte>, scales: seq<real>, a: Activation<real>, g: nat, x: seq<real>)
    requires RowFits(packed, scales, a) && |a.q| == 128 * |a.groupSums| && |a.groupSums| == |scales| && |packed| == 64 * |scales|
    requires g < |scales| && x == Values(a.q)
    requires RowDot(REAL_OPS, packed, scales, a, g) == Product(ByColumns(packed, scales, x, 128 * g), a.scale)
    ensures RowDot(REAL_OPS, packed, scales, a, g + 1) == Product(ByColumns(packed, scales, x, 128 * g + 128), a.scale)
  {
    hide *;
    ValuesOfGroup(a, g);
    DotNext(packed, scales, a, g);
    GroupByColumns(packed, scales, x, g, 128);
    CentredValues(Bytes(packed, g), a.Codes(g));
    DotStep(ByColumns(packed, scales, x, 128 * g), Exact(Bytes(packed, g), Elements(x, g), 128), scales[g], a.scale);
  }

  lemma CentredValues(bytes: seq<Byte>, q: seq<Code>)
    requires |bytes| == 64 && |q| == 128
    ensures Group(bytes, q) && Centred(bytes, q, 128) as real == Exact(bytes, Values(q), 128)
  {
    CentredIsExact(bytes, q, 128);
  }

  /** The int8 row is the sum over all columns of weight times code times group scale, times the
      activation's scale. */
  lemma {:induction false} RowDotByColumns(packed: seq<Byte>, scales: seq<real>, a: Activation<real>, n: nat, x: seq<real>)
    requires RowFits(packed, scales, a) && n <= |scales| && x == Values(a.q)
    ensures |x| == 128 * |scales|
    ensures RowDot(REAL_OPS, packed, scales, a, n) == Product(ByColumns(packed, scales, x, 128 * n), a.scale)
  {
    assert |a.q| == 128 * |a.groupSums| && |a.groupSums| == |scales| && |packed| == 64 * |scales|;
    hide *;
    if n == 0 {
      NoColumns(packed, scales, a, x);
    } else {
      RowDotByColumns(packed, scales, a, n - 1, x);
      DotGroup(packed, scales, a, n - 1, x);
    }
  }

  lemma DotStep(sum: real, part: real, gscale: real, scale: real)
    ensures Product(sum + Product(part, gscale), scale) == Product(sum, scale) + part * gscale * scale
  {
  }

  lemma NoColumns(packed: seq<Byte>, scales: seq<real>, a: Activation<real>, x: seq<real>)
    requires RowFits(packed, scales, a) && |x| == 128 * |scales|
    ensures RowDot(REAL_OPS, packed, scales, a, 0) == Product(ByColumns(packed, scales, x, 0), a.scale)
  {
    NoProduct(a.scale);
  }

  /** The accuracy bound on the columns themselves. */
  lemma RowErrorByColumns(packed: seq<Byte>, scales: seq<real>, x: seq<real>, a: Activation<real>)
    requires RowFits(packed, scales, a) && IsQuantized(x, a)
    ensures Abs(ByColumns(packed, scales, x, |x|) - Product(ByColumns(packed, scales, Values(a.q), |x|), a.scale))
         <= 512.0 * a.scale * ScaleMass(scales, |scales|)
  {
    hide ByColumns;
    hide RowExact;
    hide RowDot;
    hide Abs;
    RowExactByColumns(packed, scales, x, |scales|);
    RowDotByColumns(packed, scales, a, |scales|, Values(a.q));
    RowError(packed, scales, x, a, |scales|);
  }
}
