/** Over exact reals the one-pass head loop computes the softmax-weighted average of
    the values, for any exponential: positive, and turning sums into products. */
module Softmax {
  import opened Attention
  import opened Flat

  datatype ExtReal = NegInf | Fin(x: real)

  ghost predicate ExpLaw(e: real -> real, a: real, b: real) {
    e(a) > 0.0 && e(a + b) == e(a) * e(b)
  }

  ghost predicate IsExp(e: real -> real) {
    forall a, b :: ExpLaw(e, a, b)
  }

  lemma ExpPositive(e: real -> real, a: real)
    requires IsExp(e)
    ensures e(a) > 0.0
  {
    assert ExpLaw(e, a, a);
  }

  /** The scaled dot product, over the shorter of the two widths. */
  function Score(q: seq<real>, k: seq<real>, scale: real): real {
    var n := if |q| < |k| then |q| else |k|;
    Sum(Products(q[..n], k[..n])) * scale
  }

  function Larger(a: ExtReal, b: ExtReal): bool {
    a.Fin? && (b.NegInf? || a.x > b.x)
  }

  /** `exp(a - b)`, with `exp` of minus infinity being 0. */
  function ExpDiff(e: real -> real, a: ExtReal, b: ExtReal): real {
    if a.Fin? && b.Fin? then e(a.x - b.x) else 0.0
  }

  function Recip(x: real): real {
    if x == 0.0 then 0.0 else 1.0 / x
  }

  function RealOps(e: real -> real, scale: real): AttnOps<ExtReal, real> {
    AttnOps(NegInf,
            (q, k) => Fin(Score(q, k, scale)),
            (a, b) => Larger(a, b),
            (a, b) => ExpDiff(e, a, b),
            0.0,
            (a, b) => a + b,
            (a, b) => a * b,
            (o, v, w) => o + w * v,
            x => x > 0.0,
            x => Recip(x))
  }

  // ----- The two-pass definition -----

  function Scores(s: Shape, keys: seq<real>, n: nat, q: seq<real>, kvHead: nat, scale: real): (r: seq<real>)
    requires kvHead < s.kvHeads && n * s.KvWidth() <= |keys|
    ensures |r| == n
    decreases n
  {
    if n == 0 then []
    else
      RowBounds(n - 1, n, s.KvWidth());
      Scores(s, keys, n - 1, q, kvHead, scale) + [Score(q, Slot(s, keys, n - 1, kvHead), scale)]
  }

  /** The kv head's value vectors at the first `n` positions. */
  function ValueRows(s: Shape, values: seq<real>, n: nat, kvHead: nat): (r: seq<seq<real>>)
    requires kvHead < s.kvHeads && n * s.KvWidth() <= |values|
    ensures |r| == n && forall i :: 0 <= i < n ==> |r[i]| == s.headDim
    decreases n
  {
    if n == 0 then []
    else
      RowBounds(n - 1, n, s.KvWidth());
      ValueRows(s, values, n - 1, kvHead) + [Slot(s, values, n - 1, kvHead)]
  }

  function Column(rows: seq<seq<real>>, j: nat): (r: seq<real>)
    requires forall i :: 0 <= i < |rows| ==> j < |rows[i]|
    ensures |r| == |rows|
  {
    seq(|rows|, i requires 0 <= i < |rows| => rows[i][j])
  }

  /** `m` is the largest of the scores. */
  ghost predicate IsMax(scores: seq<real>, m: real) {
    m in scores && forall x :: x in scores ==> x <= m
  }

  function Sum(a: seq<real>): real {
    if a == [] then 0.0 else Sum(a[..|a| - 1]) + a[|a| - 1]
  }

  function Exps(e: real -> real, scores: seq<real>, shift: real): seq<real> {
    seq(|scores|, i requires 0 <= i < |scores| => e(scores[i] - shift))
  }

  function Products(a: seq<real>, b: seq<real>): seq<real>
    requires |a| == |b|
  {
    seq(|a|, i requires 0 <= i < |a| => a[i] * b[i])
  }

  /** The sum of `exp(score - shift)`. */
  function Weight(e: real -> real, scores: seq<real>, shift: real): real {
    Sum(Exps(e, scores, shift))
  }

  /** The sum of `exp(score - shift) * value`. */
  function WeightedSum(e: real -> real, scores: seq<real>, values: seq<real>, shift: real): real
    requires |values| == |scores|
  {
    Sum(Products(Exps(e, scores, shift), values))
  }

  lemma {:induction false} SumPositive(a: seq<real>)
    requires forall i :: 0 <= i < |a| ==> a[i] > 0.0
    ensures Sum(a) >= 0.0
    ensures a != [] ==> Sum(a) > 0.0
  {
    if a != [] {
      SumPositive(a[..|a| - 1]);
    }
  }

  lemma {:induction false} SumScaled(a: seq<real>, b: seq<real>, f: real, sum: real)
    requires |b| == |a| && forall i :: 0 <= i < |a| ==> b[i] == a[i] * f
    requires sum == Sum(a)
    ensures Sum(b) == sum * f
  {
    if a != [] {
      var n := |a| - 1;
      SumScaled(a[..n], b[..n], f, sum - a[n]);
    }
  }

  lemma WeightPositive(e: real -> real, scores: seq<real>, shift: real)
    requires IsExp(e)
    ensures Weight(e, scores, shift) >= 0.0
    ensures scores != [] ==> Weight(e, scores, shift) > 0.0
  {
    forall i | 0 <= i < |scores| ensures Exps(e, scores, shift)[i] > 0.0 {
      ExpPositive(e, scores[i] - shift);
    }
    SumPositive(Exps(e, scores, shift));
  }

  /** The values averaged with weights proportional to `exp(score - shift)`. */
  ghost predicate IsAverage(e: real -> real, scores: seq<real>, values: seq<real>, shift: real, r: real)
    requires |values| == |scores|
  {
    Weight(e, scores, shift) > 0.0 && r * Weight(e, scores, shift) == WeightedSum(e, scores, values, shift)
  }

  // ----- Changing the shift -----

  lemma ExpShift(e: real -> real, x: real, a: real, b: real)
    requires IsExp(e)
    ensures e(x - a) * e(a - b) == e(x - b)
  {
    assert ExpLaw(e, x - a, a - b);
    assert (x - a) + (a - b) == x - b;
  }

  /** The sums at shift `b` are the sums `w` and `p` at shift `a`, times `exp(a - b)`. */
  lemma Reshift(e: real -> real, scores: seq<real>, values: seq<real>, a: real, b: real, f: real, w: real, p: real)
    requires IsExp(e) && |values| == |scores| && f == e(a - b)
    requires w == Weight(e, scores, a) && p == WeightedSum(e, scores, values, a)
    ensures Weight(e, scores, b) == w * f
    ensures WeightedSum(e, scores, values, b) == p * f
  {
    var x, y := Exps(e, scores, a), Exps(e, scores, b);
    ExpsScaled(e, scores, a, b, f);
    assert Sum(y) == w * f by {
      SumScaled(x, y, f, w);
    }
    assert Sum(Products(y, values)) == p * f by {
      ProductsScaled(x, y, values, f);
      SumScaled(Products(x, values), Products(y, values), f, p);
    }
  }

  lemma ExpsScaled(e: real -> real, scores: seq<real>, a: real, b: real, f: real)
    requires IsExp(e) && f == e(a - b)
    ensures forall i :: 0 <= i < |scores| ==> Exps(e, scores, b)[i] == Exps(e, scores, a)[i] * f
  {
    forall i | 0 <= i < |scores| ensures Exps(e, scores, b)[i] == Exps(e, scores, a)[i] * f {
      ExpShift(e, scores[i], a, b);
    }
  }

  lemma ProductsScaled(x: seq<real>, y: seq<real>, values: seq<real>, f: real)
    requires |x| == |y| == |values| && forall i :: 0 <= i < |x| ==> y[i] == x[i] * f
    ensures forall i :: 0 <= i < |x| ==> Products(y, values)[i] == Products(x, values)[i] * f
  {
    forall i | 0 <= i < |x| ensures Products(y, values)[i] == Products(x, values)[i] * f {
      Commute(x[i], f, values[i]);
    }
  }

  lemma Commute(x: real, f: real, v: real)
    ensures (x * f) * v == (x * v) * f
  {
  }

  lemma ExpZero(e: real -> real)
    requires IsExp(e)
    ensures e(0.0) == 1.0
  {
    assert ExpLaw(e, 0.0, 0.0);
    assert 0.0 + 0.0 == 0.0;
    assert e(0.0) * (e(0.0) - 1.0) == 0.0;
  }

  // ----- The loop -----

  /** After the scores seen so far, the running maximum is the largest and the running
      sums are the two-pass sums at that shift. */
  ghost predicate Tracks(e: real -> real, scores: seq<real>, rows: seq<seq<real>>, dim: nat, acc: Acc<ExtReal, real>) {
    && |rows| == |scores| && |acc.out| == dim
    && (forall i :: 0 <= i < |rows| ==> |rows[i]| == dim)
    && (scores == [] ==> acc.max == NegInf && acc.sum == 0.0 && forall j :: 0 <= j < dim ==> acc.out[j] == 0.0)
    && (scores != [] ==>
          && acc.max.Fin? && IsMax(scores, acc.max.x)
          && SumsAt(e, scores, rows, dim, acc.max.x, acc.sum, acc.out))
  }

  /** `sum` and `out` are the weight and the weighted sums at `shift`. */
  ghost predicate SumsAt(e: real -> real, scores: seq<real>, rows: seq<seq<real>>, dim: nat, shift: real, sum: real, out: seq<real>)
    requires |rows| == |scores| && forall i :: 0 <= i < |rows| ==> |rows[i]| == dim
  {
    && |out| == dim
    && sum == Weight(e, scores, shift)
    && forall j :: 0 <= j < dim ==> out[j] == WeightedSum(e, scores, Column(rows, j), shift)
  }

  lemma WeightAppend(e: real -> real, scores: seq<real>, score: real, shift: real)
    ensures Weight(e, scores + [score], shift) == Weight(e, scores, shift) + e(score - shift)
  {
    assert Exps(e, scores + [score], shift) == Exps(e, scores, shift) + [e(score - shift)];
    SumAppend(Exps(e, scores, shift), e(score - shift));
  }

  lemma WeightedSumAppend(e: real -> real, scores: seq<real>, values: seq<real>, score: real, v: real, shift: real)
    requires |values| == |scores|
    ensures WeightedSum(e, scores + [score], values + [v], shift)
         == WeightedSum(e, scores, values, shift) + e(score - shift) * v
  {
    var x, y := Exps(e, scores, shift), e(score - shift);
    assert Exps(e, scores + [score], shift) == x + [y];
    ProductsAppend(x, values, y, v);
    SumAppend(Products(x, values), y * v);
  }

  lemma ProductsAppend(x: seq<real>, values: seq<real>, y: real, v: real)
    requires |x| == |values|
    ensures Products(x + [y], values + [v]) == Products(x, values) + [y * v]
  {
    var a, b := Products(x + [y], values + [v]), Products(x, values) + [y * v];
    forall i | 0 <= i < |a| ensures a[i] == b[i] {
      if i < |x| {
        assert (x + [y])[i] == x[i] && (values + [v])[i] == values[i];
      } else {
        assert (x + [y])[i] == y && (values + [v])[i] == v;
      }
    }
  }

  lemma SumAppend(a: seq<real>, x: real)
    ensures Sum(a + [x]) == Sum(a) + x
  {
    assert (a + [x])[..|a|] == a;
  }

  /** Rescaling moves the sums over the earlier positions to the new maximum. */
  lemma RescaleSums(e: real -> real, scores: seq<real>, rows: seq<seq<real>>, dim: nat, a: real, b: real,
                    sum: real, out: seq<real>, scaled: seq<real>)
    requires IsExp(e) && |rows| == |scores| && forall i :: 0 <= i < |rows| ==> |rows[i]| == dim
    requires SumsAt(e, scores, rows, dim, a, sum, out)
    requires |scaled| == dim && forall j :: 0 <= j < dim ==> scaled[j] == out[j] * e(a - b)
    ensures SumsAt(e, scores, rows, dim, b, sum * e(a - b), scaled)
  {
    Reshift(e, scores, scores, a, b, e(a - b), sum, WeightedSum(e, scores, scores, a));
    forall j | 0 <= j < dim
      ensures scaled[j] == WeightedSum(e, scores, Column(rows, j), b)
    {
      Reshift(e, scores, Column(rows, j), a, b, e(a - b), sum, out[j]);
    }
  }

  lemma EmptySums(e: real -> real, rows: seq<seq<real>>, dim: nat, shift: real, out: seq<real>)
    requires rows == [] && |out| == dim && forall j :: 0 <= j < dim ==> out[j] == 0.0
    ensures SumsAt(e, [], rows, dim, shift, 0.0, out)
  {
  }

  lemma RescaleTracks(e: real -> real, scale: real, scores: seq<real>, rows: seq<seq<real>>, dim: nat,
                      acc: Acc<ExtReal, real>, score: real)
    requires IsExp(e) && Tracks(e, scores, rows, dim, acc)
    ensures var r := Rescale(RealOps(e, scale), acc, Fin(score));
      && r.max.Fin? && IsMax(scores + [score], r.max.x)
      && SumsAt(e, scores, rows, dim, r.max.x, r.sum, r.out)
  {
    var r := Rescale(RealOps(e, scale), acc, Fin(score));
    if scores == [] {
      assert r.sum == 0.0;
      EmptySums(e, rows, dim, score, r.out);
    } else if score > acc.max.x {
      RescaleSums(e, scores, rows, dim, acc.max.x, score, acc.sum, acc.out, r.out);
    }
  }

  lemma AbsorbSums(e: real -> real, scores: seq<real>, rows: seq<seq<real>>, dim: nat, m: real, sum: real, out: seq<real>,
                   score: real, v: seq<real>, out': seq<real>)
    requires |rows| == |scores| && forall i :: 0 <= i < |rows| ==> |rows[i]| == dim
    requires SumsAt(e, scores, rows, dim, m, sum, out) && |v| == dim == |out'|
    requires forall j :: 0 <= j < dim ==> out'[j] == out[j] + e(score - m) * v[j]
    ensures SumsAt(e, scores + [score], rows + [v], dim, m, sum + e(score - m), out')
  {
    WeightAppend(e, scores, score, m);
    forall j | 0 <= j < dim
      ensures out'[j] == WeightedSum(e, scores + [score], Column(rows + [v], j), m)
    {
      WeightedSumAppend(e, scores, Column(rows, j), score, v[j], m);
      assert Column(rows + [v], j) == Column(rows, j) + [v[j]];
    }
  }

  lemma AbsorbTracks(e: real -> real, scale: real, scores: seq<real>, rows: seq<seq<real>>, dim: nat,
                     acc: Acc<ExtReal, real>, score: real, v: seq<real>)
    requires IsExp(e) && Tracks(e, scores, rows, dim, acc) && |v| == dim
    ensures Tracks(e, scores + [score], rows + [v], dim, Absorb(RealOps(e, scale), acc, Fin(score), v))
  {
    RescaleTracks(e, scale, scores, rows, dim, acc, score);
    var r := Rescale(RealOps(e, scale), acc, Fin(score));
    var acc' := Absorb(RealOps(e, scale), acc, Fin(score), v);
    AbsorbSums(e, scores, rows, dim, r.max.x, r.sum, r.out, score, v, acc'.out);
  }

  lemma NothingTracks(e: real -> real, scores: seq<real>, rows: seq<seq<real>>, dim: nat, acc: Acc<ExtReal, real>)
    requires scores == [] && rows == [] && acc == Acc(NegInf, 0.0, seq(dim, _ => 0.0))
    ensures Tracks(e, scores, rows, dim, acc)
  {
  }

  lemma {:induction false} HeadTracks(e: real -> real, s: Shape, keys: seq<real>, values: seq<real>, n: nat, q: seq<real>,
                                      kvHead: nat, scale: real, scores: seq<real>, rows: seq<seq<real>>, acc: Acc<ExtReal, real>)
    requires IsExp(e) && kvHead < s.kvHeads && CacheHolds(s, keys, values, n)
    requires scores == Scores(s, keys, n, q, kvHead, scale) && rows == ValueRows(s, values, n, kvHead)
    requires acc == HeadAcc(RealOps(e, scale), s, keys, values, n, q, kvHead)
    ensures Tracks(e, scores, rows, s.headDim, acc)
    decreases n
  {
    hide IsExp;
    hide Score;
    hide Absorb;
    hide Tracks;
    if n == 0 {
      NothingTracks(e, scores, rows, s.headDim, acc);
    } else {
      RowBounds(n - 1, n, s.KvWidth());
      var scores', rows' := Scores(s, keys, n - 1, q, kvHead, scale), ValueRows(s, values, n - 1, kvHead);
      var acc' := HeadAcc(RealOps(e, scale), s, keys, values, n - 1, q, kvHead);
      HeadTracks(e, s, keys, values, n - 1, q, kvHead, scale, scores', rows', acc');
      AbsorbTracks(e, scale, scores', rows', s.headDim, acc',
                   Score(q, Slot(s, keys, n - 1, kvHead), scale), Slot(s, values, n - 1, kvHead));
    }
  }

  // ----- Main results -----

  lemma NormalizedAverage(e: real -> real, scale: real, scores: seq<real>, rows: seq<seq<real>>, dim: nat,
                          acc: Acc<ExtReal, real>, j: nat)
    requires IsExp(e) && scores != [] && Tracks(e, scores, rows, dim, acc) && j < dim
    ensures IsAverage(e, scores, Column(rows, j), acc.max.x, Normalized(RealOps(e, scale), acc)[j])
  {
    WeightPositive(e, scores, acc.max.x);
    RecipTimes(acc.sum);
    TimesInverse(acc.out[j], acc.sum, Recip(acc.sum));
  }

  lemma Assoc(a: real, b: real, c: real)
    ensures (a * b) * c == a * (b * c)
  {
  }

  lemma TimesInverse(a: real, w: real, r: real)
    requires r * w == 1.0
    ensures (a * r) * w == a
  {
    Assoc(a, r, w);
  }

  lemma RecipTimes(w: real)
    requires w > 0.0
    ensures Recip(w) * w == 1.0
  {
  }

  lemma AverageAnyShift(e: real -> real, scores: seq<real>, values: seq<real>, a: real, b: real, r: real)
    requires IsExp(e) && |values| == |scores| > 0 && IsAverage(e, scores, values, a, r)
    ensures IsAverage(e, scores, values, b, r)
  {
    WeightPositive(e, scores, b);
    var w, p, w', p' := Weight(e, scores, a), WeightedSum(e, scores, values, a), Weight(e, scores, b), WeightedSum(e, scores, values, b);
    Reshift(e, scores, values, a, b, e(a - b), w, p);
    ScaleBoth(r, w, p, e(a - b), w', p');
  }

  lemma ScaleBoth(r: real, w: real, p: real, f: real, w': real, p': real)
    requires r * w == p && w' == w * f && p' == p * f
    ensures r * w' == p'
  {
    Assoc(r, w, f);
  }

  /** The one-pass head output is, coordinate by coordinate, the softmax average of the
      values: at the maximum score, where the two-pass form takes it, and equally at
      every other shift. */
  lemma OnlineSoftmaxIsTwoPass(e: real -> real, s: Shape, keys: seq<real>, values: seq<real>, n: nat, q: seq<real>,
                               kvHead: nat, scale: real, j: nat, shift: real)
    requires IsExp(e) && n > 0 && kvHead < s.kvHeads && CacheHolds(s, keys, values, n) && j < s.headDim
    ensures IsAverage(e, Scores(s, keys, n, q, kvHead, scale), Column(ValueRows(s, values, n, kvHead), j), shift,
                      HeadOut(RealOps(e, scale), s, keys, values, n, q, kvHead)[j])
    ensures var acc := HeadAcc(RealOps(e, scale), s, keys, values, n, q, kvHead);
      acc.max.Fin? && IsMax(Scores(s, keys, n, q, kvHead, scale), acc.max.x)
  {
    var acc := HeadAcc(RealOps(e, scale), s, keys, values, n, q, kvHead);
    var scores := Scores(s, keys, n, q, kvHead, scale);
    var rows := ValueRows(s, values, n, kvHead);
    HeadTracks(e, s, keys, values, n, q, kvHead, scale, scores, rows, acc);
    NormalizedAverage(e, scale, scores, rows, s.headDim, acc, j);
    AverageAnyShift(e, scores, Column(rows, j), acc.max.x, shift, Normalized(RealOps(e, scale), acc)[j]);
  }

  lemma {:induction false} SumMono(a: seq<real>, b: seq<real>)
    requires |b| == |a| && forall i :: 0 <= i < |a| ==> a[i] <= b[i]
    ensures Sum(a) <= Sum(b)
  {
    if a != [] {
      SumMono(a[..|a| - 1], b[..|b| - 1]);
    }
  }

  function Scaling(x: seq<real>, f: real): seq<real> {
    seq(|x|, i requires 0 <= i < |x| => x[i] * f)
  }

  lemma ScalingSum(x: seq<real>, f: real, w: real)
    requires w == Sum(x)
    ensures Sum(Scaling(x, f)) == w * f
  {
    SumScaled(x, Scaling(x, f), f, w);
  }

  lemma SumBetween(lows: seq<real>, p: seq<real>, highs: seq<real>)
    requires |p| == |lows| == |highs| && forall i :: 0 <= i < |p| ==> lows[i] <= p[i] <= highs[i]
    ensures Sum(lows) <= Sum(p) <= Sum(highs)
  {
    SumMono(lows, p);
    SumMono(p, highs);
  }

  lemma ProductsBetween(x: seq<real>, values: seq<real>, lo: real, hi: real)
    requires |values| == |x| && forall i :: 0 <= i < |x| ==> x[i] > 0.0 && lo <= values[i] <= hi
    ensures forall i :: 0 <= i < |x| ==> Scaling(x, lo)[i] <= Products(x, values)[i] <= Scaling(x, hi)[i]
  {
    forall i | 0 <= i < |x| ensures Scaling(x, lo)[i] <= Products(x, values)[i] <= Scaling(x, hi)[i] {
      TimesBetween(x[i], values[i], lo, hi);
    }
  }

  lemma TimesBetween(x: real, v: real, lo: real, hi: real)
    requires x > 0.0 && lo <= v <= hi
    ensures x * lo <= x * v <= x * hi
  {
  }

  lemma AverageBetween(e: real -> real, scores: seq<real>, values: seq<real>, shift: real, r: real, lo: real, hi: real)
    requires IsExp(e) && |values| == |scores| && IsAverage(e, scores, values, shift, r)
    requires forall i :: 0 <= i < |values| ==> lo <= values[i] <= hi
    ensures lo <= r <= hi
  {
    var x := Exps(e, scores, shift);
    var w, total := Weight(e, scores, shift), WeightedSum(e, scores, values, shift);
    assert w * lo <= total <= w * hi by {
      forall i | 0 <= i < |x| ensures x[i] > 0.0 {
        ExpPositive(e, scores[i] - shift);
      }
      ProductsBetween(x, values, lo, hi);
      SumBetween(Scaling(x, lo), Products(x, values), Scaling(x, hi));
      ScalingSum(x, lo, w);
      ScalingSum(x, hi, w);
    }
    FactorBetween(r, w, total, lo, hi);
  }

  lemma FactorBetween(r: real, w: real, total: real, lo: real, hi: real)
    requires w > 0.0 && r * w == total && w * lo <= total <= w * hi
    ensures lo <= r <= hi
  {
    assert (r - lo) * w >= 0.0 && (hi - r) * w >= 0.0;
  }

  /** No output coordinate leaves the range of the values it averages. */
  lemma OutputWithinValues(e: real -> real, s: Shape, keys: seq<real>, values: seq<real>, n: nat, q: seq<real>,
                           kvHead: nat, scale: real, j: nat, lo: real, hi: real)
    requires IsExp(e) && n > 0 && kvHead < s.kvHeads && CacheHolds(s, keys, values, n) && j < s.headDim
    requires forall i :: 0 <= i < n ==> lo <= ValueRows(s, values, n, kvHead)[i][j] <= hi
    ensures lo <= HeadOut(RealOps(e, scale), s, keys, values, n, q, kvHead)[j] <= hi
  {
    OnlineSoftmaxIsTwoPass(e, s, keys, values, n, q, kvHead, scale, j, 0.0);
    AverageBetween(e, Scores(s, keys, n, q, kvHead, scale), Column(ValueRows(s, values, n, kvHead), j), 0.0,
                   HeadOut(RealOps(e, scale), s, keys, values, n, q, kvHead)[j], lo, hi);
  }

  // ----- All heads, by coordinates -----

  /** The sum over `i < n` of `a[at + i] * b[bt + i]`. */
  function Dot(a: seq<real>, at: nat, b: seq<real>, bt: nat, n: nat): real
    requires at + n <= |a| && bt + n <= |b|
  {
    if n == 0 then 0.0 else Dot(a, at, b, bt, n - 1) + a[at + n - 1] * b[bt + n - 1]
  }

  /** Where the vector of kv head `g` at position `p` starts. */
  function VectorAt(s: Shape, p: nat, g: nat): nat {
    (p * s.kvHeads + g) * s.headDim
  }

  /** `score` is the scaled product of query head `h` with the key of kv head `g` at position `p`. */
  predicate ScoreIs(s: Shape, keys: seq<real>, q: seq<real>, h: nat, g: nat, scale: real, p: nat, score: real) {
    && h * s.headDim + s.headDim <= |q| && VectorAt(s, p, g) + s.headDim <= |keys|
    && score == Dot(q, h * s.headDim, keys, VectorAt(s, p, g), s.headDim) * scale
  }

  predicate ValueIs(s: Shape, values: seq<real>, g: nat, p: nat, j: nat, value: real) {
    VectorAt(s, p, g) + j < |values| && value == values[VectorAt(s, p, g) + j]
  }

  lemma {:induction false} DotIsSum(a: seq<real>, at: nat, b: seq<real>, bt: nat, x: seq<real>, y: seq<real>)
    requires at + |x| <= |a| && bt + |y| <= |b| && |x| == |y|
    requires x == a[at..at + |x|] && y == b[bt..bt + |y|]
    ensures Sum(Products(x, y)) == Dot(a, at, b, bt, |x|)
  {
    if |x| > 0 {
      var n := |x| - 1;
      DotIsSum(a, at, b, bt, x[..n], y[..n]);
      assert x[n] == a[at + n] && y[n] == b[bt + n];
      assert x == x[..n] + [x[n]] && y == y[..n] + [y[n]];
      ProductsAppend(x[..n], y[..n], x[n], y[n]);
      SumAppend(Products(x[..n], y[..n]), x[n] * y[n]);
    }
  }

  lemma ScoreOfSlot(s: Shape, keys: seq<real>, q: seq<real>, h: nat, g: nat, scale: real, p: nat)
    requires g < s.kvHeads && (p + 1) * s.KvWidth() <= |keys| && h < s.heads && |q| == s.QWidth()
    ensures ScoreIs(s, keys, q, h, g, scale, p, Score(HeadQuery(s, q, h), Slot(s, keys, p, g), scale))
  {
    RowBounds(h, s.heads, s.headDim);
    OffsetBounds(s, p, g, p + 1);
    var x, y := HeadQuery(s, q, h), Slot(s, keys, p, g);
    assert x[..s.headDim] == x && y[..s.headDim] == y;
    DotIsSum(q, h * s.headDim, keys, VectorAt(s, p, g), x, y);
  }

  lemma {:induction false} ScoresAre(s: Shape, keys: seq<real>, n: nat, q: seq<real>, h: nat, g: nat, scale: real, scores: seq<real>)
    requires g < s.kvHeads && n * s.KvWidth() <= |keys| && h < s.heads && |q| == s.QWidth() && |scores| == n
    requires forall p: nat :: p < n ==> ScoreIs(s, keys, q, h, g, scale, p, scores[p])
    ensures Scores(s, keys, n, HeadQuery(s, q, h), g, scale) == scores
    decreases n
  {
    hide HeadQuery;
    hide Score;
    hide ScoreIs;
    if n > 0 {
      RowBounds(n - 1, n, s.KvWidth());
      ScoresAre(s, keys, n - 1, q, h, g, scale, scores[..n - 1]);
      ScoreOfSlot(s, keys, q, h, g, scale, n - 1);
      OneScore(s, keys, q, h, g, scale, n - 1, scores[n - 1], Score(HeadQuery(s, q, h), Slot(s, keys, n - 1, g), scale));
      assert scores == scores[..n - 1] + [scores[n - 1]];
    } else {
      assert scores == [];
    }
  }

  lemma OneScore(s: Shape, keys: seq<real>, q: seq<real>, h: nat, g: nat, scale: real, p: nat, a: real, b: real)
    requires ScoreIs(s, keys, q, h, g, scale, p, a) && ScoreIs(s, keys, q, h, g, scale, p, b)
    ensures a == b
  {
  }

  lemma {:induction false} ValuesAre(s: Shape, values: seq<real>, n: nat, g: nat, j: nat, column: seq<real>)
    requires g < s.kvHeads && n * s.KvWidth() <= |values| && j < s.headDim && |column| == n
    requires forall p: nat :: p < n ==> ValueIs(s, values, g, p, j, column[p])
    ensures Column(ValueRows(s, values, n, g), j) == column
    decreases n
  {
    if n > 0 {
      RowBounds(n - 1, n, s.KvWidth());
      ValuesAre(s, values, n - 1, g, j, column[..n - 1]);
      assert ValueIs(s, values, g, n - 1, j, column[n - 1]);
      OffsetBounds(s, n - 1, g, n);
      var rows := ValueRows(s, values, n, g);
      assert Column(rows, j) == Column(rows[..n - 1], j) + [rows[n - 1][j]];
      assert column == column[..n - 1] + [column[n - 1]];
    }
  }

  /** Attention of one token, coordinate by coordinate: output `j` of query head `h` is the softmax
      average of coordinate `j` of the values of the one kv head `g` it reads, weighted by the scaled
      products of its own query slice with that head's keys. */
  lemma AttendIsTwoPass(e: real -> real, s: Shape, keys: seq<real>, values: seq<real>, n: nat, q: seq<real>, scale: real,
                        h: nat, g: nat, j: nat, scores: seq<real>, column: seq<real>, shift: real)
    requires IsExp(e) && s.Ok() && n > 0 && CacheHolds(s, keys, values, n) && |q| == s.QWidth()
    requires h < s.heads && ReadBy(s, g, h) && j < s.headDim && |scores| == |column| == n
    requires forall p: nat :: p < n ==> ScoreIs(s, keys, q, h, g, scale, p, scores[p])
    requires forall p: nat :: p < n ==> ValueIs(s, values, g, p, j, column[p])
    ensures IsAverage(e, scores, column, shift, Attend(RealOps(e, scale), s, keys, values, n, q)[HeadCell(s, h, j)])
  {
    hide IsExp;
    hide ScoreIs;
    hide ValueIs;
    hide IsAverage;
    hide HeadOut;
    hide HeadQuery;
    HeadsAt(RealOps(e, scale), s, keys, values, n, q, s.heads, h, g, j);
    OnlineSoftmaxIsTwoPass(e, s, keys, values, n, HeadQuery(s, q, h), g, scale, j, shift);
    ScoresAre(s, keys, n, q, h, g, scale, scores);
    ValuesAre(s, values, n, g, j, column);
  }
}
