/** The NVFP4 input quantiser: blocks of sixteen values, one E4M3 scale each, and four-bit
    codes chosen by nearest value. */
module Nvfp4Input {
  import opened Magnitude
  import opened Packing
  import opened Ue4m3
  import opened Wrappers

  function Product(a: int, d: real): real {
    a as real * d
  }

  /** How far code `index` at scale `d` is from `x`. */
  function Error(index: nat, x: real, d: real): real
    requires index < 16
  {
    Abs(Product(Code(index), d) - x)
  }

  /** The first nearest code; code 0 when the scale is 0. */
  predicate IsBest(best: nat, x: real, d: real) {
    && best < 16
    && (d == 0.0 ==> best == 0)
    && (d != 0.0 ==> forall j: nat :: j < 16 ==> Error(best, x, d) <= Error(j, x, d) && (j < best ==> Error(best, x, d) < Error(j, x, d)))
  }

  method BestIndexMxfp4(x: real, d: real) returns (best: nat)
    ensures best < 16 && IsBest(best, x, d)
  {
    if d == 0.0 {
      return 0;
    }
    hide Error;
    best := 0;
    var bestErr := Error(0, x, d);
    for idx := 0 to 16
      invariant best < 16 && bestErr == Error(best, x, d)
      invariant forall j: nat :: j < idx ==> bestErr <= Error(j, x, d)
      invariant forall j: nat :: j < best ==> bestErr < Error(j, x, d)
    {
      var err := Error(idx, x, d);
      if err < bestErr {
        best, bestErr := idx, err;
      }
    }
  }

  function Nearest(x: real, d: real): (best: nat)
    ensures best < 16 && IsBest(best, x, d)
  {
    if d == 0.0 then 0 else NearestUpto(x, d, 16)
  }

  function NearestUpto(x: real, d: real, n: nat): (best: nat)
    requires 0 < n <= 16
    ensures best < n
    ensures forall j: nat :: j < n ==> Error(best, x, d) <= Error(j, x, d) && (j < best ==> Error(best, x, d) < Error(j, x, d))
  {
    if n == 1 then 0
    else
      var best := NearestUpto(x, d, n - 1);
      if Error(n - 1, x, d) < Error(best, x, d) then n - 1 else best
  }

  lemma BestIsUnique(a: nat, b: nat, x: real, d: real)
    requires IsBest(a, x, d) && IsBest(b, x, d)
    ensures a == b
  {
    hide Error;
    if d != 0.0 {
      var ea, eb := Error(a, x, d), Error(b, x, d);
      assert ea <= eb && eb <= ea;
    }
  }

  // ----- One block -----

  function Scaled(block: seq<real>, inverse: real): (r: seq<real>)
    ensures |r| == |block|
  {
    seq(|block|, i requires 0 <= i < |block| => Rescaled(block[i], inverse))
  }

  function Rescaled(v: real, factor: real): real {
    v * factor
  }

  function BlockScale(amax: real): real {
    Decode(EncodeReal(amax / 6.0))
  }

  /** What an element becomes before the input scale is put back. */
  function Chosen(x: real, amax: real): real {
    Product(Code(Nearest(x, BlockScale(amax))), BlockScale(amax))
  }

  /** The values a block is replaced by: code times block scale times input scale. */
  function BlockOut(block: seq<real>, inputScale: real): (r: seq<real>)
    requires inputScale > 0.0
    ensures |r| == |block|
  {
    var scaled := Scaled(block, 1.0 / inputScale);
    var amax := Amax(scaled, |scaled|);
    if amax == 0.0 then seq(|block|, _ => 0.0)
    else seq(|block|, i requires 0 <= i < |block| => Rescaled(Chosen(scaled[i], amax), inputScale))
  }

  method ScaleBlock(block: seq<real>, inverse: real) returns (scaled: seq<real>, amax: real)
    ensures scaled == Scaled(block, inverse) && amax == Amax(scaled, |scaled|)
  {
    hide Rescaled;
    amax, scaled := 0.0, [];
    ghost var want := Scaled(block, inverse);
    for i := 0 to |block|
      invariant scaled == want[..i] && amax == Amax(want, i)
    {
      var v := Rescaled(block[i], inverse);
      assert want[..i + 1] == want[..i] + [v];
      scaled := scaled + [v];
      amax := if Abs(v) > amax then Abs(v) else amax;
    }
    assert want[..|block|] == want;
  }

  method QuantizeBlock(block: seq<real>, inputScale: real) returns (out: seq<real>)
    requires inputScale > 0.0
    ensures out == BlockOut(block, inputScale)
  {
    hide Nearest;
    hide IsBest;
    hide BlockScale;
    hide Product;
    hide Code;
    hide Amax;
    hide Scaled;
    hide Rescaled;
    var scaled, amax := ScaleBlock(block, 1.0 / inputScale);
    if amax == 0.0 {
      return seq(|block|, _ => 0.0);
    }
    var blockScale := BlockScale(amax);
    out := [];
    ghost var want := BlockOut(block, inputScale);
    for i := 0 to |block|
      invariant out == want[..i]
    {
      var best := BestIndexMxfp4(scaled[i], blockScale);
      BestIsUnique(best, Nearest(scaled[i], blockScale), scaled[i], blockScale);
      out := out + [Rescaled(Product(Code(best), blockScale), inputScale)];
      assert want[..i + 1] == want[..i] + [want[i]];
    }
    assert want[..|block|] == want;
  }

  function BlockAt(s: seq<real>, b: nat): (r: seq<real>)
    requires 16 * b + 16 <= |s|
    ensures |r| == 16
  {
    s[16 * b..16 * b + 16]
  }

  /** The first `n` blocks of `out` quantise those of `input`. */
  predicate BlocksDone(out: seq<real>, input: seq<real>, inputScale: real, n: nat) {
    && inputScale > 0.0 && 16 * n <= |out| && 16 * n <= |input|
    && forall b: nat :: b < n ==> BlockAt(out, b) == BlockOut(BlockAt(input, b), inputScale)
  }

  lemma NextBlock(out: seq<real>, input: seq<real>, inputScale: real, n: nat, block: seq<real>)
    requires BlocksDone(out, input, inputScale, n) && |out| == 16 * n && 16 * n + 16 <= |input|
    requires block == BlockOut(BlockAt(input, n), inputScale)
    ensures BlocksDone(out + block, input, inputScale, n + 1)
  {
    hide BlockOut;
    forall b: nat | b < n + 1 ensures BlockAt(out + block, b) == BlockOut(BlockAt(input, b), inputScale) {
      if b < n {
        assert BlockAt(out + block, b) == BlockAt(out, b);
      } else {
        assert BlockAt(out + block, n) == block;
      }
    }
  }

  /** Declines a scale that is not positive, an empty input and a partial block. */
  method QuantizeInputNvfp4(input: seq<real>, inputScale: real) returns (r: Option<seq<real>>)
    ensures r.None? <==> inputScale <= 0.0 || input == [] || |input| % 16 != 0
    ensures r.Some? ==> (|r.value| == |input| && BlocksDone(r.value, input, inputScale, |input| / 16))
  {
    hide BlockOut;
    if inputScale <= 0.0 || input == [] || |input| % 16 != 0 {
      return None;
    }
    var out: seq<real> := [];
    for b := 0 to |input| / 16
      invariant |out| == 16 * b && BlocksDone(out, input, inputScale, b)
    {
      var block := QuantizeBlock(BlockAt(input, b), inputScale);
      NextBlock(out, input, inputScale, b, block);
      out := out + block;
    }
    return Some(out);
  }

  // ----- A scale that is not a number -----

  datatype Single = Nan | Num(value: real)

  function ByFactor(v: real, factor: Single): Single {
    if factor.Nan? then Nan else Num(Rescaled(v, factor.value))
  }

  /** The larger magnitude; a NaN is skipped. */
  function Larger(amax: real, v: Single): real {
    if v.Nan? || Abs(v.value) <= amax then amax else Abs(v.value)
  }

  function AmaxAt(block: seq<real>, inverse: Single, n: nat): real
    requires n <= |block|
  {
    if n == 0 then 0.0 else Larger(AmaxAt(block, inverse, n - 1), ByFactor(block[n - 1], inverse))
  }

  function InverseOf(scale: Single): Single {
    if scale.Nan? || scale.value == 0.0 then Nan else Num(1.0 / scale.value)
  }

  /** The nearest code's value; no code is nearer to a NaN than code 0. */
  function ChosenAt(v: Single, amax: real): real {
    if v.Nan? then Product(Code(0), BlockScale(amax)) else Chosen(v.value, amax)
  }

  /** A block at any scale: zeros when nothing raised the maximum above 0. */
  function BlockOutAt(block: seq<real>, inputScale: Single): (r: seq<Single>)
    ensures |r| == |block|
  {
    var inverse := InverseOf(inputScale);
    var amax := AmaxAt(block, inverse, |block|);
    if amax == 0.0 then seq(|block|, _ => Num(0.0))
    else seq(|block|, i requires 0 <= i < |block| => ByFactor(ChosenAt(ByFactor(block[i], inverse), amax), inputScale))
  }

  /** At a NaN scale every block becomes zeros. */
  lemma NanScaleBlanks(block: seq<real>)
    ensures BlockOutAt(block, Nan) == seq(|block|, _ => Num(0.0))
  {
    NothingRaises(block, |block|);
  }

  lemma {:induction false} NothingRaises(block: seq<real>, n: nat)
    requires n <= |block|
    ensures AmaxAt(block, Nan, n) == 0.0
  {
    if n > 0 {
      NothingRaises(block, n - 1);
    }
  }

  /** At a positive scale it is the ordinary quantisation. */
  lemma PositiveScaleIsOrdinary(block: seq<real>, s: real)
    requires s > 0.0
    ensures forall i :: 0 <= i < |block| ==> BlockOutAt(block, Num(s))[i] == Num(BlockOut(block, s)[i])
  {
    AmaxAgrees(block, 1.0 / s, |block|);
  }

  lemma {:induction false} AmaxAgrees(block: seq<real>, inverse: real, n: nat)
    requires n <= |block|
    ensures AmaxAt(block, Num(inverse), n) == Amax(Scaled(block, inverse), n)
  {
    if n > 0 {
      AmaxAgrees(block, inverse, n - 1);
    }
  }

  // ----- Accuracy -----

  /** The multiples of `d` bracketing `x`, wherever `x` lies in range. */
  lemma NearCode(x: real, d: real, best: nat)
    requires d > 0.0 && IsBest(best, x, d) && -12.0 * d <= x <= 12.0 * d
    ensures Error(best, x, d) <= 2.0 * d
  {
    hide IsBest;
    hide Error;
    var j := Bracket(x, d);
    BestBeats(best, j, x, d);
  }

  lemma BestBeats(best: nat, j: nat, x: real, d: real)
    requires d != 0.0 && IsBest(best, x, d) && j < 16
    ensures Error(best, x, d) <= Error(j, x, d)
  {
  }

  /** A code within two steps. */
  lemma Bracket(x: real, d: real) returns (j: nat)
    requires d > 0.0 && -12.0 * d <= x <= 12.0 * d
    ensures j < 16 && Error(j, x, d) <= 2.0 * d
  {
    if x >= 0.0 {
      j := if x < 2.0 * d then 0 else if x < 5.0 * d then 3 else if x < 8.0 * d then 5 else if x < 10.0 * d then 6 else 7;
    } else {
      j := if x > -2.0 * d then 0 else if x > -5.0 * d then 11 else if x > -8.0 * d then 13 else if x > -10.0 * d then 14 else 15;
    }
  }

  /** Beyond the largest code, the largest code is nearest enough. */
  lemma FarCode(x: real, d: real, best: nat, limit: real)
    requires d > 0.0 && IsBest(best, x, d) && (x > 12.0 * d || x < -12.0 * d) && -limit <= x <= limit
    ensures Error(best, x, d) <= limit - 12.0 * d
  {
    hide IsBest;
    BestBeats(best, 7, x, d);
    BestBeats(best, 15, x, d);
  }

  /** Every element of a block in range is within 17/96 of the block's maximum. */
  lemma BlockError(x: real, amax: real, best: nat)
    requires Pow2(-6) <= amax / 6.0 < 248.0 && -amax <= x <= amax && IsBest(best, x, BlockScale(amax))
    ensures BlockScale(amax) > 0.0
    ensures Error(best, x, BlockScale(amax)) <= 17.0 / 96.0 * amax
  {
    hide IsBest;
    hide Error;
    var d := BlockScale(amax);
    ScaleBand(amax);
    if x > 12.0 * d || x < -12.0 * d {
      FarCode(x, d, best, amax);
    } else {
      NearCode(x, d, best);
    }
  }

  /** The block scale is a twelfth of the maximum, to within a sixteenth. */
  lemma ScaleBand(amax: real)
    requires Pow2(-6) <= amax / 6.0 < 248.0
    ensures BlockScale(amax) > 0.0
    ensures 15.0 / 192.0 * amax <= BlockScale(amax) <= 17.0 / 192.0 * amax
  {
    hide EncodeReal;
    hide Raw;
    ThroughError(amax / 6.0);
  }

  /** A code never has the opposite sign: code 0 is always nearer. */
  lemma SameSign(x: real, d: real, best: nat)
    requires d >= 0.0 && IsBest(best, x, d)
    ensures x >= 0.0 ==> Code(best) >= 0
    ensures x <= 0.0 ==> Code(best) <= 0
  {
    if d > 0.0 {
      BestBeats(best, 0, x, d);
      CodeApart(Code(best), d);
    }
  }

  lemma CodeApart(c: int, d: real)
    requires d > 0.0
    ensures c >= 1 ==> Product(c, d) >= d
    ensures c <= -1 ==> Product(c, d) <= -d
  {
  }

  lemma ChosenIsAccurate(x: real, amax: real)
    requires Pow2(-6) <= amax / 6.0 < 248.0 && -amax <= x <= amax
    ensures Abs(Chosen(x, amax) - x) <= 17.0 / 96.0 * amax
    ensures (x >= 0.0 ==> Chosen(x, amax) >= 0.0) && (x <= 0.0 ==> Chosen(x, amax) <= 0.0)
  {
    hide Nearest;
    hide BlockScale;
    hide Code;
    hide Product;
    hide Pow2;
    var d := BlockScale(amax);
    var best := Nearest(x, d);
    BlockError(x, amax, best);
    SameSign(x, d, best);
    SignOfProduct(Code(best), d);
  }

  /** A block whose maximum is in range: every element is within 17/96 of that maximum and
      never of the opposite sign. */
  lemma BlockIsAccurate(block: seq<real>, inputScale: real, i: nat)
    requires inputScale > 0.0 && i < |block|
    requires
      var scaled := Scaled(block, 1.0 / inputScale);
      Pow2(-6) <= Amax(scaled, |scaled|) / 6.0 < 248.0
    ensures
      var scaled := Scaled(block, 1.0 / inputScale);
      var amax := Amax(scaled, |scaled|);
      var q := Chosen(scaled[i], amax);
      && BlockOut(block, inputScale)[i] == Rescaled(q, inputScale)
      && Abs(q - scaled[i]) <= 17.0 / 96.0 * amax
      && (scaled[i] >= 0.0 ==> q >= 0.0) && (scaled[i] <= 0.0 ==> q <= 0.0)
  {
    hide Nearest;
    hide BlockScale;
    hide Code;
    hide Product;
    hide Scaled;
    hide Pow2;
    hide Rescaled;
    hide Chosen;
    hide Amax;
    var scaled := Scaled(block, 1.0 / inputScale);
    var amax := Amax(scaled, |scaled|);
    assert Abs(scaled[i]) <= amax;
    ChosenIsAccurate(scaled[i], amax);
  }

  lemma SignOfProduct(c: int, d: real)
    requires d > 0.0
    ensures c >= 0 ==> Product(c, d) >= 0.0
    ensures c <= 0 ==> Product(c, d) <= 0.0
  {
  }

  // ----- What the caller gets -----

  lemma {:induction false} AmaxScales(block: seq<real>, s: real, n: nat)
    requires s > 0.0 && n <= |block|
    ensures Rescaled(Amax(Scaled(block, 1.0 / s), n), s) == Amax(block, n)
  {
    hide Rescaled;
    hide Abs;
    if n == 0 {
      NothingRescaled(s);
    } else {
      AmaxScales(block, s, n - 1);
      Unscaled(block[n - 1], s);
      LargerScales(Amax(Scaled(block, 1.0 / s), n - 1), Rescaled(block[n - 1], 1.0 / s), s);
    }
  }

  lemma NothingRescaled(s: real)
    ensures Rescaled(0.0, s) == 0.0
  {
  }

  lemma Unscaled(v: real, s: real)
    requires s > 0.0
    ensures Rescaled(Rescaled(v, 1.0 / s), s) == v
  {
    var i := 1.0 / s;
    assert i * s == 1.0;
    assert v * i * s == v * (i * s);
  }

  lemma LargerScales(m: real, v: real, s: real)
    requires s > 0.0
    ensures Rescaled(Abs(v), s) == Abs(Rescaled(v, s))
    ensures Abs(v) > m <==> Abs(Rescaled(v, s)) > Rescaled(m, s)
  {
    var a := Abs(v);
    assert Abs(v * s) == a * s;
    assert a > m ==> (a - m) * s > 0.0;
    assert a <= m ==> (m - a) * s >= 0.0;
  }

  /** Every value handed back is a four-bit code times one E4M3 block scale, the same for the whole
      block, times the input scale; and it is within 17/96 of the block's own maximum of the value put
      in. */
  lemma BlockIsNear(block: seq<real>, inputScale: real, i: nat) returns (scale: Byte, code: nat)
    requires inputScale > 0.0 && i < |block|
    requires Pow2(-6) * inputScale <= Amax(block, |block|) / 6.0 < 248.0 * inputScale
    ensures scale == EncodeReal(Amax(block, |block|) / inputScale / 6.0) && code < 16
    ensures BlockOut(block, inputScale)[i] == Product(Code(code), Decode(scale)) * inputScale
    ensures Abs(BlockOut(block, inputScale)[i] - block[i]) <= 17.0 / 96.0 * Amax(block, |block|)
  {
    hide *;
    RescaledIs(Pow2(-6), inputScale);
    RescaledIs(248.0, inputScale);
    scale, code := BlockIsNearRescaled(block, inputScale, i, Amax(block, |block|));
    RescaledIs(Product(Code(code), Decode(scale)), inputScale);
  }

  lemma BlockIsNearRescaled(block: seq<real>, inputScale: real, i: nat, whole: real) returns (scale: Byte, code: nat)
    requires inputScale > 0.0 && i < |block| && whole == Amax(block, |block|)
    requires Rescaled(Pow2(-6), inputScale) <= whole / 6.0 < Rescaled(248.0, inputScale)
    ensures scale == EncodeReal(whole / inputScale / 6.0) && code < 16
    ensures BlockOut(block, inputScale)[i] == Rescaled(Product(Code(code), Decode(scale)), inputScale)
    ensures Abs(BlockOut(block, inputScale)[i] - block[i]) <= 17.0 / 96.0 * whole
  {
    hide Nearest;
    hide Code;
    hide Product;
    hide Pow2;
    hide Amax;
    hide Abs;
    hide EncodeReal;
    hide Decode;
    hide Rescaled;
    hide BlockOut;
    var scaled := Scaled(block, 1.0 / inputScale);
    var amax := Amax(scaled, |scaled|);
    AmaxScales(block, inputScale, |block|);
    RangeScales(amax, inputScale, whole, Pow2(-6));
    BlockIsAccurate(block, inputScale, i);
    Unscaled(block[i], inputScale);
    scale, code := EncodeReal(amax / 6.0), Nearest(scaled[i], BlockScale(amax));
    ErrorScales(Chosen(scaled[i], amax), scaled[i], amax, inputScale);
  }

  lemma RangeScales(amax: real, s: real, whole: real, low: real)
    requires s > 0.0 && Rescaled(amax, s) == whole && Rescaled(low, s) <= whole / 6.0 < Rescaled(248.0, s)
    ensures whole / s == amax && low <= amax / 6.0 < 248.0
  {
    assert (amax / 6.0 - low) * s >= 0.0;
    assert (248.0 - amax / 6.0) * s > 0.0;
  }

  lemma RescaledIs(v: real, s: real)
    ensures Rescaled(v, s) == v * s
  {
  }

  lemma ErrorScales(q: real, x: real, amax: real, s: real)
    requires s > 0.0 && Abs(q - x) <= 17.0 / 96.0 * amax
    ensures Abs(Rescaled(q, s) - Rescaled(x, s)) <= 17.0 / 96.0 * Rescaled(amax, s)
  {
    var e, bound := q - x, 17.0 / 96.0 * amax;
    assert e * s == q * s - x * s;
    assert -(bound * s) <= e * s <= bound * s;
    assert bound * s == 17.0 / 96.0 * (amax * s);
  }
}
