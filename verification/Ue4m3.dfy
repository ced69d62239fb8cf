/** The unsigned E4M3 scale format: encoding from the bits of a single-precision float and
    decoding through the halved table. Floats are laid out as in section 3.4 of
    IEEE 754-2019; their values are exact reals. */
module Ue4m3 {
  import opened Packing

  type Bits = b: nat | b < 0x1_0000_0000 witness 0

  function Pow2(k: int): (r: real)
    ensures r > 0.0
    decreases if k < 0 then -k else k
  {
    if k == 0 then 1.0 else if k > 0 then 2.0 * Pow2(k - 1) else Pow2(k + 1) / 2.0
  }

  lemma Pow2Next(k: int)
    ensures Pow2(k + 1) == 2.0 * Pow2(k)
  {
  }

  lemma {:induction false} Pow2Grows(a: int, b: int)
    requires a <= b
    ensures Pow2(a) <= Pow2(b)
    decreases b - a
  {
    if a < b {
      Pow2Grows(a, b - 1);
      Pow2Next(b - 1);
    }
  }

  // ----- Decoding -----

  /** A table entry before halving. */
  function Raw(code: nat): real
    requires code < 128
  {
    var exponent, mantissa := code / 8, (code % 8) as real;
    if code == 0 || code == 0x7f then 0.0
    else if exponent == 0 then mantissa * 0.001953125
    else (1.0 + mantissa * 0.125) * Pow2(exponent - 7)
  }

  function Decode(code: Byte): real {
    Raw(code % 128) * 0.5
  }

  method BuildTable() returns (lut: seq<real>)
    ensures |lut| == 128 && forall code: nat :: code < 128 ==> lut[code] == Decode(code)
  {
    hide Raw;
    lut := [];
    for byte := 0 to 128
      invariant |lut| == byte && forall code: nat :: code < byte ==> lut[code] == Decode(code)
    {
      lut := lut + [Raw(byte) * 0.5];
    }
  }

  // ----- Encoding bits -----

  function Exp(b: Bits): nat {
    b / 0x80_0000 % 0x100
  }

  function Man(b: Bits): (m: nat)
    ensures m < 0x80_0000
  {
    b % 0x80_0000
  }

  predicate Negative(b: Bits) {
    b >= 0x8000_0000
  }

  predicate Nan(b: Bits) {
    Exp(b) == 0xff && Man(b) != 0
  }

  predicate Finite(b: Bits) {
    Exp(b) != 0xff
  }

  /** The value of a finite float. */
  function Value(b: Bits): real {
    var magnitude := if Exp(b) == 0 then (Man(b) as real / 8388608.0) * Pow2(-126)
                     else (1.0 + Man(b) as real / 8388608.0) * Pow2(Exp(b) - 127);
    if Negative(b) then -magnitude else magnitude
  }

  /** `x > 448.0`; infinity is. */
  predicate Above448(b: Bits) {
    !Nan(b) && !Negative(b) && (Finite(b) ==> Value(b) > 448.0)
  }

  /** `x <= 0.0`; a NaN is not. */
  predicate AtMostZero(b: Bits) {
    !Nan(b) && (Finite(b) ==> Value(b) <= 0.0) && (!Finite(b) ==> Negative(b))
  }

  /** 448.0 is 1.75 times two to the eighth. */
  const BITS_448: Bits := 0x43e0_0000

  lemma Bits448()
    ensures Exp(BITS_448) == 135 && Man(BITS_448) == 0x60_0000 && !Negative(BITS_448) && Value(BITS_448) == 448.0
  {
    assert Pow2(2) == 4.0 && Pow2(4) == 16.0 && Pow2(6) == 64.0 && Pow2(8) == 256.0;
  }

  /** Rounding a subnormal to a multiple of 2^-9, at most 7 of them. */
  function Subnormal(x: real): (man: nat)
    requires x >= 0.0
    ensures man <= 7
  {
    var man := (x * 512.0 + 0.5).Floor;
    if man > 7 then 7 else man
  }

  /** Joins an exponent and a mantissa that may have carried. */
  function Join(exponent: int, man: nat): Byte
    requires 0 < exponent && man <= 8
  {
    if exponent >= 15 then 0x7e
    else if man > 7 then (if exponent + 1 >= 15 then 0x7e else (exponent + 1) * 8)
    else exponent * 8 + man
  }

  function EncodePositive(b: Bits): Byte
    requires !Negative(b) || Nan(b)
  {
    var exponent := Exp(b) - 127 + 7;
    if exponent <= 0 then Subnormal(Value(b))
    else Join(exponent, Man(b) / 0x10_0000 + Man(b) / 0x8_0000 % 2)
  }

  function Encode(b: Bits): Byte {
    if AtMostZero(b) then 0
    else if Above448(b) then EncodePositive(BITS_448)
    else
      assert !Negative(b) || Nan(b) by {
        SignOfValue(b);
      }
      EncodePositive(b)
  }

  lemma SignOfValue(b: Bits)
    ensures Finite(b) && Negative(b) ==> Value(b) <= 0.0
  {
  }

  // ----- The same on reals -----

  /** The exponent of `x`, searched upwards from `k`. */
  function ExponentFrom(x: real, k: int): (e: int)
    requires k <= 9 && Pow2(k) <= x < Pow2(9)
    ensures k <= e < 9 && Pow2(e) <= x < Pow2(e + 1)
    decreases 9 - k
  {
    if x < Pow2(k + 1) then k else ExponentFrom(x, k + 1)
  }

  /** Rounded three-bit mantissa of `x` at exponent `e`, halves up. */
  function MantissaOf(x: real, e: int): (m: int)
    requires Pow2(e) <= x < Pow2(e + 1)
    ensures 0 <= m <= 8
  {
    Pow2Next(e);
    Fraction(x, Pow2(e));
    ((x / Pow2(e) - 1.0) * 8.0 + 0.5).Floor
  }

  lemma Fraction(x: real, p: real)
    requires p > 0.0 && p <= x < 2.0 * p
    ensures 0.0 <= x / p - 1.0 < 1.0
  {
    var q := x / p;
    assert q * p == x;
    assert (q - 1.0) * p == q * p - p;
    assert (2.0 - q) * p == 2.0 * p - q * p;
    SignOfFactor(q - 1.0, p);
    SignOfFactor(2.0 - q, p);
  }

  lemma SignOfFactor(a: real, p: real)
    requires p > 0.0
    ensures a * p >= 0.0 ==> a >= 0.0
    ensures a * p > 0.0 ==> a > 0.0
  {
  }

  function EncodeReal(x: real): Byte {
    if x <= 0.0 then 0
    else
      var y := if x > 448.0 then 448.0 else x;
      if y < Pow2(-6) then Subnormal(y)
      else
        Small();
        var e := ExponentFrom(y, -6);
        Join(e + 7, MantissaOf(y, e))
  }

  lemma Small()
    ensures Pow2(9) == 512.0 && Pow2(-6) == 1.0 / 64.0 && Pow2(8) == 256.0
  {
    assert Pow2(3) == 8.0 && Pow2(6) == 64.0;
    assert Pow2(-3) == 1.0 / 8.0;
  }

  // ----- The bits and the reals agree -----

  lemma {:induction false} ExponentIs(x: real, k: int, e: int)
    requires k <= e < 9 && Pow2(k) <= x < Pow2(9) && Pow2(e) <= x < Pow2(e + 1)
    ensures ExponentFrom(x, k) == e
    decreases 9 - k
  {
    if k < e {
      Pow2Grows(k + 1, e);
      ExponentIs(x, k + 1, e);
    }
  }

  lemma Scaled(x: real, f: real, p: real)
    requires 0.0 <= f < 1.0 && p > 0.0 && x == (1.0 + f) * p
    ensures p <= x < 2.0 * p
  {
    Fractional(f * p, f, p);
    assert (1.0 + f) * p == p + f * p;
  }

  lemma Fractional(x: real, f: real, p: real)
    requires 0.0 <= f < 1.0 && p > 0.0 && x == f * p
    ensures 0.0 <= x < p
  {
  }

  /** Rounding the top mantissa bits is rounding eight times the fraction. */
  lemma MantissaBits(man: nat)
    requires man < 0x80_0000
    ensures (man as real / 8388608.0 * 8.0 + 0.5).Floor == man / 0x10_0000 + man / 0x8_0000 % 2
  {
    var top, next, low := man / 0x10_0000, man / 0x8_0000 % 2, man % 0x8_0000;
    assert man == top * 0x10_0000 + next * 0x8_0000 + low;
    assert man as real / 8388608.0 * 8.0 == man as real / 1048576.0;
    assert man as real / 1048576.0 == top as real + next as real * 0.5 + low as real / 1048576.0;
  }

  lemma Cancel(x: real, u: real, p: real)
    requires p > 0.0 && x == u * p
    ensures x / p == u
  {
    var q := x / p;
    assert q * p == x;
    assert (q - u) * p == q * p - u * p && (u - q) * p == u * p - q * p;
    SignOfFactor(q - u, p);
    SignOfFactor(u - q, p);
  }

  lemma MantissaIs(x: real, e: int, f: real)
    requires 0.0 <= f < 1.0 && x == (1.0 + f) * Pow2(e)
    ensures Pow2(e) <= x < Pow2(e + 1) && MantissaOf(x, e) == (f * 8.0 + 0.5).Floor
  {
    hide Pow2;
    Pow2Next(e);
    Scaled(x, f, Pow2(e));
    Cancel(x, 1.0 + f, Pow2(e));
  }

  lemma NormalMantissa(b: Bits)
    requires !Negative(b) && 0 < Exp(b) < 0xff
    ensures Pow2(Exp(b) - 127) <= Value(b) < Pow2(Exp(b) - 126)
    ensures MantissaOf(Value(b), Exp(b) - 127) == Man(b) / 0x10_0000 + Man(b) / 0x8_0000 % 2
  {
    hide MantissaOf;
    hide Pow2;
    hide Exp;
    hide Man;
    MantissaBits(Man(b));
    MantissaIs(Value(b), Exp(b) - 127, Man(b) as real / 8388608.0);
  }

  lemma SmallRange(b: Bits)
    requires !Negative(b) && Exp(b) <= 120
    ensures 0.0 <= Value(b) < Pow2(-6)
  {
    hide Pow2;
    hide Exp;
    hide Man;
    if Exp(b) == 0 {
      var f, p := Man(b) as real / 8388608.0, Pow2(-126);
      Fractional(Value(b), f, p);
      Pow2Grows(-126, -6);
    } else {
      NormalMantissa(b);
      Pow2Grows(Exp(b) - 126, -6);
    }
  }

  lemma PositiveAgrees(b: Bits)
    requires !Negative(b) && Finite(b) && 0.0 < Value(b) <= 448.0
    ensures EncodePositive(b) == EncodeReal(Value(b))
  {
    hide Value;
    hide MantissaOf;
    Small();
    if Exp(b) <= 120 {
      SmallRange(b);
    } else {
      NormalMantissa(b);
      Pow2Grows(-6, Exp(b) - 127);
      if Exp(b) > 135 {
        Pow2Grows(9, Exp(b) - 127);
      }
      ExponentIs(Value(b), -6, Exp(b) - 127);
    }
  }

  /** The bit-level encoder of every finite float is the real one of its value. */
  lemma EncodeAgrees(b: Bits)
    requires Finite(b)
    ensures Encode(b) == EncodeReal(Value(b))
  {
    hide Value;
    hide EncodePositive;
    Bits448();
    if Value(b) > 0.0 {
      PositiveSign(b);
      if Value(b) > 448.0 {
        PositiveAgrees(BITS_448);
      } else {
        PositiveAgrees(b);
      }
    }
  }

  lemma PositiveSign(b: Bits)
    requires Finite(b) && Value(b) > 0.0
    ensures !Negative(b)
  {
    SignOfValue(b);
  }

  // ----- Monotone -----

  lemma RawOfJoin(exponent: int, man: nat)
    requires 0 < exponent < 15 && man <= 8 && (man < 8 || exponent < 14)
    ensures Raw(Join(exponent, man)) == (1.0 + man as real * 0.125) * Pow2(exponent - 7)
  {
    hide Pow2;
    Pow2Next(exponent - 7);
    if man == 8 {
      Doubled(Pow2(exponent - 7));
    } else {
      JoinParts(exponent, man);
    }
  }

  lemma JoinParts(exponent: nat, man: nat)
    requires man < 8
    ensures (exponent * 8 + man) / 8 == exponent && (exponent * 8 + man) % 8 == man
  {
  }

  lemma Doubled(p: real)
    ensures (1.0 + 8 as real * 0.125) * p == (1.0 + 0 as real * 0.125) * (2.0 * p)
  {
  }

  lemma RawOfTop()
    ensures Raw(0x7e) == 448.0
  {
    Small();
  }

  /** Encoding then decoding, before halving. */
  function Through(x: real): real {
    Raw(EncodeReal(x) % 128)
  }

  lemma ThroughSubnormal(x: real)
    requires 0.0 < x < Pow2(-6)
    ensures Through(x) == Subnormal(x) as real * 0.001953125
  {
    Small();
  }

  /** From 248 on, everything rounds to the largest code. */
  lemma ThroughTop(x: real)
    requires x >= 248.0
    ensures Through(x) == 448.0
  {
    hide MantissaOf;
    Small();
    RawOfTop();
    var y := if x > 448.0 then 448.0 else x;
    assert Pow2(7) == 128.0;
    if y < 256.0 {
      ExponentIs(y, -6, 7);
      MantissaTop(y);
    } else {
      ExponentIs(y, -6, 8);
    }
  }

  lemma MantissaTop(y: real)
    requires Pow2(7) == 128.0 && Pow2(8) == 256.0 && 128.0 <= y < 256.0
    ensures MantissaOf(y, 7) == 8 <==> y >= 248.0
  {
  }

  function Times(a: real, p: real): real {
    a * p
  }

  lemma TimesGrows(a: real, b: real, p: real)
    requires p > 0.0 && a <= b
    ensures Times(a, p) <= Times(b, p)
  {
    assert (b - a) * p >= 0.0;
  }

  lemma TimesOnes(p: real)
    ensures Times(0.0, p) == 0.0 && Times(1.0, p) == p && Times(2.0, p) == 2.0 * p
  {
  }

  /** Rounded mantissa `m` of fraction `f`. */
  predicate Rounds(m: nat, f: real) {
    m <= 8 && 0.0 <= f < 1.0 && m as real - 0.5 <= f * 8.0 < m as real + 0.5 && m == (f * 8.0 + 0.5).Floor
  }

  function Significand(m: nat): real {
    1.0 + m as real * 0.125
  }

  /** A normal value below the top, as exponent, fraction and rounded mantissa. */
  lemma ThroughNormal(x: real) returns (e: int, m: nat, f: real)
    requires Pow2(-6) <= x < 248.0
    ensures -6 <= e <= 7 && Pow2(e) <= x < Pow2(e + 1) && Rounds(m, f)
    ensures x == Times(1.0 + f, Pow2(e)) && Through(x) == Times(Significand(m), Pow2(e))
  {
    hide Pow2;
    hide MantissaOf;
    hide Times;
    hide Significand;
    hide Rounds;
    NormalExponent(x);
    e := ExponentFrom(x, -6);
    m := MantissaOf(x, e);
    f := MantissaRounds(x, e);
    if e == 7 {
      TopMantissa(x);
    }
    ThroughJoin(x, e, m);
  }

  lemma NormalExponent(x: real)
    requires Pow2(-6) <= x < 248.0
    ensures x < Pow2(9) && ExponentFrom(x, -6) <= 7
  {
    Small();
    Pow2Grows(-6, 9);
  }

  lemma TopMantissa(x: real)
    requires Pow2(7) <= x < 248.0 && x < Pow2(8)
    ensures MantissaOf(x, 7) < 8
  {
    Small();
    assert Pow2(7) == 128.0;
    MantissaTop(x);
  }

  lemma JoinedValue(e: int, m: nat)
    requires -6 <= e <= 7 && m <= 8 && (e == 7 ==> m < 8)
    ensures Raw(Join(e + 7, m)) == Times(Significand(m), Pow2(e))
  {
    hide Pow2;
    hide Join;
    hide Raw;
    RawOfJoin(e + 7, m);
  }

  lemma ThroughJoin(x: real, e: int, m: nat)
    requires Pow2(-6) <= x < 248.0 && x < Pow2(9) && e == ExponentFrom(x, -6) <= 7
    requires m == MantissaOf(x, e) && (e == 7 ==> m < 8)
    ensures Through(x) == Times(Significand(m), Pow2(e))
  {
    hide Pow2;
    hide MantissaOf;
    hide Join;
    hide Raw;
    hide Times;
    hide Significand;
    JoinedValue(e, m);
    JoinFits(e + 7, m);
  }

  lemma MantissaRounds(x: real, e: int) returns (f: real)
    requires Pow2(e) <= x < Pow2(e + 1)
    ensures Rounds(MantissaOf(x, e), f) && x == Times(1.0 + f, Pow2(e))
  {
    hide Pow2;
    Pow2Next(e);
    Fraction(x, Pow2(e));
    f := x / Pow2(e) - 1.0;
    Recompose(x, f, Pow2(e));
  }

  lemma Recompose(x: real, f: real, p: real)
    requires p > 0.0 && f == x / p - 1.0
    ensures x == Times(1.0 + f, p)
  {
    var q := x / p;
    assert q * p == x;
    assert 1.0 + f == q;
  }

  lemma JoinFits(exponent: int, man: nat)
    requires 0 < exponent < 15 && man <= 8
    ensures Join(exponent, man) < 128
  {
  }

  /** The rounding error: at most a sixteenth of the value. */
  lemma ThroughError(x: real)
    requires Pow2(-6) <= x < 248.0
    ensures 15.0 / 16.0 * x <= Through(x) <= 17.0 / 16.0 * x
  {
    hide Through;
    hide Pow2;
    hide Times;
    var e, m, f := ThroughNormal(x);
    WithinSixteenth(1.0 + f, Significand(m), Pow2(e));
  }

  lemma WithinSixteenth(a: real, b: real, p: real)
    requires p > 0.0 && 15.0 / 16.0 * a <= b <= 17.0 / 16.0 * a
    ensures 15.0 / 16.0 * Times(a, p) <= Times(b, p) <= 17.0 / 16.0 * Times(a, p)
  {
    assert (b - 15.0 / 16.0 * a) * p >= 0.0;
    assert (17.0 / 16.0 * a - b) * p >= 0.0;
  }

  /** A rounded value stays between its power of two and the next. */
  lemma SignificandBand(m: nat, p: real)
    requires p > 0.0 && m <= 8
    ensures p <= Times(Significand(m), p) <= 2.0 * p
  {
    hide Times;
    TimesGrows(1.0, Significand(m), p);
    TimesGrows(Significand(m), 2.0, p);
    TimesOnes(p);
  }

  lemma NormalBand(x: real)
    requires Pow2(-6) <= x < 248.0
    ensures Pow2(-6) <= Through(x) <= 448.0
  {
    hide Through;
    hide Times;
    hide Significand;
    hide Pow2;
    var e, m, f := ThroughNormal(x);
    SignificandBand(m, Pow2(e));
    Pow2Next(e);
    Pow2Grows(-6, e);
    Pow2Grows(e + 1, 8);
    Small();
  }

  /** Encoding then decoding never reverses an order. */
  lemma ThroughMonotone(x: real, y: real)
    requires x <= y
    ensures 0.0 <= Through(x) <= Through(y)
  {
    hide Through;
    hide Pow2;
    Small();
    if y <= 0.0 {
      ThroughZero(x);
      ThroughZero(y);
    } else if x <= 0.0 {
      ThroughZero(x);
      ThroughRange(y);
    } else if y >= 248.0 {
      ThroughTop(y);
      ThroughRange(x);
    } else if x < Pow2(-6) {
      ThroughSubnormal(x);
      if y < Pow2(-6) {
        ThroughSubnormal(y);
        SubnormalGrows(x, y);
      } else {
        NormalBand(y);
      }
    } else {
      NormalMonotone(x, y);
    }
  }

  lemma ThroughZero(x: real)
    requires x <= 0.0
    ensures Through(x) == 0.0
  {
  }

  lemma ThroughRange(x: real)
    requires x > 0.0
    ensures 0.0 <= Through(x) <= 448.0
  {
    hide Through;
    hide Pow2;
    Small();
    if x < Pow2(-6) {
      ThroughSubnormal(x);
    } else if x < 248.0 {
      NormalBand(x);
    } else {
      ThroughTop(x);
    }
  }

  lemma SubnormalGrows(x: real, y: real)
    requires 0.0 <= x <= y
    ensures Subnormal(x) <= Subnormal(y)
  {
  }

  lemma NormalMonotone(x: real, y: real)
    requires Pow2(-6) <= x <= y < 248.0
    ensures 0.0 <= Through(x) <= Through(y)
  {
    hide Through;
    hide Pow2;
    hide Times;
    var e, m, f := ThroughNormal(x);
    var e', m', f' := ThroughNormal(y);
    SignificandBand(m, Pow2(e));
    SignificandBand(m', Pow2(e'));
    if e == e' {
      FractionGrows(f, f', Pow2(e));
      TimesGrows(Significand(m), Significand(m'), Pow2(e));
    } else {
      if e' < e {
        Pow2Grows(e' + 1, e);
      }
      Pow2Grows(e + 1, e');
      Pow2Next(e);
    }
  }

  lemma FractionGrows(f: real, f': real, p: real)
    requires p > 0.0 && Times(1.0 + f, p) <= Times(1.0 + f', p)
    ensures f <= f'
  {
    assert (f' - f) * p == (1.0 + f') * p - (1.0 + f) * p;
    SignOfFactor(f' - f, p);
  }

  /** Monotone over the bit patterns of all finite floats. */
  lemma EncodeMonotone(b: Bits, c: Bits)
    requires Finite(b) && Finite(c) && Value(b) <= Value(c)
    ensures 0.0 <= Decode(Encode(b)) <= Decode(Encode(c))
  {
    hide Value;
    hide Encode;
    hide EncodeReal;
    hide Raw;
    EncodeAgrees(b);
    EncodeAgrees(c);
    ThroughMonotone(Value(b), Value(c));
  }
}
