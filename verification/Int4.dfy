/** INT4 weights against int8 activations: the scalar loop, the reference loop and a lane
    model of the AVX-512 VNNI path compute the same 32-bit integer for every group. */
module Int4 {
  import P = Packing

  type Byte = P.Byte
  type Code = q: int | -128 <= q < 128 witness 0

  newtype I32 = x: int | -0x8000_0000 <= x < 0x8000_0000

  // A group is 128 columns: 64 packed bytes, low nibble first. Every zero point is 7.

  // ----- The integers of one group -----

  /** The weight code at column `c` of a group. */
  function Nibble(bytes: seq<Byte>, c: nat): (r: nat)
    requires c < 2 * |bytes|
    ensures r < 16
  {
    P.Nibble(bytes[c / 2], c)
  }

  predicate Group(bytes: seq<Byte>, q: seq<Code>) {
    |bytes| == 64 && |q| == 128
  }

  function Term(bytes: seq<Byte>, q: seq<Code>, c: nat): (r: int)
    requires Group(bytes, q) && c < 128
    ensures -1920 <= r <= 1905
  {
    TermBounds(Nibble(bytes, c), q[c]);
    Nibble(bytes, c) * q[c]
  }

  lemma TermBounds(n: nat, q: Code)
    requires n < 16
    ensures -1920 <= n * q <= 1905
  {
    if q >= 0 {
      assert n * q <= 15 * q;
    } else {
      assert n * q >= 15 * q;
    }
  }

  /** The sum of nibble times code over the first `n` columns. */
  function Raw(bytes: seq<Byte>, q: seq<Code>, n: nat): (r: int)
    requires Group(bytes, q) && n <= 128
    ensures -1920 * n <= r <= 1905 * n
  {
    if n == 0 then 0 else Raw(bytes, q, n - 1) + Term(bytes, q, n - 1)
  }

  function CodeSum(q: seq<Code>, n: nat): (r: int)
    requires n <= |q|
    ensures -128 * n <= r <= 127 * n
  {
    if n == 0 then 0 else CodeSum(q, n - 1) + q[n - 1]
  }

  /** What the row should use: the sum of (nibble - 7) times code. */
  function Centred(bytes: seq<Byte>, q: seq<Code>, n: nat): int
    requires Group(bytes, q) && n <= 128
  {
    if n == 0 then 0 else Centred(bytes, q, n - 1) + (Nibble(bytes, n - 1) - 7) * q[n - 1]
  }

  /** The zero-point correction is exact. */
  lemma {:induction false} ZeroPoint(bytes: seq<Byte>, q: seq<Code>, n: nat)
    requires Group(bytes, q) && n <= 128
    ensures Raw(bytes, q, n) - 7 * CodeSum(q, n) == Centred(bytes, q, n)
  {
    if n > 0 {
      ZeroPoint(bytes, q, n - 1);
      Shifted(Nibble(bytes, n - 1), q[n - 1]);
    }
  }

  lemma Shifted(n: int, q: int)
    ensures n * q - 7 * q == (n - 7) * q
  {
  }

  // ----- Registers -----

  /** The 32-bit result of an addition that may overflow. */
  function Wrap32(x: int): (r: int)
    ensures -0x8000_0000 <= r < 0x8000_0000
    ensures -0x8000_0000 <= x < 0x8000_0000 ==> r == x
  {
    (x + 0x8000_0000) % 0x1_0000_0000 - 0x8000_0000
  }

  /** Byte lanes ANDed with 0x0f. */
  function LowNibbles(w: seq<Byte>): (r: seq<Byte>)
    ensures |r| == |w|
  {
    seq(|w|, i requires 0 <= i < |w| => w[i] % 16)
  }

  function Word(lo: Byte, hi: Byte): (r: int)
    ensures 0 <= r < 65536
  {
    lo as int + 256 * (hi as int)
  }

  /** Each little-endian 16-bit lane shifted right by four. */
  function ShiftRight4By16(w: seq<Byte>): (r: seq<Byte>)
    requires |w| % 2 == 0
    ensures |r| == |w|
  {
    seq(|w|, i requires 0 <= i < |w| =>
      if i % 2 == 0 then (Word(w[i], w[i + 1]) / 16) % 256 else (Word(w[i - 1], w[i]) / 16) / 256)
  }

  /** Bytes gathered from two registers by the low seven bits of each index. */
  function Permute2(a: seq<Code>, index: seq<Byte>, b: seq<Code>): (r: seq<Code>)
    requires |a| == |b| == 64
    ensures |r| == |index|
  {
    seq(|index|, i requires 0 <= i < |index| => (a + b)[index[i] % 128])
  }

  function Quad(u: seq<Byte>, s: seq<Code>, l: nat): int
    requires |u| == |s| == 64 && l < 16
  {
    u[4 * l] * s[4 * l] + u[4 * l + 1] * s[4 * l + 1] + u[4 * l + 2] * s[4 * l + 2] + u[4 * l + 3] * s[4 * l + 3]
  }

  /** Four unsigned-by-signed products added into each 32-bit lane, wrapping. */
  function Dpbusd(acc: seq<int>, u: seq<Byte>, s: seq<Code>): (r: seq<int>)
    requires |acc| == 16 && |u| == |s| == 64
    ensures |r| == 16
  {
    seq(16, l requires 0 <= l < 16 => Wrap32(acc[l] + Quad(u, s, l)))
  }

  function LaneSum(v: seq<int>, n: nat): int
    requires n <= |v|
  {
    if n == 0 then 0 else LaneSum(v, n - 1) + v[n - 1]
  }

  /** The horizontal sum, wrapping. */
  function ReduceAdd(v: seq<int>): (r: int)
    ensures -0x8000_0000 <= r < 0x8000_0000
  {
    Wrap32(LaneSum(v, |v|))
  }

  lemma WordParts(lo: Byte, hi: Byte)
    ensures Word(lo, hi) / 16 == lo / 16 + 16 * (hi % 16) + 256 * (hi / 16)
  {
    var a, h: int := lo / 16, hi;
    assert Word(lo, hi) == 16 * (a + 16 * h) + lo % 16;
    assert h == hi % 16 + 16 * (hi / 16);
  }

  lemma EvenByte(lo: Byte, hi: Byte)
    ensures (Word(lo, hi) / 16) % 256 % 16 == lo / 16
  {
    hide Word;
    WordParts(lo, hi);
    var a: int, b: int, c: int := lo / 16, hi % 16, hi / 16;
    assert (a + 16 * b + 256 * c) % 256 == a + 16 * b;
    assert (a + 16 * b) % 16 == a;
  }

  lemma OddByte(lo: Byte, hi: Byte)
    ensures (Word(lo, hi) / 16) / 256 % 16 == hi / 16
  {
    hide Word;
    WordParts(lo, hi);
    var a: int, b: int, c: int := lo / 16, hi % 16, hi / 16;
    assert (a + 16 * b + 256 * c) / 256 == c;
  }

  lemma ShiftedByte(w: seq<Byte>, b: nat)
    requires |w| == 64 && b < 64
    ensures ShiftRight4By16(w)[b] % 16 == w[b] / 16
  {
    hide Word;
    if b % 2 == 0 {
      EvenByte(w[b], w[b + 1]);
    } else {
      OddByte(w[b - 1], w[b]);
    }
  }

  /** The nibble split: masking gives even columns, shifting then masking odd ones, since
      the bits a 16-bit shift carries across the byte boundary are masked off. */
  lemma SplitNibbles(w: seq<Byte>, b: nat)
    requires |w| == 64 && b < 64
    ensures LowNibbles(w)[b] == Nibble(w, 2 * b)
    ensures LowNibbles(ShiftRight4By16(w))[b] == Nibble(w, 2 * b + 1)
  {
    hide ShiftRight4By16;
    ShiftedByte(w, b);
    assert (2 * b) / 2 == b && (2 * b + 1) / 2 == b;
  }

  function EvenIndex(): (r: seq<Byte>)
    ensures |r| == 64
  {
    seq(64, i requires 0 <= i < 64 => 2 * i)
  }

  function OddIndex(): (r: seq<Byte>)
    ensures |r| == 64
  {
    seq(64, i requires 0 <= i < 64 => 2 * i + 1)
  }

  lemma SplitCodes(q: seq<Code>, b: nat)
    requires |q| == 128 && b < 64
    ensures Permute2(q[..64], EvenIndex(), q[64..])[b] == q[2 * b]
    ensures Permute2(q[..64], OddIndex(), q[64..])[b] == q[2 * b + 1]
  {
    assert q[..64] + q[64..] == q;
  }

  /** The group's sum as the vector path computes it. */
  function VnniRaw(bytes: seq<Byte>, q: seq<Code>): int
    requires Group(bytes, q)
  {
    var wLo, wHi := LowNibbles(bytes), LowNibbles(ShiftRight4By16(bytes));
    var qEven, qOdd := Permute2(q[..64], EvenIndex(), q[64..]), Permute2(q[..64], OddIndex(), q[64..]);
    ReduceAdd(Dpbusd(Dpbusd(seq(16, _ => 0), wLo, qEven), wHi, qOdd))
  }

  // ----- The lanes add up -----

  function EvenQuad(bytes: seq<Byte>, q: seq<Code>, l: nat): (r: int)
    requires Group(bytes, q) && l < 16
    ensures -7680 <= r <= 7620
  {
    Term(bytes, q, 8 * l) + Term(bytes, q, 8 * l + 2) + Term(bytes, q, 8 * l + 4) + Term(bytes, q, 8 * l + 6)
  }

  function OddQuad(bytes: seq<Byte>, q: seq<Code>, l: nat): (r: int)
    requires Group(bytes, q) && l < 16
    ensures -7680 <= r <= 7620
  {
    Term(bytes, q, 8 * l + 1) + Term(bytes, q, 8 * l + 3) + Term(bytes, q, 8 * l + 5) + Term(bytes, q, 8 * l + 7)
  }

  predicate Streams(bytes: seq<Byte>, q: seq<Code>, u: seq<Byte>, s: seq<Code>, odd: nat)
    requires Group(bytes, q) && odd < 2
  {
    |u| == |s| == 64 && forall b: nat :: b < 64 ==> u[b] == Nibble(bytes, 2 * b + odd) && s[b] == q[2 * b + odd]
  }

  lemma QuadIs(bytes: seq<Byte>, q: seq<Code>, u: seq<Byte>, s: seq<Code>, odd: nat, l: nat)
    requires Group(bytes, q) && odd < 2 && l < 16 && Streams(bytes, q, u, s, odd)
    ensures Quad(u, s, l) == Term(bytes, q, 8 * l + odd) + Term(bytes, q, 8 * l + 2 + odd)
                             + Term(bytes, q, 8 * l + 4 + odd) + Term(bytes, q, 8 * l + 6 + odd)
  {
    QuadTerm(bytes, q, u, s, odd, 4 * l);
    QuadTerm(bytes, q, u, s, odd, 4 * l + 1);
    QuadTerm(bytes, q, u, s, odd, 4 * l + 2);
    QuadTerm(bytes, q, u, s, odd, 4 * l + 3);
  }

  lemma QuadTerm(bytes: seq<Byte>, q: seq<Code>, u: seq<Byte>, s: seq<Code>, odd: nat, b: nat)
    requires Group(bytes, q) && odd < 2 && b < 64 && Streams(bytes, q, u, s, odd)
    ensures u[b] * s[b] == Term(bytes, q, 2 * b + odd)
  {
  }

  lemma RawByEight(bytes: seq<Byte>, q: seq<Code>, l: nat)
    requires Group(bytes, q) && l < 16
    ensures Raw(bytes, q, 8 * l + 8) == Raw(bytes, q, 8 * l) + EvenQuad(bytes, q, l) + OddQuad(bytes, q, l)
  {
    assert Raw(bytes, q, 8 * l + 2) == Raw(bytes, q, 8 * l) + Term(bytes, q, 8 * l) + Term(bytes, q, 8 * l + 1);
    assert Raw(bytes, q, 8 * l + 4) == Raw(bytes, q, 8 * l + 2) + Term(bytes, q, 8 * l + 2) + Term(bytes, q, 8 * l + 3);
    assert Raw(bytes, q, 8 * l + 6) == Raw(bytes, q, 8 * l + 4) + Term(bytes, q, 8 * l + 4) + Term(bytes, q, 8 * l + 5);
    assert Raw(bytes, q, 8 * l + 8) == Raw(bytes, q, 8 * l + 6) + Term(bytes, q, 8 * l + 6) + Term(bytes, q, 8 * l + 7);
  }

  /** Neither accumulation wraps. */
  lemma LaneIs(bytes: seq<Byte>, q: seq<Code>, wLo: seq<Byte>, qEven: seq<Code>, wHi: seq<Byte>, qOdd: seq<Code>, l: nat)
    requires Group(bytes, q) && l < 16
    requires Streams(bytes, q, wLo, qEven, 0) && Streams(bytes, q, wHi, qOdd, 1)
    ensures Dpbusd(Dpbusd(seq(16, _ => 0), wLo, qEven), wHi, qOdd)[l] == EvenQuad(bytes, q, l) + OddQuad(bytes, q, l)
  {
    hide Dpbusd;
    hide Quad;
    hide Term;
    QuadIs(bytes, q, wLo, qEven, 0, l);
    QuadIs(bytes, q, wHi, qOdd, 1, l);
    EvenOdd(bytes, q, l);
    hide EvenQuad;
    hide OddQuad;
    DpbusdAt(seq(16, _ => 0), wLo, qEven, l);
    DpbusdAt(Dpbusd(seq(16, _ => 0), wLo, qEven), wHi, qOdd, l);
  }

  lemma EvenOdd(bytes: seq<Byte>, q: seq<Code>, l: nat)
    requires Group(bytes, q) && l < 16
    ensures EvenQuad(bytes, q, l) == Term(bytes, q, 8 * l) + Term(bytes, q, 8 * l + 2)
                                     + Term(bytes, q, 8 * l + 4) + Term(bytes, q, 8 * l + 6)
    ensures OddQuad(bytes, q, l) == Term(bytes, q, 8 * l + 1) + Term(bytes, q, 8 * l + 3)
                                    + Term(bytes, q, 8 * l + 5) + Term(bytes, q, 8 * l + 7)
  {
    hide Term;
  }

  lemma DpbusdAt(acc: seq<int>, u: seq<Byte>, s: seq<Code>, l: nat)
    requires |acc| == 16 && |u| == |s| == 64 && l < 16
    ensures Dpbusd(acc, u, s)[l] == Wrap32(acc[l] + Quad(u, s, l))
  {
    hide Quad;
    hide Wrap32;
  }

  lemma {:induction false} LanesAddUp(bytes: seq<Byte>, q: seq<Code>, v: seq<int>, n: nat)
    requires Group(bytes, q) && n <= 16 == |v|
    requires forall l: nat :: l < 16 ==> v[l] == EvenQuad(bytes, q, l) + OddQuad(bytes, q, l)
    ensures LaneSum(v, n) == Raw(bytes, q, 8 * n)
  {
    if n > 0 {
      LanesAddUp(bytes, q, v, n - 1);
      RawByEight(bytes, q, n - 1);
    }
  }

  /** The vector path gives the same integer as the plain sum, without wrapping. */
  lemma VnniIsExact(bytes: seq<Byte>, q: seq<Code>)
    requires Group(bytes, q)
    ensures VnniRaw(bytes, q) == Raw(bytes, q, 128)
  {
    var wLo, wHi := LowNibbles(bytes), LowNibbles(ShiftRight4By16(bytes));
    var qEven, qOdd := Permute2(q[..64], EvenIndex(), q[64..]), Permute2(q[..64], OddIndex(), q[64..]);
    forall b: nat | b < 64
      ensures wLo[b] == Nibble(bytes, 2 * b) && wHi[b] == Nibble(bytes, 2 * b + 1) && qEven[b] == q[2 * b] && qOdd[b] == q[2 * b + 1]
    {
      SplitNibbles(bytes, b);
      SplitCodes(q, b);
    }
    var v := Dpbusd(Dpbusd(seq(16, _ => 0), wLo, qEven), wHi, qOdd);
    forall l: nat | l < 16 ensures v[l] == EvenQuad(bytes, q, l) + OddQuad(bytes, q, l) {
      LaneIs(bytes, q, wLo, qEven, wHi, qOdd, l);
    }
    LanesAddUp(bytes, q, v, 16);
  }

  // ----- One row -----

  /** The three rounded operations on the row accumulator. */
  datatype RowOps<!F> = RowOps(zero: F, fromInt: int -> F, mul: (F, F) -> F, add: (F, F) -> F)

  /** An activation quantised once per token. */
  datatype Activation<F> = Activation(q: seq<Code>, scale: F, groupSums: seq<int>) {
    predicate Valid() {
      |q| == 128 * |groupSums| && forall g :: 0 <= g < |groupSums| ==> SumAt(g)
    }

    predicate SumAt(g: nat)
      requires |q| == 128 * |groupSums| && g < |groupSums|
    {
      groupSums[g] == CodeSum(Codes(g), 128)
    }

    function Codes(g: nat): (r: seq<Code>)
      requires |q| == 128 * |groupSums| && g < |groupSums|
      ensures |r| == 128
    {
      q[128 * g..128 * g + 128]
    }
  }

  function Bytes(packed: seq<Byte>, g: nat): (r: seq<Byte>)
    requires 64 * g + 64 <= |packed|
    ensures |r| == 64
  {
    packed[64 * g..64 * g + 64]
  }

  predicate RowFits<F>(packed: seq<Byte>, scales: seq<F>, a: Activation<F>) {
    a.Valid() && |a.groupSums| == |scales| && |packed| == 64 * |scales|
  }

  /** The first `n` groups: each contributes its centred integer sum, scaled. */
  function RowDot<F>(ops: RowOps<F>, packed: seq<Byte>, scales: seq<F>, a: Activation<F>, n: nat): F
    requires RowFits(packed, scales, a) && n <= |scales|
  {
    if n == 0 then ops.zero
    else
      ops.add(RowDot(ops, packed, scales, a, n - 1),
              ops.mul(ops.mul(ops.fromInt(Centred(Bytes(packed, n - 1), a.Codes(n - 1), 128)), scales[n - 1]), a.scale))
  }

  /** The zero-point correction, on values an i32 holds. */
  method Corrected(raw: I32, sum: int, ghost bytes: seq<Byte>, ghost q: seq<Code>) returns (idot: I32)
    requires Group(bytes, q) && raw as int == Raw(bytes, q, 128) && sum == CodeSum(q, 128)
    ensures idot as int == Centred(bytes, q, 128)
  {
    ZeroPoint(bytes, q, 128);
    idot := raw - 7 * (sum as I32);
  }

  method ScalarGroup(bytes: seq<Byte>, q: seq<Code>) returns (raw: I32)
    requires Group(bytes, q)
    ensures raw as int == Raw(bytes, q, 128)
  {
    raw := 0;
    for j := 0 to 64
      invariant raw as int == Raw(bytes, q, 2 * j)
    {
      TermBounds(bytes[j] % 16, q[2 * j]);
      TermBounds(bytes[j] / 16, q[2 * j + 1]);
      assert Term(bytes, q, 2 * j) == (bytes[j] % 16) * q[2 * j];
      assert Term(bytes, q, 2 * j + 1) == (bytes[j] / 16) * q[2 * j + 1];
      raw := raw + (bytes[j] % 16) as I32 * q[2 * j] as I32;
      raw := raw + (bytes[j] / 16) as I32 * q[2 * j + 1] as I32;
    }
  }

  method ReferenceGroup(bytes: seq<Byte>, q: seq<Code>) returns (raw: I32)
    requires Group(bytes, q)
    ensures raw as int == Raw(bytes, q, 128)
  {
    raw := 0;
    for col := 0 to 128
      invariant raw as int == Raw(bytes, q, col)
    {
      TermBounds(Nibble(bytes, col), q[col]);
      raw := raw + Nibble(bytes, col) as I32 * q[col] as I32;
    }
  }

  method FusedRowDotScalar<F>(ops: RowOps<F>, packed: seq<Byte>, scales: seq<F>, a: Activation<F>) returns (acc: F)
    requires RowFits(packed, scales, a)
    ensures acc == RowDot(ops, packed, scales, a, |scales|)
  {
    acc := ops.zero;
    for g := 0 to |scales|
      invariant acc == RowDot(ops, packed, scales, a, g)
    {
      assert a.SumAt(g);
      var raw := ScalarGroup(Bytes(packed, g), a.Codes(g));
      var idot := Corrected(raw, a.groupSums[g], Bytes(packed, g), a.Codes(g));
      acc := ops.add(acc, ops.mul(ops.mul(ops.fromInt(idot as int), scales[g]), a.scale));
    }
  }

  method ReferenceRowDot<F>(ops: RowOps<F>, packed: seq<Byte>, scales: seq<F>, a: Activation<F>) returns (acc: F)
    requires RowFits(packed, scales, a)
    ensures acc == RowDot(ops, packed, scales, a, |scales|)
  {
    acc := ops.zero;
    for g := 0 to |scales|
      invariant acc == RowDot(ops, packed, scales, a, g)
    {
      assert a.SumAt(g);
      var raw := ReferenceGroup(Bytes(packed, g), a.Codes(g));
      var idot := Corrected(raw, a.groupSums[g], Bytes(packed, g), a.Codes(g));
      acc := ops.add(acc, ops.mul(ops.mul(ops.fromInt(idot as int), scales[g]), a.scale));
    }
  }

  /** The vector path, group by group: split the nibbles, gather even and odd codes, two
      dot-product accumulations and a horizontal sum. */
  method FusedRowDotVnni<F>(ops: RowOps<F>, packed: seq<Byte>, scales: seq<F>, a: Activation<F>) returns (acc: F)
    requires RowFits(packed, scales, a)
    ensures acc == RowDot(ops, packed, scales, a, |scales|)
  {
    hide LowNibbles;
    hide ShiftRight4By16;
    hide Permute2;
    hide Dpbusd;
    hide ReduceAdd;
    hide Centred;
    var evenIdx, oddIdx := EvenIndex(), OddIndex();
    acc := ops.zero;
    for g := 0 to |scales|
      invariant acc == RowDot(ops, packed, scales, a, g)
    {
      assert a.SumAt(g);
      var wbytes, q := Bytes(packed, g), a.Codes(g);
      var wLo := LowNibbles(wbytes);
      var wHi := LowNibbles(ShiftRight4By16(wbytes));
      var qEven := Permute2(q[..64], evenIdx, q[64..]);
      var qOdd := Permute2(q[..64], oddIdx, q[64..]);
      var idot32 := seq(16, _ => 0);
      idot32 := Dpbusd(idot32, wLo, qEven);
      idot32 := Dpbusd(idot32, wHi, qOdd);
      var raw := ReduceAdd(idot32) as I32;
      VnniIsExact(wbytes, q);
      assert raw as int == VnniRaw(wbytes, q);
      var idot := Corrected(raw, a.groupSums[g], wbytes, q);
      acc := ops.add(acc, ops.mul(ops.mul(ops.fromInt(idot as int), scales[g]), a.scale));
    }
  }
}
