/** Bytes holding two four-bit codes, low nibble first, and the values of the E2M1 codes. */
module Packing {
  type Byte = b: nat | b < 256 witness 0

  /** The four-bit code of column `col`, in the byte holding columns `col` and its neighbour. */
  function Nibble(b: Byte, col: nat): (r: nat)
    ensures r < 16
  {
    if col % 2 == 0 then b % 16 else b / 16
  }

  /** The E2M1 code values, doubled. */
  function Code(nibble: nat): (r: int)
    requires nibble < 16
    ensures -12 <= r <= 12
  {
    [0, 1, 2, 3, 4, 6, 8, 12, 0, -1, -2, -3, -4, -6, -8, -12][nibble]
  }

  /** The codes are the four-bit floats of the format E2M1: a sign bit, two exponent bits with bias 1 and
      one mantissa bit, subnormal at exponent 0. */
  lemma CodeIsE2M1(nibble: nat)
    requires nibble < 16
    ensures
      var negative, e, m := nibble / 8 == 1, nibble / 2 % 4, nibble % 2;
      var doubled := if e == 0 then m else if e == 1 then 2 + m else if e == 2 then 2 * (2 + m) else 4 * (2 + m);
      Code(nibble) == if negative then -doubled else doubled
  {
  }
}
