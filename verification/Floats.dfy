/** f32 values whose arithmetic is left uninterpreted: results that hold for any
    operations hold for the rounded ones, in the order the code applies them. */
module Floats {
  import opened Packing

  type Float(==, 0, !new)

  /** One rounded operation each; `dot` is the fused dequantise-and-dot of one packed
      row, and `gelu` the scalar activation. */
  datatype FloatOps = FloatOps(
    zero: Float,
    add: (Float, Float) -> Float,
    mul: (Float, Float) -> Float,
    gelu: Float -> Float,
    dot: (seq<Byte>, seq<Byte>, seq<Float>) -> Float)
}
