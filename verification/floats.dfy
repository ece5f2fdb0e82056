/**
 * Go's float64, seen only through `math.Float64bits` and
 * `math.Float64frombits`. A value is represented by its IEEE-754 binary64 bit
 * pattern, so the two conversions are mutually inverse by construction; no
 * floating-point arithmetic is defined here.
 */
module Floats {

  datatype Float64 = Float64(bits: bv64)

  /** `math.Float64bits` */
  function Float64bits(f: Float64): bv64
  {
    f.bits
  }

  /** `math.Float64frombits` */
  function Float64frombits(b: bv64): Float64
  {
    Float64(b)
  }

  /** The two reinterpretations are inverse to each other, in both directions. */
  lemma BitsBijection(f: Float64, b: bv64)
    ensures Float64frombits(Float64bits(f)) == f
    ensures Float64bits(Float64frombits(b)) == b
  {
  }

  /** The float64 literal 1.0 (sign 0, biased exponent 1023, fraction 0). */
  const One: Float64 := Float64(0x3FF0_0000_0000_0000)

  /** The float64 literal 2.0 (sign 0, biased exponent 1024, fraction 0). */
  const Two: Float64 := Float64(0x4000_0000_0000_0000)

  /** Go's `*` on float64 operands; the model takes it as a given function. */
  type Multiply = (Float64, Float64) -> Float64
}
