/**
 * The parts of the Kotlin/JVM numeric runtime that the pinch handler relies on:
 * 32-bit `Int` arithmetic, `Double.toInt()`, `Math.min`/`Math.max` on `Float`,
 * and `Math.sqrt`/`Math.pow` as abstract functions with the laws the proofs use.
 * `Float` and `Double` are modelled as `real`.
 */
module KotlinMath {

  const INT_MIN: int := -0x8000_0000
  const INT_MAX: int := 0x7fff_ffff
  const INT_RANGE: int := 0x1_0000_0000

  /** A mathematical integer is a value of Kotlin's 32-bit `Int`. */
  predicate IsInt(x: int) {
    INT_MIN <= x <= INT_MAX
  }

  /** Kotlin's `Int`. */
  type Int = x: int | IsInt(x)

  /** Two's-complement wrap-around of a mathematical integer into `Int`. */
  function Wrap(x: int): (r: int)
    ensures IsInt(r)
    ensures (x - r) % INT_RANGE == 0
    ensures IsInt(x) ==> r == x
  {
    (x - INT_MIN) % INT_RANGE + INT_MIN
  }

  /** Kotlin's `a - b` on `Int`, which wraps on overflow. */
  function IntSub(a: int, b: int): (r: int)
    ensures IsInt(r)
    ensures IsInt(a - b) ==> r == a - b
  {
    Wrap(a - b)
  }

  /**
   * Kotlin's `Double.toInt()`: rounds toward zero and saturates at the bounds
   * of `Int` (NaN, which maps to 0, has no counterpart among the reals).
   */
  function DoubleToInt(x: real): (r: int)
    ensures IsInt(r)
    ensures x >= INT_MAX as real ==> r == INT_MAX
    ensures x <= INT_MIN as real ==> r == INT_MIN
    ensures 0.0 <= x < INT_MAX as real ==> 0 <= r && r as real <= x < (r + 1) as real
    ensures INT_MIN as real < x <= 0.0 ==> r <= 0 && (r - 1) as real < x <= r as real
  {
    if x >= INT_MAX as real then INT_MAX
    else if x <= INT_MIN as real then INT_MIN
    else if x >= 0.0 then x.Floor
    else -((-x).Floor)
  }

  /** `Math.max(a, b)` on floats (no NaN, no signed zero among the reals). */
  function Max(a: real, b: real): (r: real)
    ensures r >= a && r >= b
    ensures r == a || r == b
  {
    if a >= b then a else b
  }

  /** `Math.min(a, b)` on floats. */
  function Min(a: real, b: real): (r: real)
    ensures r <= a && r <= b
    ensures r == a || r == b
  {
    if a <= b then a else b
  }

  /**
   * `Math.sqrt` and `x => Math.pow(2.0, x)`, left abstract. The model does not
   * depend on their values except through the laws of `Lawful`.
   */
  datatype Numerics = Numerics(sqrt: real -> real, pow2: real -> real) {

    /** The only facts about `sqrt` and `pow` the model relies on. */
    ghost predicate Lawful() {
      && (forall m: real :: m >= 0.0 ==> sqrt(m) >= 0.0)
      && (forall d: real :: pow2(d) > 0.0)
      && pow2(0.0) == 1.0
    }

    /** `2^x` grows with `x`; assumed only by the lemmas that say so. */
    ghost predicate Pow2Monotone() {
      forall a: real, b: real :: a <= b ==> pow2(a) <= pow2(b)
    }
  }
}
