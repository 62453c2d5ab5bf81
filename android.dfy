/**
 * The Android framework values the widget reads: a `MotionEvent` reduced to the
 * accessors the handler calls, and the constants of `MotionEvent` and `Paint`.
 */
module Android {
  import opened KotlinMath

  /**
   * One pointer event: the raw action code (the base action in the low byte,
   * the pointer index above it), the number of pointers down, and the
   * coordinates of pointers 0 and 1 (`getX(0)`, `getY(0)`, `getX(1)`, `getY(1)`).
   */
  datatype MotionEvent = MotionEvent(action: Int, pointerCount: Int, x0: real, y0: real, x1: real, y1: real)

  const ACTION_DOWN: Int := 0
  const ACTION_UP: Int := 1
  const ACTION_MOVE: Int := 2
  const ACTION_CANCEL: Int := 3
  const ACTION_POINTER_DOWN: Int := 5
  /** `ACTION_MASK` is 0xff: the low byte of the action code. */
  const ACTION_MASK: Int := 0xff

  /** `Paint.LINEAR_TEXT_FLAG` and `Paint.SUBPIXEL_TEXT_FLAG`. */
  const LINEAR_TEXT_FLAG: bv32 := 0x40
  const SUBPIXEL_TEXT_FLAG: bv32 := 0x80

  /**
   * `action and ACTION_MASK`: the low byte of a 32-bit action code. For a
   * two's-complement `Int` that is its Euclidean remainder modulo 256.
   */
  function MaskedAction(action: Int): (r: int)
    ensures 0 <= r <= ACTION_MASK
    ensures (action - r) % (ACTION_MASK + 1) == 0
    ensures 0 <= action <= ACTION_MASK ==> r == action
  {
    action % (ACTION_MASK + 1)
  }

  /**
   * The action code the framework sends for `base` raised by pointer `index`:
   * the index shifted left by 8 bits, that is multiplied by `ACTION_MASK + 1`.
   */
  function ActionFor(base: int, index: nat): (a: Int)
    requires 0 <= base <= ACTION_MASK && index < 0x80_0000
    ensures MaskedAction(a) == base
  {
    index * (ACTION_MASK + 1) + base
  }
}
