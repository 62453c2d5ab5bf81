# PinchZoomTextView in Dafny

A model of `PinchZoomTextView`, an Android `TextView` whose font size follows a
two-finger pinch. On each pointer event, `onTouchEvent` does two things:

1. It switches two render hints in `paintFlags`. The exact code `ACTION_DOWN` sets
   `LINEAR_TEXT_FLAG` and `SUBPIXEL_TEXT_FLAG`. The exact codes `ACTION_UP` and
   `ACTION_CANCEL` clear them.
2. With zoom enabled and exactly two pointers down, it handles the pinch.
   - If the action, masked with `ACTION_MASK`, is `ACTION_POINTER_DOWN`, it
     records the spread of the fingers (`baseDistance`) and the current
     `ratio` (`baseRatio`).
   - Otherwise it sets `ratio = min(1024, max(0.1, baseRatio * 2^((distance - baseDistance) / 200)))`
     and `textSize = ratio + 13`.

The handler always returns `true`.

Layout:

- `wrappers.dfy`: module `Wrappers`. `Option` stands in for Kotlin's nullable `MotionEvent?`.
- `kotlin_math.dfy`: module `KotlinMath`. It models 32-bit `Int` and its wrap-around
  subtraction, `Double.toInt()` (truncation toward zero, saturating at the `Int`
  bounds), and `Math.min`/`Math.max`. It also defines `Numerics`, which holds
  `Math.sqrt` and `Math.pow(2.0, ·)` as abstract functions. Its `Lawful()`
  predicate states the only laws the proofs use:
  - `sqrt(m) >= 0` for `m >= 0`;
  - `pow2(d) > 0`;
  - `pow2(0) = 1`.

  The monotonicity lemma additionally assumes `Pow2Monotone()`. `Float` and
  `Double` are modelled as `real`.
- `android.dfy`: module `Android`. It holds `MotionEvent`, reduced to the action
  code, the pointer count and the coordinates of pointers 0 and 1, and the
  `MotionEvent`/`Paint` constants. `action and ACTION_MASK` is written as the
  Euclidean remainder modulo 256, which equals the low byte of a
  two's-complement `Int`.
- `pinch_zoom_text_view.dfy`: module `PinchZoom`.
  - `ZoomState` is the view's state as a value: the four fields plus the host
    properties `paintFlags` (a `bv32`) and `textSize`.
  - `Step` specifies one call of `onTouchEvent`, and `Run` a sequence of calls.
  - The class `PinchZoomTextView` holds the same state in mutable fields. Its
    `OnTouchEvent` method is proved to leave its fields equal to `Step` of their
    old values.
  - The invariant `ZoomState.Valid()` says three things: `ratio` lies in
    `[0.1, 1024]`; `baseDistance` is a non-negative `Int`; `baseRatio` is either
    0 or in `[0.1, 1024]`. Together with `Exponent`, it shows that
    `distance - baseDistance` never wraps around.
- `pinch_zoom_properties.dfy`: module `PinchZoomProperties`. It holds the lemmas
  about `Step` and `Run`: guards, snapshot, rescale, a pinch that returns to its
  starting spread, monotonicity, and the concrete scenarios.

Details of the code that the model follows:

- The code never sets `textSize` before the first rescaling event. So the
  initial text size is the host's, given as a constructor argument.
- The render hints react only to the exact codes `ACTION_DOWN`, `ACTION_UP`
  and `ACTION_CANCEL`. `ACTION_POINTER_DOWN`/`ACTION_POINTER_UP` for pointer 1
  and above leave them alone.
- The distance is `sqrt(...).toInt()`: truncation toward zero, saturating at
  `Int.MAX_VALUE`.
- `baseRatio` starts at 0. A two-pointer move that arrives before any
  `ACTION_POINTER_DOWN` therefore drops the ratio to 0.1 (`StaleBaseCollapses`).

## Model

| member | source | states |
|---|---|---|
| `KotlinMath.Wrap` | lib/src/main/java/com/androidessence/pinchzoomtextview/PinchZoomTextView.kt:65 | The result is an `Int`. It is congruent to the input modulo 2^32. It equals the input when the input already fits. |
| `KotlinMath.IntSub` | lib/src/main/java/com/androidessence/pinchzoomtextview/PinchZoomTextView.kt:65 | `Int` subtraction gives an `Int`. It is the exact difference whenever that difference fits. |
| `KotlinMath.DoubleToInt` | lib/src/main/java/com/androidessence/pinchzoomtextview/PinchZoomTextView.kt:83 | `toInt()` saturates at `Int.MIN_VALUE` and `Int.MAX_VALUE` and truncates toward zero in between. For non-negative inputs that is the floor, and for non-positive inputs the ceiling. |
| `KotlinMath.Max` | lib/src/main/java/com/androidessence/pinchzoomtextview/PinchZoomTextView.kt:67 | `Math.max` is an upper bound of both arguments and equals one of them. |
| `KotlinMath.Min` | lib/src/main/java/com/androidessence/pinchzoomtextview/PinchZoomTextView.kt:67 | `Math.min` is a lower bound of both arguments and equals one of them. |
| `Android.MaskedAction` | lib/src/main/java/com/androidessence/pinchzoomtextview/PinchZoomTextView.kt:59 | The masked action lies in `[0, 255]` and is congruent to the action code modulo 256, so it is the code's low byte. An action code already in that range is returned unchanged. |
| `Android.ActionFor` | lib/src/main/java/com/androidessence/pinchzoomtextview/PinchZoomTextView.kt:59-61 | Masking recovers the base action whatever pointer index sits above `ACTION_MASK`. |
| `PinchZoom.Initial` | lib/src/main/java/com/androidessence/pinchzoomtextview/PinchZoomTextView.kt:19-34 | A new view satisfies the invariant and has zoom enabled. It keeps the host's paint flags and text size. |
| `PinchZoom.Clamp` | lib/src/main/java/com/androidessence/pinchzoomtextview/PinchZoomTextView.kt:67 | The result lies in `[0.1, 1024]`. It is the identity inside that range and a bound outside it. |
| `PinchZoom.Rescale` | lib/src/main/java/com/androidessence/pinchzoomtextview/PinchZoomTextView.kt:66-67 | The new ratio of a pinch always lies in `[0.1, 1024]`. |
| `PinchZoom.SquaredSpread` | lib/src/main/java/com/androidessence/pinchzoomtextview/PinchZoomTextView.kt:79-81 | `dx*dx + dy*dy` is non-negative, so `sqrt` is applied inside its domain. |
| `PinchZoom.GetDistance` | lib/src/main/java/com/androidessence/pinchzoomtextview/PinchZoomTextView.kt:78-84 | The distance is a non-negative `Int`. It is at most `sqrt(dx²+dy²)` and, below `Int.MAX_VALUE`, more than `sqrt(dx²+dy²) - 1`. It saturates at `Int.MAX_VALUE`. |
| `PinchZoom.Hints` | lib/src/main/java/com/androidessence/pinchzoomtextview/PinchZoomTextView.kt:50-53 | Only the two hint bits can change. Exact `ACTION_DOWN` sets both, and exact `ACTION_UP`/`ACTION_CANCEL` clear both. A null event or any other code leaves the flags as they were. |
| `PinchZoom.Exponent` | lib/src/main/java/com/androidessence/pinchzoomtextview/PinchZoomTextView.kt:65 | For base and current distances that are non-negative `Int`s, the exponent is the exact `(distance - baseDistance) / 200`, with no wrap-around. |
| `PinchZoom.Scale` | lib/src/main/java/com/androidessence/pinchzoomtextview/PinchZoomTextView.kt:57-69 | The two-pointer branch keeps the invariant. It leaves `zoomEnabled` and `paintFlags` alone. |
| `PinchZoom.Step` | lib/src/main/java/com/androidessence/pinchzoomtextview/PinchZoomTextView.kt:49-73 | One event keeps the invariant and never changes `zoomEnabled`. Its paint flags are exactly the render-hint update. |
| `PinchZoom.Run` | lib/src/main/java/com/androidessence/pinchzoomtextview/PinchZoomTextView.kt:49-73 | Any sequence of events keeps the invariant, so `ratio` stays in `[0.1, 1024]`, and keeps `zoomEnabled`. |
| `PinchZoom.PinchZoomTextView.constructor` | lib/src/main/java/com/androidessence/pinchzoomtextview/PinchZoomTextView.kt:14-34 | The fields start at `ratio = 1`, `baseDistance = 0`, `baseRatio = 0`, `zoomEnabled = true`, and the invariant holds. |
| `PinchZoom.PinchZoomTextView.SetZoomEnabled` | lib/src/main/java/com/androidessence/pinchzoomtextview/PinchZoomTextView.kt:34 | Setting `zoomEnabled` changes nothing else and keeps the invariant. |
| `PinchZoom.PinchZoomTextView.OnTouchEvent` | lib/src/main/java/com/androidessence/pinchzoomtextview/PinchZoomTextView.kt:49-73 | The handler returns `true` for every event, including null. It keeps the invariant, and its new fields are `Step` of the old ones. |
| `PinchZoom.PinchZoomTextView.UpdateRenderHints` | lib/src/main/java/com/androidessence/pinchzoomtextview/PinchZoomTextView.kt:50-53 | The `when` block changes only `paintFlags`, to `Hints` of the old flags. |
| `PinchZoom.PinchZoomTextView.ScaleText` | lib/src/main/java/com/androidessence/pinchzoomtextview/PinchZoomTextView.kt:56-69 | The two-pointer branch keeps the invariant. Its new fields are `Scale` of the old ones. |
| `PinchZoomProperties.RatioStaysClamped` | lib/src/main/java/com/androidessence/pinchzoomtextview/PinchZoomTextView.kt:19-67 | From construction, after any sequence of events, `ratio` is in `[0.1, 1024]`. |
| `PinchZoomProperties.RunAppend` | lib/src/main/java/com/androidessence/pinchzoomtextview/PinchZoomTextView.kt:49-73 | Handling `a + b` is handling `a`, then `b`. |
| `PinchZoomProperties.IgnoredEvent` | lib/src/main/java/com/androidessence/pinchzoomtextview/PinchZoomTextView.kt:56 | With a null event, zoom disabled, or a pointer count other than 2, only the render hints may change. `ratio`, `baseDistance`, `baseRatio` and `textSize` stay the same. |
| `PinchZoomProperties.PinchStartSnapshots` | lib/src/main/java/com/androidessence/pinchzoomtextview/PinchZoomTextView.kt:57-63 | A two-pointer event whose masked action is `ACTION_POINTER_DOWN`, whatever its pointer-index bits, changes exactly two fields. It sets `baseDistance := distance` and `baseRatio := ratio`. The flags, ratio and text size are unchanged. |
| `PinchZoomProperties.PinchMoveRescales` | lib/src/main/java/com/androidessence/pinchzoomtextview/PinchZoomTextView.kt:64-68 | Any other two-pointer event, `ACTION_MOVE` and `ACTION_POINTER_UP` included, does three things. It sets `ratio = clamp(baseRatio * 2^((distance - baseDistance)/200))` and `textSize = ratio + 13`, which lies in `[13.1, 1037]`. It keeps the base values. |
| `PinchZoomProperties.MoveAtBaseDistance` | lib/src/main/java/com/androidessence/pinchzoomtextview/PinchZoomTextView.kt:65-67 | At the starting spread the multiplier is `2^0 = 1`, so the new ratio is `clamp(baseRatio)`. |
| `PinchZoomProperties.MovesKeepBase` | lib/src/main/java/com/androidessence/pinchzoomtextview/PinchZoomTextView.kt:57-68 | A run of pinch moves leaves `baseDistance` and `baseRatio` as they were. |
| `PinchZoomProperties.PinchReturnRestoresRatio` | lib/src/main/java/com/androidessence/pinchzoomtextview/PinchZoomTextView.kt:57-68 | Fingers down, any moves, then a move back at the starting spread restore the ratio the gesture began from. The text size becomes that ratio plus 13. |
| `PinchZoomProperties.HintsIgnoreZoom` | lib/src/main/java/com/androidessence/pinchzoomtextview/PinchZoomTextView.kt:50-56 | The paint flags after an event do not depend on `zoomEnabled`. |
| `PinchZoomProperties.DistanceSymmetric` | lib/src/main/java/com/androidessence/pinchzoomtextview/PinchZoomTextView.kt:79-83 | Swapping the two pointers does not change the distance. |
| `PinchZoomProperties.PinchRatioMonotone` | lib/src/main/java/com/androidessence/pinchzoomtextview/PinchZoomTextView.kt:65-67 | If `2^x` is monotone, a wider spread never gives a smaller ratio. |
| `PinchZoomProperties.RescaleMonotone` | lib/src/main/java/com/androidessence/pinchzoomtextview/PinchZoomTextView.kt:67 | With a non-negative base ratio, the clamped product grows with the multiplier. |
| `PinchZoomProperties.ClampMonotone` | lib/src/main/java/com/androidessence/pinchzoomtextview/PinchZoomTextView.kt:67 | The `min`/`max` clamp preserves order. |
| `PinchZoomProperties.StaleBaseCollapses` | lib/src/main/java/com/androidessence/pinchzoomtextview/PinchZoomTextView.kt:29-68 | On a new view, a pinch move before any `ACTION_POINTER_DOWN` scales a base ratio of 0. That sets `ratio = 0.1` and `textSize = 13.1`. |
| `PinchZoomProperties.DoublingScenario` | lib/src/main/java/com/androidessence/pinchzoomtextview/PinchZoomTextView.kt:57-68 | Fingers go down 100 px apart and spread to 300 px. That gives `baseDistance = 100`, `baseRatio = 1`, `ratio = 2` and `textSize = 15`. |
| `PinchZoomProperties.ShrinkScenario` | lib/src/main/java/com/androidessence/pinchzoomtextview/PinchZoomTextView.kt:65-68 | From a 200 px base at ratio 1, closing to 0 px gives `ratio = 0.5` and `textSize = 13.5`. |
| `PinchZoomProperties.ExtremeZoomSaturates` | lib/src/main/java/com/androidessence/pinchzoomtextview/PinchZoomTextView.kt:67-68 | A scaled ratio above 1024 stops at exactly 1024, so `textSize = 1037`. |

## Left out

- `MainActivity` (the sample app) is not part of this model. It is layout,
  a click listener and string resources; its only logic negates `zoomEnabled`,
  which `SetZoomEnabled` covers.
- The Android framework classes (`TextView`, `Paint`, `MotionEvent`, `Context`,
  `AttributeSet`) are not modelled. `MotionEvent` is a plain record and
  `paintFlags`/`textSize` are plain fields. Rendering, text-size units and the
  framework's handling of the return value are out of scope.
- `Math.sqrt` and `Math.pow` are abstract functions, given as a `Numerics`
  value with the laws of `Lawful()`. Their IEEE results are not modelled.
- Floating point is modelled as exact reals. The model ignores `Float`/`Double`
  rounding, `Int`-to-`Float` conversion, infinities and NaN: a NaN from `toInt()`
  would give 0, and `Math.min`/`Math.max` would treat NaN and signed zeros in
  their own way. One concrete consequence: with the initial `baseRatio = 0`
  and a spread more than 25600 px above `baseDistance`, `Math.pow(2.0, delta).toFloat()`
  is `Infinity` and `0 * Infinity` is NaN. NaN passes through `max` and `min`,
  so `ratio` would stay NaN from then on. `StaleBaseCollapses` and
  `RatioStaysClamped` therefore hold over exact reals only.
- Event dispatch and the UI thread are out of scope. Each call of `onTouchEvent`
  is one atomic method call.
- The coordinates of pointers beyond index 1 are left out; the handler reads
  only pointers 0 and 1.
