/**
 * `PinchZoomTextView`: a text view whose font size follows a two-finger pinch.
 *
 * The functions below specify one call of `onTouchEvent` on an immutable
 * snapshot of the view's state (`ZoomState`); the class `PinchZoomTextView`
 * implements the handler on mutable fields and is proved to agree with them.
 */
module PinchZoom {
  import opened Wrappers
  import opened KotlinMath
  import opened Android

  /** Pixels of change in pointer spread per doubling of the ratio. */
  const STEP: real := 200.0
  /** The bounds `ratio` is clamped to. */
  const MIN_RATIO: real := 0.1
  const MAX_RATIO: real := 1024.0
  /** The nominal text size the ratio is added to. */
  const BASE_TEXT_SIZE: real := 13.0
  /** Both render-hint bits the handler sets and clears. */
  const RENDER_HINTS: bv32 := LINEAR_TEXT_FLAG | SUBPIXEL_TEXT_FLAG

  /**
   * The view's state between two events: the four fields of the widget and
   * the two host properties it writes.
   */
  datatype ZoomState = ZoomState(
    ratio: real,
    baseDistance: int,
    baseRatio: real,
    zoomEnabled: bool,
    paintFlags: bv32,
    textSize: real)
  {
    /**
     * What every reachable state satisfies: the clamp bound on `ratio`, a base
     * distance that is a non-negative `Int`, and a base ratio that is either
     * its initial 0 or a snapshot of some earlier `ratio`.
     */
    predicate Valid() {
      && InRatioRange(ratio)
      && 0 <= baseDistance <= INT_MAX
      && (baseRatio == 0.0 || InRatioRange(baseRatio))
    }
  }

  /** Every bit in which `a` and `b` differ is one of the two render hints. */
  predicate DifferOnlyInHints(a: bv32, b: bv32) {
    (a ^ b) | RENDER_HINTS == RENDER_HINTS
  }

  predicate InRatioRange(x: real) {
    MIN_RATIO <= x <= MAX_RATIO
  }

  /**
   * The state of a freshly constructed view: `ratio = 1`, `baseDistance = 0`,
   * `baseRatio = 0`, zoom enabled; paint flags and text size are the host's.
   */
  function Initial(paintFlags: bv32, textSize: real): (s: ZoomState)
    ensures s.Valid() && s.zoomEnabled
    ensures s.paintFlags == paintFlags && s.textSize == textSize
  {
    ZoomState(1.0, 0, 0.0, true, paintFlags, textSize)
  }

  /** `Math.min(1024, Math.max(0.1, x))`. */
  function Clamp(x: real): (r: real)
    ensures InRatioRange(r)
    ensures InRatioRange(x) ==> r == x
    ensures x < MIN_RATIO ==> r == MIN_RATIO
    ensures x > MAX_RATIO ==> r == MAX_RATIO
  {
    Min(MAX_RATIO, Max(MIN_RATIO, x))
  }

  /** `Math.min(1024, Math.max(0.1, baseRatio * multiplier))`: the new ratio of a pinch. */
  function Rescale(baseRatio: real, multiplier: real): (r: real)
    ensures InRatioRange(r)
  {
    Clamp(baseRatio * multiplier)
  }

  /** `dx * dx + dy * dy` for the two pointers of `ev`. */
  function SquaredSpread(ev: MotionEvent): (m: real)
    ensures m >= 0.0
  {
    var dx := ev.x0 - ev.x1;
    var dy := ev.y0 - ev.y1;
    assert dx * dx >= 0.0 && dy * dy >= 0.0;
    dx * dx + dy * dy
  }

  /**
   * `getDistance`: the distance between pointers 0 and 1, truncated to a
   * non-negative `Int`.
   */
  function GetDistance(m: Numerics, ev: MotionEvent): (d: int)
    requires m.Lawful()
    ensures 0 <= d <= INT_MAX
    ensures d as real <= m.sqrt(SquaredSpread(ev))
    ensures m.sqrt(SquaredSpread(ev)) < INT_MAX as real ==> m.sqrt(SquaredSpread(ev)) < (d + 1) as real
    ensures m.sqrt(SquaredSpread(ev)) >= INT_MAX as real ==> d == INT_MAX
  {
    DoubleToInt(m.sqrt(SquaredSpread(ev)))
  }

  /**
   * The render-hint update of `onTouchEvent`: the exact code `ACTION_DOWN`
   * turns both hints on, the exact codes `ACTION_UP` and `ACTION_CANCEL` turn
   * both off, any other event (or none) leaves the flags alone; no other bit
   * ever changes.
   */
  function Hints(flags: bv32, e: Option<MotionEvent>): (r: bv32)
    ensures DifferOnlyInHints(r, flags)
    ensures e.Some? && e.value.action == ACTION_DOWN ==> r & RENDER_HINTS == RENDER_HINTS
    ensures e.Some? && (e.value.action == ACTION_UP || e.value.action == ACTION_CANCEL) ==> r & RENDER_HINTS == 0
    ensures (e.None? || e.value.action !in {ACTION_DOWN, ACTION_UP, ACTION_CANCEL}) ==> r == flags
  {
    match e
    case None => flags
    case Some(ev) =>
      if ev.action == ACTION_DOWN then flags | RENDER_HINTS
      else if ev.action == ACTION_UP || ev.action == ACTION_CANCEL then flags & !RENDER_HINTS
      else flags
  }

  /** The exponent `(distance - baseDistance) / STEP` of a pinch. */
  function Exponent(distance: int, baseDistance: int): (x: real)
    ensures 0 <= distance <= INT_MAX && 0 <= baseDistance <= INT_MAX ==>
      x == (distance - baseDistance) as real / STEP
  {
    IntSub(distance, baseDistance) as real / STEP
  }

  /**
   * The scaling half of `onTouchEvent`, taken when zoom is enabled and two
   * pointers are down: a masked `ACTION_POINTER_DOWN` snapshots the base
   * values, anything else rescales from them.
   */
  function Scale(s: ZoomState, m: Numerics, ev: MotionEvent): (r: ZoomState)
    requires m.Lawful()
    ensures r.zoomEnabled == s.zoomEnabled && r.paintFlags == s.paintFlags
    ensures s.Valid() ==> r.Valid()
  {
    var distance := GetDistance(m, ev);
    if MaskedAction(ev.action) == ACTION_POINTER_DOWN then
      s.(baseDistance := distance, baseRatio := s.ratio)
    else
      var ratio := Rescale(s.baseRatio, m.pow2(Exponent(distance, s.baseDistance)));
      s.(ratio := ratio, textSize := ratio + BASE_TEXT_SIZE)
  }

  /** True when `onTouchEvent` enters its scaling branch for `e`. */
  predicate Scales(s: ZoomState, e: Option<MotionEvent>) {
    s.zoomEnabled && e.Some? && e.value.pointerCount == 2
  }

  /** One call of `onTouchEvent(e)` on state `s`. */
  function Step(s: ZoomState, m: Numerics, e: Option<MotionEvent>): (r: ZoomState)
    requires m.Lawful()
    ensures r.zoomEnabled == s.zoomEnabled
    ensures r.paintFlags == Hints(s.paintFlags, e)
    ensures s.Valid() ==> r.Valid()
  {
    var hinted := s.(paintFlags := Hints(s.paintFlags, e));
    if Scales(s, e) then Scale(hinted, m, e.value) else hinted
  }

  /** Successive calls of `onTouchEvent`, one per event of `es`. */
  function Run(s: ZoomState, m: Numerics, es: seq<Option<MotionEvent>>): (r: ZoomState)
    requires m.Lawful()
    ensures r.zoomEnabled == s.zoomEnabled
    ensures s.Valid() ==> r.Valid()
    decreases |es|
  {
    if es == [] then s else Run(Step(s, m, es[0]), m, es[1..])
  }

  /** The widget itself, holding its state in mutable fields. */
  class PinchZoomTextView {
    /** `Math.sqrt` and `Math.pow` as the view sees them. */
    const math: Numerics

    var ratio: real
    var baseDistance: int
    var baseRatio: real
    var zoomEnabled: bool
    /** Host properties of the underlying text view. */
    var paintFlags: bv32
    var textSize: real

    /** The fields as a value. */
    function State(): ZoomState
      reads this
    {
      ZoomState(ratio, baseDistance, baseRatio, zoomEnabled, paintFlags, textSize)
    }

    ghost predicate Valid()
      reads this
    {
      math.Lawful() && State().Valid()
    }

    /** The view as constructed on a host whose paint flags and text size are given. */
    constructor (math: Numerics, paintFlags: bv32, textSize: real)
      requires math.Lawful()
      ensures Valid()
      ensures this.math == math
      ensures State() == Initial(paintFlags, textSize)
    {
      this.math := math;
      ratio := 1.0;
      baseDistance := 0;
      baseRatio := 0.0;
      zoomEnabled := true;
      this.paintFlags := paintFlags;
      this.textSize := textSize;
    }

    /** The setter of the public property `zoomEnabled`. */
    method SetZoomEnabled(enabled: bool)
      requires Valid()
      modifies this`zoomEnabled
      ensures Valid()
      ensures State() == old(State()).(zoomEnabled := enabled)
    {
      zoomEnabled := enabled;
    }

    /**
     * `onTouchEvent`: updates the render hints, then, with zoom enabled and
     * two pointers down, snapshots or rescales; always reports the event as
     * handled.
     */
    method OnTouchEvent(event: Option<MotionEvent>) returns (handled: bool)
      requires Valid()
      modifies this
      ensures Valid()
      ensures handled
      ensures State() == Step(old(State()), math, event)
    {
      UpdateRenderHints(event);
      if zoomEnabled && event.Some? && event.value.pointerCount == 2 {
        ScaleText(event.value);
      }
      return true;
    }

    /** The `when (event?.action)` block of `onTouchEvent`. */
    method UpdateRenderHints(event: Option<MotionEvent>)
      modifies this`paintFlags
      ensures paintFlags == Hints(old(paintFlags), event)
    {
      if event.Some? {
        var action := event.value.action;
        if action == ACTION_DOWN {
          paintFlags := paintFlags | (LINEAR_TEXT_FLAG | SUBPIXEL_TEXT_FLAG);
        } else if action == ACTION_UP || action == ACTION_CANCEL {
          paintFlags := paintFlags & !(LINEAR_TEXT_FLAG | SUBPIXEL_TEXT_FLAG);
        }
      }
    }

    /** The two-pointer branch of `onTouchEvent`, for event `ev`. */
    method ScaleText(ev: MotionEvent)
      requires Valid()
      modifies this
      ensures Valid()
      ensures State() == Scale(old(State()), math, ev)
    {
      var action := ev.action;
      var distance := GetDistance(math, ev);
      var pureAction := MaskedAction(action);

      if pureAction == ACTION_POINTER_DOWN {
        baseDistance := distance;
        baseRatio := ratio;
      } else {
        var delta := IntSub(distance, baseDistance) as real / STEP;
        var multi := math.pow2(delta);
        ratio := Min(MAX_RATIO, Max(MIN_RATIO, baseRatio * multi));
        textSize := ratio + BASE_TEXT_SIZE;
      }
    }
  }
}
