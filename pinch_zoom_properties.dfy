/**
 * What `onTouchEvent` promises, stated about its specification `Step` and
 * about runs of it.
 */
module PinchZoomProperties {
  import opened Wrappers
  import opened KotlinMath
  import opened Android
  import opened PinchZoom

  /** A two-pointer event that rescales rather than snapshots. */
  predicate IsPinchMove(e: Option<MotionEvent>) {
    e.Some? && e.value.pointerCount == 2 && MaskedAction(e.value.action) != ACTION_POINTER_DOWN
  }

  /** A two-pointer event whose masked action is `ACTION_POINTER_DOWN`. */
  predicate IsPinchStart(e: Option<MotionEvent>) {
    e.Some? && e.value.pointerCount == 2 && MaskedAction(e.value.action) == ACTION_POINTER_DOWN
  }

  /** The ratio a pinch move at `distance` produces from the base values of `s`. */
  function PinchRatio(s: ZoomState, m: Numerics, distance: int): real {
    Rescale(s.baseRatio, m.pow2((distance - s.baseDistance) as real / STEP))
  }

  /** From construction on, `ratio` never leaves `[0.1, 1024]`. */
  lemma RatioStaysClamped(m: Numerics, paintFlags: bv32, textSize: real, es: seq<Option<MotionEvent>>)
    requires m.Lawful()
    ensures InRatioRange(Run(Initial(paintFlags, textSize), m, es).ratio)
  {
  }

  /** Running `a + b` is running `a`, then `b`. */
  lemma {:induction false} RunAppend(s: ZoomState, m: Numerics, a: seq<Option<MotionEvent>>, b: seq<Option<MotionEvent>>)
    requires m.Lawful()
    ensures Run(s, m, a + b) == Run(Run(s, m, a), m, b)
    decreases |a|
  {
    if a != [] {
      assert a + b != [];
      assert (a + b)[0] == a[0];
      assert (a + b)[1..] == a[1..] + b;
      RunAppend(Step(s, m, a[0]), m, a[1..], b);
    } else {
      assert a + b == b;
    }
  }

  /**
   * With no event, with zoom disabled or with other than two pointers, the
   * handler touches only the render hints: ratio, base values and text size
   * stay as they were.
   */
  lemma IgnoredEvent(s: ZoomState, m: Numerics, e: Option<MotionEvent>)
    requires m.Lawful()
    requires e.None? || !s.zoomEnabled || e.value.pointerCount != 2
    ensures Step(s, m, e) == s.(paintFlags := Hints(s.paintFlags, e))
  {
  }

  /**
   * A two-pointer `ACTION_POINTER_DOWN`, for any pointer index, snapshots the
   * distance and the current ratio and changes nothing visible.
   */
  lemma PinchStartSnapshots(s: ZoomState, m: Numerics, e: Option<MotionEvent>)
    requires m.Lawful() && s.zoomEnabled && IsPinchStart(e)
    ensures Step(s, m, e) == s.(baseDistance := GetDistance(m, e.value), baseRatio := s.ratio)
  {
    assert e.value.action !in {ACTION_DOWN, ACTION_UP, ACTION_CANCEL};
  }

  /**
   * Any other two-pointer event rescales: the new ratio is the clamped
   * `baseRatio * 2^((distance - baseDistance) / 200)` and the text size is
   * `ratio + 13`, hence within `[13.1, 1037]`; the base values are kept.
   */
  lemma PinchMoveRescales(s: ZoomState, m: Numerics, e: Option<MotionEvent>)
    requires m.Lawful() && s.Valid() && s.zoomEnabled && IsPinchMove(e)
    ensures var r := Step(s, m, e);
      && r.ratio == PinchRatio(s, m, GetDistance(m, e.value))
      && r.textSize == r.ratio + BASE_TEXT_SIZE
      && 13.1 <= r.textSize <= 1037.0
      && r.baseDistance == s.baseDistance && r.baseRatio == s.baseRatio
      && r.paintFlags == Hints(s.paintFlags, e)
  {
    var d := GetDistance(m, e.value);
    assert IsInt(d - s.baseDistance);
  }

  /** Moving at the starting spread (a multiplier of `2^0`) gives `clamp(baseRatio)`. */
  lemma MoveAtBaseDistance(s: ZoomState, m: Numerics, e: Option<MotionEvent>)
    requires m.Lawful() && s.Valid() && s.zoomEnabled && IsPinchMove(e)
    requires GetDistance(m, e.value) == s.baseDistance
    ensures Step(s, m, e).ratio == Clamp(s.baseRatio)
  {
    PinchMoveRescales(s, m, e);
    assert (s.baseDistance - s.baseDistance) as real / STEP == 0.0;
  }

  /** Pinch moves keep the base values, so each move depends only on its own spread. */
  lemma {:induction false} MovesKeepBase(s: ZoomState, m: Numerics, moves: seq<Option<MotionEvent>>)
    requires m.Lawful() && s.Valid() && s.zoomEnabled
    requires forall i :: 0 <= i < |moves| ==> IsPinchMove(moves[i])
    ensures Run(s, m, moves).baseDistance == s.baseDistance
    ensures Run(s, m, moves).baseRatio == s.baseRatio
    decreases |moves|
  {
    if moves != [] {
      PinchMoveRescales(s, m, moves[0]);
      MovesKeepBase(Step(s, m, moves[0]), m, moves[1..]);
    }
  }

  /**
   * A whole pinch: fingers down, any number of moves, and a last move back at
   * the starting spread restores the ratio the gesture started from.
   */
  lemma PinchReturnRestoresRatio(s: ZoomState, m: Numerics, start: Option<MotionEvent>,
                                 moves: seq<Option<MotionEvent>>, last: Option<MotionEvent>)
    requires m.Lawful() && s.Valid() && s.zoomEnabled
    requires IsPinchStart(start)
    requires forall i :: 0 <= i < |moves| ==> IsPinchMove(moves[i])
    requires IsPinchMove(last) && GetDistance(m, last.value) == GetDistance(m, start.value)
    ensures Run(s, m, [start] + moves + [last]).ratio == s.ratio
    ensures Run(s, m, [start] + moves + [last]).textSize == s.ratio + BASE_TEXT_SIZE
  {
    var started := Step(s, m, start);
    PinchStartSnapshots(s, m, start);
    assert Run(s, m, [start]) == started by {
      assert Run(s, m, [start]) == Run(started, m, []);
    }
    MovesKeepBase(started, m, moves);
    var moved := Run(started, m, moves);
    RunAppend(s, m, [start], moves);
    RunAppend(s, m, [start] + moves, [last]);
    assert Run(moved, m, [last]) == Step(moved, m, last);
    MoveAtBaseDistance(moved, m, last);
  }

  /** Render hints are the same whether zoom is enabled or not. */
  lemma HintsIgnoreZoom(s: ZoomState, m: Numerics, e: Option<MotionEvent>, enabled: bool)
    requires m.Lawful()
    ensures Step(s.(zoomEnabled := enabled), m, e).paintFlags == Step(s, m, e).paintFlags
  {
  }

  /** Swapping the two pointers does not change the distance. */
  lemma DistanceSymmetric(m: Numerics, ev: MotionEvent)
    requires m.Lawful()
    ensures GetDistance(m, ev.(x0 := ev.x1, y0 := ev.y1, x1 := ev.x0, y1 := ev.y0)) == GetDistance(m, ev)
  {
    var sw := ev.(x0 := ev.x1, y0 := ev.y1, x1 := ev.x0, y1 := ev.y0);
    assert (sw.x0 - sw.x1) * (sw.x0 - sw.x1) == (ev.x0 - ev.x1) * (ev.x0 - ev.x1);
    assert (sw.y0 - sw.y1) * (sw.y0 - sw.y1) == (ev.y0 - ev.y1) * (ev.y0 - ev.y1);
    assert SquaredSpread(sw) == SquaredSpread(ev);
  }

  /** Given a monotone `2^x`, spreading the fingers further never gives a smaller ratio. */
  lemma PinchRatioMonotone(s: ZoomState, m: Numerics, d1: int, d2: int)
    requires m.Lawful() && m.Pow2Monotone() && s.Valid()
    requires d1 <= d2
    ensures PinchRatio(s, m, d1) <= PinchRatio(s, m, d2)
  {
    var x1 := (d1 - s.baseDistance) as real / STEP;
    var x2 := (d2 - s.baseDistance) as real / STEP;
    ExponentMonotone(d1 - s.baseDistance, d2 - s.baseDistance);
    RescaleMonotone(s.baseRatio, m.pow2(x1), m.pow2(x2));
  }

  lemma RescaleMonotone(c: real, p1: real, p2: real)
    requires c >= 0.0 && p1 <= p2
    ensures Rescale(c, p1) <= Rescale(c, p2)
  {
    var a, b := c * p1, c * p2;
    assert a <= b by {
      ScaleMonotone(c, p1, p2);
    }
    ClampMonotone(a, b);
  }

  /** Arithmetic helper of `PinchRatioMonotone`. */
  lemma ExponentMonotone(a: int, b: int)
    requires a <= b
    ensures a as real / STEP <= b as real / STEP
  {
  }

  /** Arithmetic helper of `RescaleMonotone`. */
  lemma ScaleMonotone(c: real, x: real, y: real)
    requires c >= 0.0 && x <= y
    ensures c * x <= c * y
  {
    assert c * y - c * x == c * (y - x);
  }

  lemma ClampMonotone(x: real, y: real)
    requires x <= y
    ensures Clamp(x) <= Clamp(y)
  {
  }

  /**
   * Before any `ACTION_POINTER_DOWN` the base ratio is 0, so a two-pointer
   * move reaching a freshly constructed view drops the ratio to its minimum.
   */
  lemma StaleBaseCollapses(m: Numerics, paintFlags: bv32, textSize: real, e: Option<MotionEvent>)
    requires m.Lawful() && IsPinchMove(e)
    ensures Step(Initial(paintFlags, textSize), m, e).ratio == MIN_RATIO
    ensures Step(Initial(paintFlags, textSize), m, e).textSize == MIN_RATIO + BASE_TEXT_SIZE
  {
  }

  /** Two pointers 100 px apart go down, then spread to 300 px: the ratio doubles to 2, text size 15. */
  lemma DoublingScenario(m: Numerics, paintFlags: bv32, textSize: real)
    requires m.Lawful() && m.sqrt(10000.0) == 100.0 && m.sqrt(90000.0) == 300.0 && m.pow2(1.0) == 2.0
    ensures var r := Run(Initial(paintFlags, textSize), m,
                         [Some(MotionEvent(ActionFor(ACTION_POINTER_DOWN, 1), 2, 0.0, 0.0, 100.0, 0.0)),
                          Some(MotionEvent(ACTION_MOVE, 2, 0.0, 0.0, 300.0, 0.0))]);
      r.baseDistance == 100 && r.baseRatio == 1.0 && r.ratio == 2.0 && r.textSize == 15.0
  {
    var s := Initial(paintFlags, textSize);
    var down := Some(MotionEvent(ActionFor(ACTION_POINTER_DOWN, 1), 2, 0.0, 0.0, 100.0, 0.0));
    var move := Some(MotionEvent(ACTION_MOVE, 2, 0.0, 0.0, 300.0, 0.0));
    assert GetDistance(m, down.value) == 100;
    assert GetDistance(m, move.value) == 300;
    var started := Step(s, m, down);
    PinchStartSnapshots(s, m, down);
    assert started.baseDistance == 100 && started.baseRatio == 1.0;
    var moved := Step(started, m, move);
    PinchMoveRescales(started, m, move);
    assert (300 - 100) as real / STEP == 1.0;
    assert moved.ratio == 2.0;
    assert [down, move][1..] == [move];
    assert Run(s, m, [down, move]) == Run(started, m, [move]);
    assert Run(started, m, [move]) == Run(moved, m, []);
  }

  /** From a 200 px base at ratio 1, closing the fingers completely halves the ratio: text size 13.5. */
  lemma ShrinkScenario(s: ZoomState, m: Numerics, e: Option<MotionEvent>)
    requires m.Lawful() && m.pow2(-1.0) == 0.5
    requires s.Valid() && s.zoomEnabled && s.baseDistance == 200 && s.baseRatio == 1.0
    requires IsPinchMove(e) && GetDistance(m, e.value) == 0
    ensures Step(s, m, e).ratio == 0.5 && Step(s, m, e).textSize == 13.5
  {
    PinchMoveRescales(s, m, e);
    assert (0 - 200) as real / STEP == -1.0;
  }

  /** A spread whose scaled ratio exceeds 1024 stops exactly at 1024: text size 1037. */
  lemma ExtremeZoomSaturates(s: ZoomState, m: Numerics, e: Option<MotionEvent>)
    requires m.Lawful() && s.Valid() && s.zoomEnabled && IsPinchMove(e)
    requires s.baseRatio * m.pow2((GetDistance(m, e.value) - s.baseDistance) as real / STEP) > MAX_RATIO
    ensures Step(s, m, e).ratio == MAX_RATIO && Step(s, m, e).textSize == 1037.0
  {
    PinchMoveRescales(s, m, e);
  }
}
