/** The arithmetic the gesture handlers of src/svg.panzoom.js do on raw
    events before they touch the engine: event normalisation, the wheel's
    delta units and the pinch's zoom amount, midpoint and focus. */
module Gestures {
  import opened Geometry
  import opened Wrappers

  /** A mouse or touch event as the handlers read it. `touches` is the
      TouchList of a touch event and None for a mouse event. */
  datatype PointerEvent = PointerEvent(
    isMouse: bool, button: int, which: int, client: Point, touches: Option<seq<Point>>)

  /** normalizeEvent: a touch event gives its touches (an empty TouchList is
      still a list); a mouse event is read as a single touch at its client
      position. */
  function NormalizeEvent(ev: PointerEvent): (r: seq<Point>)
    ensures ev.touches.None? ==> |r| == 1 && r[0] == ev.client
    ensures ev.touches.Some? ==> r == ev.touches.value
  {
    if ev.touches.Some? then ev.touches.value else [ev.client]
  }

  /** A wheel event: deltaY in the unit named by deltaMode. */
  datatype WheelEvent = WheelEvent(deltaY: real, deltaMode: int, ctrlKey: bool, client: Point)

  /** WheelEvent.deltaMode values of the W3C UI Events specification. */
  const DOM_DELTA_PIXEL: int := 0
  const DOM_DELTA_LINE: int := 1
  const DOM_DELTA_PAGE: int := 2

  /** The number of pixels the handler counts for one unit of deltaY. */
  function PixelsPerUnit(deltaMode: int, linePixels: real, screenPixels: real): real {
    if deltaMode == DOM_DELTA_LINE then linePixels
    else if deltaMode == DOM_DELTA_PAGE then screenPixels
    else 1.0
  }

  /** The deltaMode switch of handleWheelZoom: line and screen deltas are
      converted to pixels; pixel deltas and unknown modes are kept. */
  function NormalizedDeltaY(ev: WheelEvent, linePixels: real, screenPixels: real): (r: real)
    ensures r == ev.deltaY * PixelsPerUnit(ev.deltaMode, linePixels, screenPixels)
    ensures ev.deltaMode != DOM_DELTA_LINE && ev.deltaMode != DOM_DELTA_PAGE ==> r == ev.deltaY
  {
    match ev.deltaMode
    case 1 => ev.deltaY * linePixels
    case 2 => ev.deltaY * screenPixels
    case _ => ev.deltaY
  }

  /** With positive pixel counts per unit, normalising never turns a wheel
      movement around or cancels it. */
  lemma NormalizingKeepsDirection(ev: WheelEvent, linePixels: real, screenPixels: real)
    requires linePixels > 0.0 && screenPixels > 0.0
    ensures var r := NormalizedDeltaY(ev, linePixels, screenPixels);
            (r > 0.0 <==> ev.deltaY > 0.0) && (r < 0.0 <==> ev.deltaY < 0.0)
  {
    var k := PixelsPerUnit(ev.deltaMode, linePixels, screenPixels);
    assert k > 0.0;
    if ev.deltaY > 0.0 {
      assert ev.deltaY * k > 0.0;
    } else if ev.deltaY < 0.0 {
      assert ev.deltaY * k < 0.0;
    }
  }

  /** The zoomAmount of handlePinchZoom: the ratio of the previous finger
      distance to the current one (above 1 when the fingers close, which
      zooms out), forced to 1 when it would push a level already below
      zoomMin further down or one already above zoomMax further up. */
  function PinchZoomAmount(lastDistance: real, currentDistance: real, level: real,
                           zoomMin: real, zoomMax: real): (r: real)
    requires currentDistance != 0.0
    ensures level < zoomMin ==> r <= 1.0
    ensures level > zoomMax ==> r >= 1.0
    ensures zoomMin <= level <= zoomMax ==> r == lastDistance / currentDistance
    ensures r == 1.0 || r == lastDistance / currentDistance
  {
    var amount := lastDistance / currentDistance;
    if (level < zoomMin && amount > 1.0) || (level > zoomMax && amount < 1.0) then 1.0
    else amount
  }

  /** `a + 0.5 * (b - a)` on both axes. */
  function Midpoint(a: Point, b: Point): (r: Point)
    ensures r.x - a.x == b.x - r.x && r.y - a.y == b.y - r.y
  {
    Point(a.x + 0.5 * (b.x - a.x), a.y + 0.5 * (b.y - a.y))
  }

  /** `2 * current - last`: the point as far ahead of the current focus as
      the last focus is behind it. */
  function FocusAhead(current: Point, last: Point): (r: Point)
    ensures Midpoint(last, r) == current
  {
    Point(2.0 * current.x - last.x, 2.0 * current.y - last.y)
  }

  /** `new Matrix().translate(-f.x, -f.y).scale(z, 0, 0).translate(p.x, p.y)`:
      q is mapped to z * (q - f) + p. */
  function PinchTransform(z: real, f: Point, p: Point): (r: Matrix)
    ensures r.s == z
    ensures Apply(r, f) == p
  {
    var t := Translation(-f.x, -f.y);
    TranslateO(ScaleO(t, z, Point(0.0, 0.0)), p.x, p.y)
  }

  /** What handlePinchZoom computes before it dispatches its zoom event. */
  datatype PinchMath = PinchMath(amount: real, focus: Point, focusAhead: Point, transform: Matrix)

  /** Lines 763-811 of handlePinchZoom for two-finger lists: the zoom amount
      from the two finger distances (Math.sqrt of the squared distances,
      taken as inputs), the current and last midpoints mapped to user space
      by `toUser` (svg.point), and the transform built from them. */
  function PinchStep(last: seq<Point>, current: seq<Point>, lastDistance: real,
                     currentDistance: real, level: real, zoomMin: real, zoomMax: real,
                     toUser: Matrix): (r: PinchMath)
    requires |last| >= 2 && |current| >= 2 && currentDistance != 0.0
    ensures Apply(r.transform, r.focusAhead) == r.focus
    ensures r.transform.s == r.amount
    ensures zoomMin <= level <= zoomMax ==> r.amount == lastDistance / currentDistance
    ensures level < zoomMin ==> r.amount <= 1.0
    ensures level > zoomMax ==> r.amount >= 1.0
    ensures r.focus == Apply(toUser, Midpoint(current[0], current[1]))
  {
    var amount := PinchZoomAmount(lastDistance, currentDistance, level, zoomMin, zoomMax);
    var currentFocus := Midpoint(current[0], current[1]);
    var lastFocus := Midpoint(last[0], last[1]);
    var p := Apply(toUser, currentFocus);
    var focusP := Apply(toUser, FocusAhead(currentFocus, lastFocus));
    PinchMath(amount, p, focusP, PinchTransform(amount, focusP, p))
  }

  /** The pan handler's trigger filter: a mouse event passes when its button
      is the pan button or its `which` is the pan button plus one; touch
      events always pass. */
  predicate ButtonAccepted(ev: PointerEvent, panButton: int) {
    !ev.isMouse || ev.button == panButton || ev.which == panButton + 1
  }
}
