/**
 * The wheel handler of canvas-img (`handleWheelEvent` and its helper
 * `getWheelDelta`): a wheel turn pans the camera, or zooms it about the
 * cursor while Ctrl or Meta is held. Events are values; the surface origin
 * and `Math.exp` are parameters.
 */
module Wheel {
  import opened Wrappers
  import opened Viewport
  import opened Camera

  /** A JavaScript number as the handler meets it: `NaN`, or a finite value. */
  datatype JsNumber = NaN | Num(value: real)

  /** The fields of a wheel event the handler reads. `deltaX` is `None` when
      the event has no such property (`'deltaX' in e` is false), in which
      case `deltaY` is not read; the legacy fields are `None` when `null` or
      `undefined`. Client coordinates are those of the cursor. */
  datatype WheelEvent = WheelEvent(
    deltaX: Option<JsNumber>, deltaY: JsNumber,
    wheelDeltaX: Option<JsNumber>, wheelDeltaY: Option<JsNumber>, wheelDelta: Option<JsNumber>,
    ctrlKey: bool, metaKey: bool, clientX: real, clientY: real)

  /** `{X, Y}`, the scroll amount in the standard sign and unit. */
  datatype WheelDelta = WheelDelta(x: real, y: real)

  /** A legacy wheel value in standard terms: `-v / 3`, `NaN` staying `NaN`. */
  function FromLegacy(n: JsNumber): JsNumber {
    match n
    case NaN => NaN
    case Num(v) => Num(-v / 3.0)
  }

  /** `Number.isNaN(t) ? 0 : t`. */
  function OrZero(n: JsNumber): real {
    if n.NaN? then 0.0 else n.value
  }

  /** `r` is what the handler makes of `n`: the number itself, or 0 for `NaN`. */
  predicate ReadsAs(n: JsNumber, r: real) {
    if n.NaN? then r == 0.0 else r == n.value
  }

  /** `getWheelDelta(e)`. */
  function GetWheelDelta(e: WheelEvent): (d: WheelDelta)
    // the standard fields win whenever the event has them
    ensures e.deltaX.Some? ==> ReadsAs(e.deltaX.value, d.x) && ReadsAs(e.deltaY, d.y)
    // otherwise both legacy axes, scaled by -3 back to the legacy values
    ensures e.deltaX.None? && e.wheelDeltaX.Some? && e.wheelDeltaY.Some? ==>
      ReadsAs(e.wheelDeltaX.value, -3.0 * d.x) && ReadsAs(e.wheelDeltaY.value, -3.0 * d.y)
    // otherwise no horizontal scroll, and the single legacy value, if any, is vertical
    ensures e.deltaX.None? && (e.wheelDeltaX.None? || e.wheelDeltaY.None?) ==>
      d.x == 0.0 && if e.wheelDelta.Some? then ReadsAs(e.wheelDelta.value, -3.0 * d.y) else d.y == 0.0
  {
    var (t, i) :=
      if e.deltaX.Some? then (e.deltaX.value, e.deltaY)
      else if e.wheelDeltaX.Some? && e.wheelDeltaY.Some? then
        (FromLegacy(e.wheelDeltaX.value), FromLegacy(e.wheelDeltaY.value))
      else
        (Num(0.0), if e.wheelDelta.Some? then FromLegacy(e.wheelDelta.value) else Num(0.0));
    WheelDelta(OrZero(t), OrZero(i))
  }

  /** The zoom factor for a vertical scroll of `dy`: `Math.exp(-dy / 100)`. */
  function WheelZoomRatio(dy: real, exp: real -> real): real {
    exp(-dy / 100.0)
  }

  /** The camera call a wheel event makes. */
  function WheelCall(e: WheelEvent, originX: real, originY: real, exp: real -> real): (call: CameraCall)
    // Ctrl or Meta held: zoom about the cursor, in surface coordinates, by the vertical scroll only
    ensures call.Zoom? <==> e.ctrlKey || e.metaKey
    ensures call.Zoom? ==>
      call == Zoom(WheelZoomRatio(GetWheelDelta(e).y, exp), e.clientX - originX, e.clientY - originY)
    // otherwise pan against the scroll
    ensures call.Pan? ==> call.dx == -GetWheelDelta(e).x && call.dy == -GetWheelDelta(e).y
  {
    var delta := GetWheelDelta(e);
    if e.ctrlKey || e.metaKey then
      Zoom(WheelZoomRatio(delta.y, exp), e.clientX - originX, e.clientY - originY)
    else
      Pan(-delta.x, -delta.y)
  }

  /** The wheel listener (the default scroll is cancelled, which is not modelled). */
  method OnWheel(cam: CameraService, e: WheelEvent, originX: real, originY: real, exp: real -> real)
    requires cam.Valid()
    modifies cam
    ensures cam.Valid()
    ensures cam.Snapshot() == Apply(old(cam.Snapshot()), WheelCall(e, originX, originY, exp))
  {
    var delta := GetWheelDelta(e);
    if e.ctrlKey || e.metaKey {
      var ds := WheelZoomRatio(delta.y, exp);
      var x := e.clientX;
      var y := e.clientY;
      x := x - originX;
      y := y - originY;
      cam.ScaleBy(ds, x, y);
    } else {
      cam.MoveBy(-delta.x, -delta.y);
    }
  }

  /** An event in the legacy format (wheel values -3 times the standard ones)
      reads exactly as the same turn in the standard format; so does a
      vertical-only legacy event carrying just `wheelDelta`. */
  lemma LegacyMatchesStandard(dx: real, dy: real, ctrl: bool, meta: bool, cx: real, cy: real)
    ensures var standard := WheelEvent(Some(Num(dx)), Num(dy), None, None, None, ctrl, meta, cx, cy);
      var legacy := WheelEvent(None, NaN, Some(Num(-3.0 * dx)), Some(Num(-3.0 * dy)), None, ctrl, meta, cx, cy);
      GetWheelDelta(legacy) == GetWheelDelta(standard) == WheelDelta(dx, dy)
    ensures var vertical := WheelEvent(None, NaN, None, None, Some(Num(-3.0 * dy)), ctrl, meta, cx, cy);
      GetWheelDelta(vertical) == WheelDelta(0.0, dy)
  {
  }

  /** A `NaN` axis reads as no scroll on that axis, whatever the format. */
  lemma NaNReadsAsZero(e: WheelEvent)
    ensures e.deltaX == Some(NaN) ==> GetWheelDelta(e).x == 0.0
    ensures e.deltaX.Some? && e.deltaY == NaN ==> GetWheelDelta(e).y == 0.0
    ensures e.deltaX.None? && e.wheelDeltaX == Some(NaN) && e.wheelDeltaY.Some? ==> GetWheelDelta(e).x == 0.0
    ensures e.deltaX.None? && e.wheelDeltaX.Some? && e.wheelDeltaY == Some(NaN) ==> GetWheelDelta(e).y == 0.0
    ensures e.deltaX.None? && (e.wheelDeltaX.None? || e.wheelDeltaY.None?) && e.wheelDelta == Some(NaN) ==>
      GetWheelDelta(e).y == 0.0
  {
  }

  /** Scrolling down by 100 without a modifier pans the camera up by 100. */
  lemma ScrollDownExample(originX: real, originY: real, exp: real -> real)
    ensures WheelCall(WheelEvent(Some(Num(0.0)), Num(100.0), None, None, None, false, false, 40.0, 30.0),
                      originX, originY, exp)
         == Pan(0.0, -100.0)
  {
  }

  /** Ctrl and a scroll down by 100 zooms out by exp(-1) about the cursor. */
  lemma CtrlScrollExample(originX: real, originY: real, exp: real -> real)
    ensures WheelCall(WheelEvent(Some(Num(0.0)), Num(100.0), None, None, None, true, false, 40.0, 30.0),
                      originX, originY, exp)
         == Zoom(exp(-1.0), 40.0 - originX, 30.0 - originY)
  {
  }

  /** A Ctrl-wheel zoom keeps the content under the cursor under the cursor,
      on each axis where the anchored translation needs no clamping. */
  lemma WheelZoomKeepsCursorContent(c: Cam, e: WheelEvent, originX: real, originY: real,
                                    exp: real -> real)
    requires c.Valid() && (e.ctrlKey || e.metaKey)
    ensures var r := Apply(c, WheelCall(e, originX, originY, exp)); var ax := e.clientX - originX;
      r.range.minX <= Anchored(ax, c.x, r.scale / c.scale) <= r.range.maxX ==> ContentX(r, ax) == ContentX(c, ax)
    ensures var r := Apply(c, WheelCall(e, originX, originY, exp)); var ay := e.clientY - originY;
      r.range.minY <= Anchored(ay, c.y, r.scale / c.scale) <= r.range.maxY ==> ContentY(r, ay) == ContentY(c, ay)
  {
    var call := WheelCall(e, originX, originY, exp);
    ScaledKeepsAnchorX(c, call.ds, call.atX, call.atY);
    ScaledKeepsAnchorY(c, call.ds, call.atX, call.atY);
  }
}
