/**
 * The camera of canvas-img as a value: position, scale and its cached
 * inverse, the viewport size, the optional bounds rectangle, the derived
 * translation range and the scale range. The functions here are the
 * specification that the imperative CameraService (module Camera) is proved
 * to follow; the lemmas state what the camera promises its callers.
 */
module Viewport {
  import opened Wrappers

  /** Number.MIN_SAFE_INTEGER and Number.MAX_SAFE_INTEGER. */
  const MinSafeInteger: real := -9007199254740991.0
  const MaxSafeInteger: real := 9007199254740991.0

  /** The scale range a fresh CameraService starts with. */
  const DefaultMinScale: real := 0.25
  const DefaultMaxScale: real := 4.0

  /** A content-space rectangle, the camera's bounds limit. */
  datatype Rect = Rect(x: real, y: real, width: real, height: real)

  /** The legal translation range `_minX.._maxY`. */
  datatype Range = Range(minX: real, maxX: real, minY: real, maxY: real)

  /** Every field of a CameraService. */
  datatype Cam = Cam(
    x: real, y: real, scale: real, scaleInv: real,
    vpWidth: real, vpHeight: real, bounds: Option<Rect>,
    range: Range, minS: real, maxS: real)
  {
    /** What the update routine needs: a usable scale range and a correct cached inverse. */
    ghost predicate Consistent() {
      0.0 < minS <= maxS && scale != 0.0 && scaleInv == 1.0 / scale
    }

    /** The camera's invariant: scale in range, the range derived from the
        current bounds, viewport and scale, and the position clamped into it. */
    ghost predicate Valid() {
      && Consistent()
      && minS <= scale <= maxS
      && range == TranslationRange(bounds, vpWidth, vpHeight, scale)
      && x == Clamp(range.minX, x, range.maxX)
      && y == Clamp(range.minY, y, range.maxY)
    }

    /** Everything but position, scale and range: what the update routine never touches. */
    ghost predicate SameSettings(other: Cam) {
      vpWidth == other.vpWidth && vpHeight == other.vpHeight && bounds == other.bounds
      && minS == other.minS && maxS == other.maxS
    }
  }

  /** A fresh CameraService whose scale range is `minS..maxS`. */
  function Initial(minS: real, maxS: real): (c: Cam)
    requires 0.0 < minS <= 1.0 <= maxS
    ensures c.Valid()
    ensures c.x == 0.0 && c.y == 0.0 && c.scale == 1.0 && c.bounds == None
    ensures c.vpWidth == 0.0 && c.vpHeight == 0.0
    ensures c.minS == minS && c.maxS == maxS
  {
    Cam(0.0, 0.0, 1.0, 1.0, 0.0, 0.0, None,
        Range(MinSafeInteger, MaxSafeInteger, MinSafeInteger, MaxSafeInteger), minS, maxS)
  }

  /** `clamp(min, value, max) = Math.min(Math.max(value, min), max)`. */
  function Clamp(lo: real, v: real, hi: real): (r: real)
    ensures r <= hi
    ensures lo <= hi ==> lo <= r
    ensures lo <= v <= hi ==> r == v
    ensures v < lo <= hi ==> r == lo
    ensures hi < v ==> r == hi
    ensures hi < lo ==> r == hi
  {
    var m := if v < lo then lo else v;
    if hi < m then hi else m
  }

  /** The translation range the update routine derives for scale `s`. */
  function TranslationRange(bounds: Option<Rect>, vpWidth: real, vpHeight: real, s: real): (r: Range)
    ensures bounds.None? ==> r == Range(MinSafeInteger, MaxSafeInteger, MinSafeInteger, MaxSafeInteger)
    // with bounds, the right/bottom limit puts the bounds' origin at the screen's origin ...
    ensures bounds.Some? ==> r.maxX == -bounds.value.x * s && r.maxY == -bounds.value.y * s
    // ... and the range is non-empty exactly when the scaled bounds are at least as large as the viewport
    ensures bounds.Some? ==> (r.minX <= r.maxX <==> vpWidth <= bounds.value.width * s)
    ensures bounds.Some? ==> (r.minY <= r.maxY <==> vpHeight <= bounds.value.height * s)
  {
    match bounds
    case None => Range(MinSafeInteger, MaxSafeInteger, MinSafeInteger, MaxSafeInteger)
    case Some(b) =>
      var maxX := -b.x * s;
      var maxY := -b.y * s;
      Range(maxX - b.width * s + vpWidth, maxX, maxY - b.height * s + vpHeight, maxY)
  }

  /** The renderer draws content point `p` at screen `x + p * scale`
      (setTransform(scale, 0, 0, scale, x, y)); these are the inverse map. */
  function Content(screen: real, offset: real, inv: real): real { (screen - offset) * inv }
  function ContentX(c: Cam, screenX: real): real { Content(screenX, c.x, c.scaleInv) }
  function ContentY(c: Cam, screenY: real): real { Content(screenY, c.y, c.scaleInv) }

  /** A translation lies in the range exactly when the scaled bounds rectangle,
      drawn at that translation, covers the viewport from edge to edge. */
  lemma RangeMeansViewportCovered(b: Rect, vpWidth: real, vpHeight: real, s: real, x: real, y: real)
    ensures var r := TranslationRange(Some(b), vpWidth, vpHeight, s);
      && (r.minX <= x <= r.maxX <==> x + b.x * s <= 0.0 && vpWidth <= x + (b.x + b.width) * s)
      && (r.minY <= y <= r.maxY <==> y + b.y * s <= 0.0 && vpHeight <= y + (b.y + b.height) * s)
  {
  }

  /** Without bounds the range is the whole safe-integer line. */
  lemma UnboundedRange(vpWidth: real, vpHeight: real, s: real)
    ensures TranslationRange(None, vpWidth, vpHeight, s)
         == Range(MinSafeInteger, MaxSafeInteger, MinSafeInteger, MaxSafeInteger)
  {
  }

  /** A valid camera's position is in its range, or at `maxX`/`maxY` when the range is inverted. */
  lemma PositionInRange(c: Cam)
    requires c.Valid()
    ensures c.range.minX <= c.range.maxX ==> c.range.minX <= c.x <= c.range.maxX
    ensures c.range.maxX < c.range.minX ==> c.x == c.range.maxX
    ensures c.range.minY <= c.range.maxY ==> c.range.minY <= c.y <= c.range.maxY
    ensures c.range.maxY < c.range.minY ==> c.y == c.range.maxY
  {
  }

  /** The scale a valid camera holds is positive and its cached inverse multiplies it to 1. */
  lemma ScaleInverse(c: Cam)
    requires c.Valid()
    ensures c.scale > 0.0 && c.scale * c.scaleInv == 1.0
  {
  }

  /** Mapping a content point to the screen and back gives the point again. */
  lemma ContentOfScreen(c: Cam, px: real, py: real)
    requires c.Valid()
    ensures ContentX(c, c.x + px * c.scale) == px
    ensures ContentY(c, c.y + py * c.scale) == py
  {
    calc {
      ContentX(c, c.x + px * c.scale);
      (px * c.scale) * (1.0 / c.scale);
      { assert c.scale * (1.0 / c.scale) == 1.0; }
      px;
    }
    calc {
      ContentY(c, c.y + py * c.scale);
      (py * c.scale) * (1.0 / c.scale);
      { assert c.scale * (1.0 / c.scale) == 1.0; }
      py;
    }
  }

  /** What `updatePositionScale(x0, y0, scale0)` leaves behind, and whether it committed. */
  datatype Outcome = Outcome(next: Cam, changed: bool)

  /** `updatePositionScale`: clamp the scale, rederive the range, clamp the
      position, and commit position, scale and inverse only if one of them changed. */
  function Update(c: Cam, x0: real, y0: real, s0: real): (r: Outcome)
    requires c.Consistent()
    ensures r.next.Valid() && r.next.SameSettings(c)
    ensures r.next.scale == Clamp(c.minS, s0, c.maxS)
    ensures r.next.x == Clamp(r.next.range.minX, x0, r.next.range.maxX)
    ensures r.next.y == Clamp(r.next.range.minY, y0, r.next.range.maxY)
    ensures r.changed <==> r.next.x != c.x || r.next.y != c.y || r.next.scale != c.scale
    ensures !r.changed ==> r.next == c.(range := r.next.range)
  {
    var s := Clamp(c.minS, s0, c.maxS);
    var rg := TranslationRange(c.bounds, c.vpWidth, c.vpHeight, s);
    var nx := Clamp(rg.minX, x0, rg.maxX);
    var ny := Clamp(rg.minY, y0, rg.maxY);
    if nx != c.x || ny != c.y || s != c.scale then
      Outcome(c.(x := nx, y := ny, scale := s, scaleInv := 1.0 / s, range := rg), true)
    else
      Outcome(c.(range := rg), false)
  }

  /** On a valid camera an update that reports no change leaves every field as it was. */
  lemma UnchangedMeansUntouched(c: Cam, x0: real, y0: real, s0: real)
    requires c.Valid()
    ensures !Update(c, x0, y0, s0).changed ==> Update(c, x0, y0, s0).next == c
  {
  }

  /** Repeating an update with the same arguments reports no change and leaves the state alone. */
  lemma UpdateIdempotent(c: Cam, x0: real, y0: real, s0: real)
    requires c.Consistent()
    ensures var r := Update(c, x0, y0, s0);
      !Update(r.next, x0, y0, s0).changed && Update(r.next, x0, y0, s0).next == r.next
  {
  }

  /** Re-submitting the current position and scale of a valid camera changes nothing. */
  lemma UpdateAtCurrentIsNoop(c: Cam)
    requires c.Valid()
    ensures Update(c, c.x, c.y, c.scale) == Outcome(c, false)
  {
  }

  /** `moveBy(dx, dy)`: pan at the current scale. */
  function Moved(c: Cam, dx: real, dy: real): (r: Cam)
    requires c.Valid()
    ensures r.Valid() && r.SameSettings(c)
    ensures r.scale == c.scale && r.scaleInv == c.scaleInv && r.range == c.range
    ensures r.x == Clamp(c.range.minX, c.x + dx, c.range.maxX)
    ensures r.y == Clamp(c.range.minY, c.y + dy, c.range.maxY)
  {
    Update(c, c.x + dx, c.y + dy, c.scale).next
  }

  /** `scaleBy(ds, atX, atY)`: zoom by `ds` toward the anchor, with the ratio
      recomputed from the clamped scale. */
  function Scaled(c: Cam, ds: real, atX: real, atY: real): (r: Cam)
    requires c.Valid()
    ensures r.Valid() && r.SameSettings(c)
    ensures r.scale == Clamp(c.minS, c.scale * ds, c.maxS)
    ensures r.scale == c.scale <==> r == c
  {
    var t := ZoomTarget(c, ds, atX, atY);
    if t.scale != c.scale then Update(c, t.x, t.y, t.scale).next else c
  }

  /** The position and scale `scaleBy` asks the update routine for. */
  datatype Target = Target(x: real, y: real, scale: real)

  /** `scaleBy`'s arithmetic: the scale multiplied by `ds` and clamped, and the
      translation anchored at the screen point by the ratio actually applied. */
  function ZoomTarget(c: Cam, ds: real, atX: real, atY: real): (t: Target)
    requires c.Valid()
    ensures t.scale == Clamp(c.minS, c.scale * ds, c.maxS)
  {
    var desiredScale := c.scale * ds;
    var clampedScale := Clamp(c.minS, desiredScale, c.maxS);
    var realDs := clampedScale / c.scale;
    Target(Anchored(atX, c.x, realDs), Anchored(atY, c.y, realDs), clampedScale)
  }

  /** The position `scaleBy` asks for keeps the content under the anchor at
      the new scale, on both axes. */
  lemma ZoomTargetKeepsAnchor(c: Cam, ds: real, atX: real, atY: real)
    requires c.Valid()
    ensures var t := ZoomTarget(c, ds, atX, atY);
      Content(atX, t.x, 1.0 / t.scale) == ContentX(c, atX) && Content(atY, t.y, 1.0 / t.scale) == ContentY(c, atY)
  {
    var t := ZoomTarget(c, ds, atX, atY);
    ScaleInverse(c);
    AnchorKept(c.x, c.scale, c.scaleInv, t.x, t.scale, 1.0 / t.scale, t.x, t.x, atX);
    AnchorKept(c.y, c.scale, c.scaleInv, t.y, t.scale, 1.0 / t.scale, t.y, t.y, atY);
  }

  /** The translation `scaleBy` asks for so that screen point `at` stays over
      the same content point when the scale is multiplied by `ratio`. */
  function Anchored(at: real, p: real, ratio: real): real
  {
    at - (at - p) * ratio
  }

  /** When `scaleBy` changes the scale, the new translation is the anchored one, clamped into the new range. */
  lemma ScaledPosition(c: Cam, ds: real, atX: real, atY: real)
    requires c.Valid()
    ensures var r := Scaled(c, ds, atX, atY);
      r != c ==> r.x == Clamp(r.range.minX, Anchored(atX, c.x, r.scale / c.scale), r.range.maxX)
    ensures var r := Scaled(c, ds, atX, atY);
      r != c ==> r.y == Clamp(r.range.minY, Anchored(atY, c.y, r.scale / c.scale), r.range.maxY)
  {
  }

  /** A zoom that takes effect keeps the anchor over the same content point
      horizontally, unless the range pulls the requested translation back. */
  lemma ScaledKeepsAnchorX(c: Cam, ds: real, atX: real, atY: real)
    requires c.Valid()
    ensures var r := Scaled(c, ds, atX, atY);
      r != c && r.range.minX <= Anchored(atX, c.x, r.scale / c.scale) <= r.range.maxX ==>
        ContentX(r, atX) == ContentX(c, atX)
  {
    var r := Scaled(c, ds, atX, atY);
    if r != c && r.range.minX <= Anchored(atX, c.x, r.scale / c.scale) <= r.range.maxX {
      ScaledPosition(c, ds, atX, atY);
      AnchorKept(c.x, c.scale, c.scaleInv, r.x, r.scale, r.scaleInv, r.range.minX, r.range.maxX, atX);
      assert Content(atX, r.x, r.scaleInv) == Content(atX, c.x, c.scaleInv);
    }
  }

  /** The same, vertically. */
  lemma ScaledKeepsAnchorY(c: Cam, ds: real, atX: real, atY: real)
    requires c.Valid()
    ensures var r := Scaled(c, ds, atX, atY);
      r != c && r.range.minY <= Anchored(atY, c.y, r.scale / c.scale) <= r.range.maxY ==>
        ContentY(r, atY) == ContentY(c, atY)
  {
    var r := Scaled(c, ds, atX, atY);
    if r != c && r.range.minY <= Anchored(atY, c.y, r.scale / c.scale) <= r.range.maxY {
      ScaledPosition(c, ds, atX, atY);
      AnchorKept(c.y, c.scale, c.scaleInv, r.y, r.scale, r.scaleInv, r.range.minY, r.range.maxY, atY);
      assert Content(atY, r.y, r.scaleInv) == Content(atY, c.y, c.scaleInv);
    }
  }

  /** Without bounds nothing pulls the translation back inside the safe-integer
      range, so an effective zoom keeps the anchor on both axes. */
  lemma UnboundedZoomKeepsAnchor(c: Cam, ds: real, atX: real, atY: real)
    requires c.Valid() && c.bounds == None
    ensures var r := Scaled(c, ds, atX, atY);
      r != c
      && MinSafeInteger <= Anchored(atX, c.x, r.scale / c.scale) <= MaxSafeInteger
      && MinSafeInteger <= Anchored(atY, c.y, r.scale / c.scale) <= MaxSafeInteger
      ==> ContentX(r, atX) == ContentX(c, atX) && ContentY(r, atY) == ContentY(c, atY)
  {
    ScaledKeepsAnchorX(c, ds, atX, atY);
    ScaledKeepsAnchorY(c, ds, atX, atY);
  }

  /** One axis of anchor-preserving zoom: from translation `p` at scale `s`
      to translation `q` at scale `t`, the anchor `at` keeps its content
      coordinate when the clamp did not move the requested translation. */
  lemma AnchorKept(p: real, s: real, sInv: real, q: real, t: real, tInv: real, lo: real, hi: real, at: real)
    requires s != 0.0 && sInv == 1.0 / s && t != 0.0 && tInv == 1.0 / t
    requires q == Clamp(lo, Anchored(at, p, t / s), hi)
    ensures lo <= Anchored(at, p, t / s) <= hi ==> Content(at, q, tInv) == Content(at, p, sInv)
  {
    if lo <= Anchored(at, p, t / s) <= hi {
      calc {
        Content(at, q, tInv);
        (at - Anchored(at, p, t / s)) * tInv;
        (at - p) * (t / s) * (1.0 / t);
        { assert (t / s) * (1.0 / t) == 1.0 / s; }
        (at - p) * (1.0 / s);
        Content(at, p, sInv);
      }
    }
  }

  /** `setVpSize(w, h)`: store a new viewport size and re-clamp; no-op if unchanged. */
  function Resized(c: Cam, w: real, h: real): (r: Cam)
    requires c.Valid()
    ensures r.Valid()
    ensures r.vpWidth == w && r.vpHeight == h
    ensures r.bounds == c.bounds && r.minS == c.minS && r.maxS == c.maxS
    ensures r.scale == c.scale && r.scaleInv == c.scaleInv
    ensures r.x == Clamp(r.range.minX, c.x, r.range.maxX)
    ensures r.y == Clamp(r.range.minY, c.y, r.range.maxY)
    ensures c.vpWidth == w && c.vpHeight == h ==> r == c
  {
    if c.vpWidth != w || c.vpHeight != h then
      Update(c.(vpWidth := w, vpHeight := h), c.x, c.y, c.scale).next
    else
      c
  }

  /** `setBoundsLimit(bounds)`: store new bounds and re-clamp; no-op if all four fields match. */
  function Bounded(c: Cam, b: Option<Rect>): (r: Cam)
    requires c.Valid()
    ensures r.Valid()
    ensures r.bounds == b
    ensures r.vpWidth == c.vpWidth && r.vpHeight == c.vpHeight && r.minS == c.minS && r.maxS == c.maxS
    ensures r.scale == c.scale && r.scaleInv == c.scaleInv
    ensures r.x == Clamp(r.range.minX, c.x, r.range.maxX)
    ensures r.y == Clamp(r.range.minY, c.y, r.range.maxY)
    ensures c.bounds == b ==> r == c
  {
    if c.bounds != b then
      Update(c.(bounds := b), c.x, c.y, c.scale).next
    else
      c
  }

  /** A call the input interpreters make on the camera. */
  datatype CameraCall = Pan(dx: real, dy: real) | Zoom(ds: real, atX: real, atY: real)

  /** The effect of one call. */
  function Apply(c: Cam, call: CameraCall): (r: Cam)
    requires c.Valid()
    ensures r.Valid() && r.SameSettings(c)
  {
    match call
    case Pan(dx, dy) => Moved(c, dx, dy)
    case Zoom(ds, atX, atY) => Scaled(c, ds, atX, atY)
  }

  /** The effect of a sequence of calls made in order. */
  function ApplyAll(c: Cam, calls: seq<CameraCall>): (r: Cam)
    requires c.Valid()
    ensures r.Valid() && r.SameSettings(c)
    decreases |calls|
  {
    if calls == [] then c else ApplyAll(Apply(c, calls[0]), calls[1..])
  }

  /** Making one call is applying a one-call sequence. */
  lemma ApplyAllOne(c: Cam, a: CameraCall)
    requires c.Valid()
    ensures ApplyAll(c, [a]) == Apply(c, a)
  {
    assert [a][1..] == [];
  }

  /** Making two calls in order is applying a two-call sequence. */
  lemma ApplyAllTwo(c: Cam, a: CameraCall, b: CameraCall)
    requires c.Valid()
    ensures ApplyAll(c, [a, b]) == Apply(Apply(c, a), b)
  {
    assert [a, b][1..] == [b];
    ApplyAllOne(Apply(c, a), b);
  }

  /** A pan by (0, 0) leaves a valid camera exactly as it was. */
  lemma PanByZeroIsNoop(c: Cam)
    requires c.Valid()
    ensures Moved(c, 0.0, 0.0) == c
  {
    UpdateAtCurrentIsNoop(c);
  }

  /** A pan that needs no clamping carries the content: what was under
      screen point `px` is afterwards under `px + dx`. */
  lemma PanCarriesContentX(c: Cam, dx: real, dy: real, px: real)
    requires c.Valid()
    ensures c.range.minX <= c.x + dx <= c.range.maxX ==>
      ContentX(Moved(c, dx, dy), px + dx) == ContentX(c, px)
  {
    assert (px + dx) - (c.x + dx) == px - c.x;
  }

  /** `PanCarriesContentX` for the vertical axis. */
  lemma PanCarriesContentY(c: Cam, dx: real, dy: real, py: real)
    requires c.Valid()
    ensures c.range.minY <= c.y + dy <= c.range.maxY ==>
      ContentY(Moved(c, dx, dy), py + dy) == ContentY(c, py)
  {
    assert (py + dy) - (c.y + dy) == py - c.y;
  }

  /** Viewport 800x400 with bounds {0, 0, 800, 400} at scale 1: the range
      collapses to a point and every pan is absorbed. */
  lemma FullBoundsAbsorbPan(c: Cam, dx: real, dy: real)
    requires c.Valid()
    requires c.vpWidth == 800.0 && c.vpHeight == 400.0 && c.scale == 1.0
    requires c.bounds == Some(Rect(0.0, 0.0, 800.0, 400.0))
    ensures c.range == Range(0.0, 0.0, 0.0, 0.0)
    ensures Moved(c, dx, dy).x == 0.0 && Moved(c, dx, dy).y == 0.0
  {
  }

  /** Scale range 1..4: `scaleBy(10, 0, 0)` from scale 1 lands on 4, not 10. */
  lemma ZoomStopsAtMaximum(c: Cam)
    requires c.Valid() && c.minS == 1.0 && c.maxS == 4.0 && c.scale == 1.0
    ensures Scaled(c, 10.0, 0.0, 0.0).scale == 4.0
  {
  }

  /** With the field initialisers' scale range 0.25..4, a fresh camera zooms
      in by at most 4 and out by at most 4. */
  lemma DefaultZoomLimits(atX: real, atY: real)
    ensures Scaled(Initial(DefaultMinScale, DefaultMaxScale), 10.0, atX, atY).scale == DefaultMaxScale
    ensures Scaled(Initial(DefaultMinScale, DefaultMaxScale), 0.1, atX, atY).scale == DefaultMinScale
  {
  }
}
