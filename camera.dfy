/**
 * CameraService (canvas-img/index.js): the camera as an object whose methods
 * update its fields in place. Each method is proved to leave the fields equal
 * to the corresponding function of module Viewport applied to the old fields,
 * so everything proved there holds of the object.
 */
module Camera {
  import opened Wrappers
  import opened Viewport

  class CameraService {
    var x: real
    var y: real
    var scale: real
    var scaleInv: real

    var vpWidth: real
    var vpHeight: real
    var limitBounds: Option<Rect>

    var minX: real
    var maxX: real
    var minY: real
    var maxY: real

    var minS: real
    var maxS: real

    /** The fields as one value. */
    function Snapshot(): Cam
      reads this
    {
      Cam(x, y, scale, scaleInv, vpWidth, vpHeight, limitBounds,
          Range(minX, maxX, minY, maxY), minS, maxS)
    }

    ghost predicate Valid()
      reads this
    {
      Snapshot().Valid()
    }

    /** A camera at the origin, scale 1, no viewport and no bounds. The
        application then narrows the scale range (`_minS = 1`); the range is
        a parameter here, `DefaultMinScale..DefaultMaxScale` otherwise. */
    constructor (minScale: real, maxScale: real)
      requires 0.0 < minScale <= 1.0 <= maxScale
      ensures Valid()
      ensures Snapshot() == Initial(minScale, maxScale)
    {
      x, y := 0.0, 0.0;
      scale, scaleInv := 1.0, 1.0;
      vpWidth, vpHeight := 0.0, 0.0;
      limitBounds := None;
      minX, maxX := MinSafeInteger, MaxSafeInteger;
      minY, maxY := MinSafeInteger, MaxSafeInteger;
      minS, maxS := minScale, maxScale;
    }

    /** `setVpSize(w, h)`. */
    method SetVpSize(w: real, h: real)
      requires Valid()
      modifies this
      ensures Valid()
      ensures Snapshot() == Resized(old(Snapshot()), w, h)
    {
      if vpWidth != w || vpHeight != h {
        vpWidth := w;
        vpHeight := h;
        var _ := UpdatePositionScale(x, y, scale);
      }
    }

    /** `setBoundsLimit(bounds)`: the four fields are compared, `undefined`
        matching `undefined`. */
    method SetBoundsLimit(bounds: Option<Rect>)
      requires Valid()
      modifies this
      ensures Valid()
      ensures Snapshot() == Bounded(old(Snapshot()), bounds)
    {
      var changed := limitBounds != bounds;
      if changed {
        limitBounds := bounds;
        var _ := UpdatePositionScale(x, y, scale);
      }
    }

    /** `moveBy(dx, dy)`. */
    method MoveBy(dx: real, dy: real)
      requires Valid()
      modifies this
      ensures Valid()
      ensures Snapshot() == Moved(old(Snapshot()), dx, dy)
    {
      var _ := UpdatePositionScale(x + dx, y + dy, scale);
    }

    /** `scaleBy(ds, atX, atY)`: the desired, clamped and applied ratios are
        computed by `ZoomTarget`. */
    method ScaleBy(ds: real, atX: real, atY: real)
      requires Valid()
      modifies this
      ensures Valid()
      ensures Snapshot() == Scaled(old(Snapshot()), ds, atX, atY)
    {
      var target := ZoomTarget(Snapshot(), ds, atX, atY);
      if target.scale != scale {
        var _ := UpdatePositionScale(target.x, target.y, target.scale);
      }
    }

    /** `updatePositionScale(x0, y0, scale0)`: the range fields are always
        rewritten; position, scale and inverse only when one of them changes. */
    method UpdatePositionScale(x0: real, y0: real, scale0: real) returns (changed: bool)
      requires Snapshot().Consistent()
      modifies this
      ensures Valid()
      ensures Snapshot() == Update(old(Snapshot()), x0, y0, scale0).next
      ensures changed == Update(old(Snapshot()), x0, y0, scale0).changed
    {
      ghost var u := Update(Snapshot(), x0, y0, scale0);
      var newScale := Clamp(minS, scale0, maxS);
      // The translation range for the new scale: unbounded without a bounds
      // rectangle, otherwise the range that keeps the viewport covered.
      var range := TranslationRange(limitBounds, vpWidth, vpHeight, newScale);
      minX, maxX := range.minX, range.maxX;
      minY, maxY := range.minY, range.maxY;

      var newX := Clamp(minX, x0, maxX);
      var newY := Clamp(minY, y0, maxY);

      var posChanged := newX != x || newY != y;
      var scaleChanged := newScale != scale;
      if posChanged || scaleChanged {
        assert u.changed && newX == u.next.x && newY == u.next.y && newScale == u.next.scale;
        x := newX;
        y := newY;
        scale := newScale;
        scaleInv := 1.0 / newScale;
        return true;
      }
      assert !u.changed;
      return false;
    }
  }
}
