# canvas-img viewport controller in Dafny

A model of the camera and input-interpretation core of `canvas-img/index.js`:
a pannable, zoomable canvas whose camera keeps its position and scale
clamped to a content rectangle, driven by pointer drags, two-finger
pan-and-pinch gestures and the mouse wheel.

- `wrappers.dfy` (module `Wrappers`): `Option`, standing for a JavaScript
  value that may be `undefined` or `null`.
- `viewport.dfy` (module `Viewport`): the camera as a value `Cam` holding every
  field of `CameraService`. It gives its invariant `Valid` and one function
  per camera operation: `Update` for `updatePositionScale`, plus `Moved`,
  `Scaled`, `Resized` and `Bounded`. Lemmas state the camera's promises:
  - the position stays in the translation range;
  - the range means the bounds rectangle covers the viewport;
  - the cached inverse scale is correct;
  - no-op detection works;
  - zooming keeps the anchor point's content under the anchor;
  - a pan carries the content with it.
- `camera.dfy` (module `Camera`): `CameraService` as a class whose methods
  update its fields in place. Each method is proved to leave the fields equal
  to the matching `Viewport` function applied to the old fields, so the
  lemmas there carry over to the object.
- `gestures.dfy` (module `Gestures`): the pointer tracker of
  `handleTouchInputs`, as a class `GestureTracker`. It holds the ordered
  record list (`seq<Touch>`) and the pinch baseline, and has one method per
  handler plus the per-frame callback. The frame callback drives a
  `CameraService` and is proved to make exactly the calls described by the
  function `Sample`. Lemmas describe the frame behaviour:
  - one pointer drags;
  - the first two pointers pan by their midpoint and pinch-zoom;
  - a settled frame does nothing;
  - the content under a pinch stays under the fingers;
  - removal keeps the other records in order.
- `wheel.dfy` (module `Wheel`): `getWheelDelta` and the wheel listener. The
  listener's choice between pan and zoom is the function `WheelCall`, and
  `OnWheel` applies it to a `CameraService`.

Numbers are modelled as mathematical reals. Inputs that the original takes
from its environment are parameters:
- the surface origin from `getBoundingClientRect()` is `originX`, `originY`;
- `Math.sqrt` and `Math.exp` are the function-valued parameters `sqrt` and
  `exp`. No property of them is assumed: the clamped scale range alone keeps
  the scale positive.

Behaviour of the code worth knowing, which the model keeps as written:

- `clamp(min, v, max)` is `Math.min(Math.max(v, min), max)`. With an inverted
  range (`max < min`, content smaller than the viewport) it returns `max`.
  `Viewport.Clamp` and `Viewport.PositionInRange` state that the result is
  the upper argument.
- The pinch baseline is reset only on pointer-down (`index.js:307`);
  pointer-up and pointer-cancel keep it. Lifting one of the first two of three
  pointers therefore compares the new pair's distance with the old pair's
  baseline, and the next frame zooms although nothing moved.
  `Gestures.LiftKeepsStaleBaseline` exhibits this.
- Pointer-down does not check for an id that is already tracked; lookups
  find the first record with an id. `Gestures.IndexOf` models `findIndex`
  and `find` that way.

## Model

| member | source | states |
|---|---|---|
| Viewport.Clamp | canvas-img/index.js:1-3 | the result is never above `max`; with `min <= max` it lies in `[min, max]`, is `v` itself inside the range and the nearer end outside; with an inverted range it is `max` |
| Viewport.TranslationRange | canvas-img/index.js:61-80 | without bounds the range is the safe-integer line; with bounds its upper limits put the bounds' origin at the screen origin, and each axis's range is non-empty exactly when the scaled bounds are at least as large as the viewport |
| Viewport.Initial | canvas-img/index.js:5-20 | a fresh camera is at (0, 0), scale 1, with a zero-size viewport, without bounds, with the given scale range and the safe-integer range, and satisfies the camera invariant |
| Viewport.RangeMeansViewportCovered | canvas-img/index.js:61-74 | with bounds, a translation lies in the derived range exactly when the scaled bounds rectangle drawn at that translation covers the viewport on that axis |
| Viewport.UnboundedRange | canvas-img/index.js:75-80 | without bounds the translation range is `MIN_SAFE_INTEGER..MAX_SAFE_INTEGER` on both axes |
| Viewport.PositionInRange | canvas-img/index.js:82-83 | a valid camera's position lies in its range, or equals `maxX`/`maxY` when the range is inverted |
| Viewport.ScaleInverse | canvas-img/index.js:88-91 | a valid camera's scale is positive and `scale * scaleInv == 1` |
| Viewport.ContentOfScreen | canvas-img/index.js:164-165 | mapping a content point to the screen with the camera's transform and back through the inverse scale gives the point again |
| Viewport.Update | canvas-img/index.js:59-96 | the result satisfies the invariant: scale clamped into `[minS, maxS]`, range rederived for the new scale, position clamped into it. Viewport, bounds and scale range are untouched. `changed` holds exactly when position or scale differ. Without a change only the range fields are rewritten |
| Viewport.UnchangedMeansUntouched | canvas-img/index.js:85-95 | on a valid camera an update that reports no change leaves every field as it was |
| Viewport.UpdateIdempotent | canvas-img/index.js:59-96 | repeating an update with the same arguments reports no change and leaves the state alone |
| Viewport.UpdateAtCurrentIsNoop | canvas-img/index.js:85-95 | submitting a valid camera's own position and scale reports no change and returns the same camera |
| Viewport.Moved | canvas-img/index.js:42-44 | `moveBy` keeps scale, inverse and range, and clamps `x + dx`, `y + dy` into the range |
| Viewport.Scaled | canvas-img/index.js:46-57 | `scaleBy` gives a valid camera with the same settings and scale `clamp(minS, scale * ds, maxS)`; the camera is unchanged exactly when that scale is the current one |
| Viewport.ZoomTarget | canvas-img/index.js:47-53 | the scale `scaleBy` asks for is `clamp(minS, scale * ds, maxS)` |
| Viewport.ZoomTargetKeepsAnchor | canvas-img/index.js:47-53 | the position `scaleBy` asks for puts, at the new scale, the same content point under the anchor as before, on both axes |
| Viewport.ScaledPosition | canvas-img/index.js:49-55 | when `scaleBy` changes the camera, the new position is the anchored translation for the ratio actually applied (`clamped / scale`), clamped into the new range |
| Viewport.AnchorKept | canvas-img/index.js:50-53 | an unclamped anchored translation maps the anchor to the same content coordinate at the old and the new scale |
| Viewport.ScaledKeepsAnchorX | canvas-img/index.js:46-57 | horizontal axis: if the zoom changed the camera and the anchored translation needed no clamping, the content under the anchor is the same before and after |
| Viewport.ScaledKeepsAnchorY | canvas-img/index.js:46-57 | the same as `ScaledKeepsAnchorX`, for the vertical axis |
| Viewport.UnboundedZoomKeepsAnchor | canvas-img/index.js:46-57 | without bounds (and within the safe integers) a zoom keeps the content under the anchor on both axes |
| Viewport.Resized | canvas-img/index.js:22-28 | `setVpSize` stores the new size and keeps bounds, scale range, scale and inverse. It reclamps the position into the range derived for the new size. It is a no-op when the size is unchanged |
| Viewport.Bounded | canvas-img/index.js:30-40 | `setBoundsLimit` stores the new bounds and keeps viewport, scale range, scale and inverse. It reclamps the position into the range derived from the new bounds. It is a no-op when all four fields match, including absent against absent |
| Viewport.Apply | canvas-img/index.js:42-57 | a pan or zoom call keeps the camera valid and its settings unchanged |
| Viewport.ApplyAll | canvas-img/index.js:42-57 | a sequence of pan and zoom calls keeps the camera valid and its settings unchanged |
| Viewport.PanByZeroIsNoop | canvas-img/index.js:42-44 | `moveBy(0, 0)` leaves a valid camera exactly as it was |
| Viewport.PanCarriesContentX | canvas-img/index.js:42-44 | a pan that needs no clamping moves the content under screen point `px` to `px + dx` |
| Viewport.PanCarriesContentY | canvas-img/index.js:42-44 | the same as `PanCarriesContentX`, for the vertical axis |
| Viewport.FullBoundsAbsorbPan | canvas-img/index.js:152-158 | with an 800x400 viewport, bounds equal to it and scale 1, the range is the single point (0, 0) and every pan leaves the camera at (0, 0) |
| Viewport.ZoomStopsAtMaximum | canvas-img/index.js:46-48 | with scale range 1..4, zooming by 10 from scale 1 lands on scale 4 |
| Viewport.DefaultZoomLimits | canvas-img/index.js:19-20 | with the initial scale range 0.25..4, zooming a fresh camera by 10 lands on 4 and by 0.1 lands on 0.25 |
| Camera.CameraService.constructor | canvas-img/index.js:5-20 | the new object's fields are the initial camera for the given scale range, which is valid |
| Camera.CameraService.SetVpSize | canvas-img/index.js:22-28 | the fields afterwards are `Resized` of the fields before, and the invariant holds |
| Camera.CameraService.SetBoundsLimit | canvas-img/index.js:30-40 | the fields afterwards are `Bounded` of the fields before, and the invariant holds |
| Camera.CameraService.MoveBy | canvas-img/index.js:42-44 | the fields afterwards are `Moved` of the fields before, and the invariant holds |
| Camera.CameraService.ScaleBy | canvas-img/index.js:46-57 | the fields afterwards are `Scaled` of the fields before, and the invariant holds |
| Camera.CameraService.UpdatePositionScale | canvas-img/index.js:59-96 | the fields afterwards are `Update(...).next` of the fields before, the returned flag is `Update(...).changed`, and the invariant holds |
| Gestures.IndexOf | canvas-img/index.js:292 | the result is -1 exactly when no record has the id; otherwise the record there has the id and no earlier one does |
| Gestures.MoveTouch | canvas-img/index.js:365-375 | pointer-move keeps the list length. The first record with the id gets the new current position, and every other record is unchanged |
| Gestures.Spliced | canvas-img/index.js:291-299 | an unknown id leaves the list; otherwise it is one shorter, the records before the first match keep their places and the later ones move up by one |
| Gestures.Settled | canvas-img/index.js:359-362 | after the frame every record keeps its id, order and current position, and its previous position equals its current one |
| Gestures.PinchStep | canvas-img/index.js:273-289 | with fewer than two pointers the pinch is 0 and the baseline stays; with two or more a baseline is always set; without an old baseline the pinch is 0 |
| Gestures.PinchStepMeaning | canvas-img/index.js:273-289 | with fewer than two pointers the pinch is 0 and the baseline stays. With two or more the baseline becomes the first two pointers' distance, and the pinch is the distance gained since the old baseline, or 0 without one |
| Gestures.Sample | canvas-img/index.js:320-357 | a frame makes at most a pan and then a zoom; with fewer than two pointers it keeps the baseline and makes no zoom |
| Gestures.SampleCalls | canvas-img/index.js:320-357 | no pointer: no call. One pointer: a pan by its own movement, only if it moved. Two or more: a pan by the mean of the first two pointers' movements (independent of the origin). Then a zoom by `exp(pinch / 100)` at their current midpoint, exactly when a baseline existed and their distance changed; the baseline becomes that distance |
| Gestures.SplicedRemovesOne | canvas-img/index.js:291-299 | removing an unknown id changes nothing. Otherwise exactly the first matching record goes: the list is one shorter and, as a multiset, is the old one minus that record |
| Gestures.SplicedIsOthers | canvas-img/index.js:291-299 | with distinct ids, removal keeps every other record in its order |
| Gestures.UnknownIdChangesNothing | canvas-img/index.js:365-388 | move, up and cancel for an id no record carries leave the list as it was |
| Gestures.MoveThenGet | canvas-img/index.js:365-375 | after a move the pointer is found at the same index with the new current position and its previous position unchanged |
| Gestures.NoZoomWithoutBaseline | canvas-img/index.js:303-307 | without a baseline (the frame after any pointer-down) a frame makes at most one call, and it is a pan |
| Gestures.OnlyFirstTwoCount | canvas-img/index.js:325-326 | two lists that agree on their first two records produce the same frame |
| Gestures.SettledFrameIsStill | canvas-img/index.js:359-362 | a frame right after a frame, with no event between, makes no call, or only a pan by (0, 0) with two or more pointers. It keeps the baseline and leaves the camera unchanged, so no movement is counted twice |
| Gestures.PinchFollowsFingersX | canvas-img/index.js:325-346 | horizontal axis: when neither the pan nor the zoom needs clamping, the content under the old midpoint of the first two pointers is under the new midpoint after the frame |
| Gestures.PinchFollowsFingersY | canvas-img/index.js:325-346 | the same as `PinchFollowsFingersX`, for the vertical axis |
| Gestures.TwoFingerPanExample | canvas-img/index.js:321-347 | two pointers moving from (100,100) and (200,100) to (110,100) and (210,100) pan by (10, 0) with no zoom |
| Gestures.DragExample | canvas-img/index.js:348-356 | one pointer moving from (50,50) to (53,57) pans by (3, 7) |
| Gestures.PinchExample | canvas-img/index.js:341-347 | two pointers spreading from 100 to 150 apart pan by (25, 0), then zoom by exp(0.5) at the new midpoint |
| Gestures.LiftKeepsStaleBaseline | canvas-img/index.js:282-285 | after lifting the first of three still pointers, the next frame zooms by exp(1) because the baseline came from the old pair |
| Gestures.GestureTracker.constructor | canvas-img/index.js:269-271 | no records and no baseline |
| Gestures.GestureTracker.GetTouch | canvas-img/index.js:301 | `None` exactly when no record has the id; otherwise the first record with that id |
| Gestures.GestureTracker.PointerDown | canvas-img/index.js:303-318 | appends a record whose previous and current positions are the down position, and clears the baseline |
| Gestures.GestureTracker.PointerMove | canvas-img/index.js:365-380 | the list becomes `MoveTouch` of the old list; the baseline is untouched |
| Gestures.GestureTracker.RemoveTouch | canvas-img/index.js:291-299 | returns the first record with the id, or `None` when there is none, and leaves the list with that record spliced out |
| Gestures.GestureTracker.PointerUp | canvas-img/index.js:386-388 | the first record with the id is spliced out; the baseline is untouched |
| Gestures.GestureTracker.PointerCancel | canvas-img/index.js:382-384 | the first record with the id is spliced out; the baseline is untouched |
| Gestures.GestureTracker.GesturePinchZoom | canvas-img/index.js:273-289 | the returned pinch and the new baseline are `PinchStep` of the records and the old baseline |
| Gestures.GestureTracker.EnterFrame | canvas-img/index.js:320-363 | the camera afterwards is the old camera with the calls of `Sample` applied in order. The baseline is the one `Sample` gives, and every record is settled |
| Gestures.GestureTracker.SettleTouches | canvas-img/index.js:359-362 | every record's previous position becomes its current one |
| Wheel.GetWheelDelta | canvas-img/index.js:240-265 | the standard `deltaX`/`deltaY` are used when present. Otherwise both legacy values are used, each -3 times the result. Otherwise X is 0 and the single legacy value, if any, is -3 times Y. A NaN component reads as 0 |
| Wheel.WheelCall | canvas-img/index.js:226-237 | the call is a zoom exactly when Ctrl or Meta is held. A zoom uses ratio `exp(-Y / 100)` at the cursor in surface coordinates; a pan moves by `(-X, -Y)` |
| Wheel.OnWheel | canvas-img/index.js:221-238 | the camera afterwards is the old camera with the event's call applied, and stays valid |
| Wheel.LegacyMatchesStandard | canvas-img/index.js:244-255 | a legacy event carrying -3 times the standard values reads exactly as the standard one; a legacy `wheelDelta` alone reads as a vertical scroll |
| Wheel.NaNReadsAsZero | canvas-img/index.js:257-262 | a NaN component reads as no scroll on that axis |
| Wheel.ScrollDownExample | canvas-img/index.js:235-236 | scrolling down by 100 without a modifier pans by (0, -100) |
| Wheel.CtrlScrollExample | canvas-img/index.js:226-234 | Ctrl and a scroll down by 100 zooms by exp(-1) about the cursor |
| Wheel.WheelZoomKeepsCursorContent | canvas-img/index.js:226-234 | a Ctrl-wheel zoom keeps the content under the cursor on each axis where the anchored translation needs no clamping |

## Left out

- Rendering is not modelled: canvas creation, image loading, the drawing and letterboxing in `animate` (`index.js:104-117`, `160-186`) and the box list. It only reads the camera.
- The frame-callback registry `onEnterFrame` and `requestAnimationFrame` (`index.js:136-150`, `186`) are host plumbing. `EnterFrame` is called directly.
- `animate` calls `setVpSize` and `setBoundsLimit` with the canvas size every frame (`index.js:152-158`). Callers call `SetVpSize` and `SetBoundsLimit` explicitly instead. `FullBoundsAbsorbPan` shows the configuration `animate` sets up.
- `handleMouseEvents` (`index.js:195-219`) is disabled at `index.js:191`. The `PointerP` writes in pointer-move (`index.js:378-379`) only feed that dead code.
- Listener registration, `preventDefault`, `stopPropagation` and `console.log` are DOM and console side effects with no effect on the state.
- `getBoundingClientRect()` is a DOM query. The surface origin is a parameter.
- `Math.sqrt` and `Math.exp` cannot be computed over reals here. They are function parameters about which nothing is assumed.
- IEEE-754 arithmetic: rounding, overflow to Infinity and NaN in camera or pointer inputs are not modelled. Numbers are reals, and `!==` is exact real inequality. NaN is modelled only in wheel deltas, where the source tests for it. A NaN pinch, which `if (pinchDiff)` would skip, cannot arise from reals.
- `_vp.x` and `_vp.y` are never read, so they are left out.
- The application sets `_minS = 1` directly after construction (`index.js:120`). The model takes the scale range as a constructor argument. Other direct writes to the camera's fields from outside are not modelled.
- `setBoundsLimit` keeps a reference to the caller's object. The model stores a copy, so a caller mutating that object afterwards is not modelled. Nor is a bounds object with missing fields.
- A touch record is a shared object, and pointer-move updates the record `getTouch` returned. The model updates the list element in place; no other holder of the record exists.
- The wheel event's `deltaMode` is ignored by the source and not modelled. Neither is an event that has `deltaX` but lacks `deltaY`.
- Viewport.ScaledKeepsAnchorX: anchor preservation is stated only when the zoom changes the camera and the anchored translation needs no clamping, because the source does not keep the anchor fixed when it clamps the position. `ScaledKeepsAnchorY` is limited in the same way.
- Gestures.PinchFollowsFingersX: the content stays under the fingers only when neither the pan nor the zoom is clamped, for the same reason. `PinchFollowsFingersY` is limited in the same way.
- Wheel.WheelZoomKeepsCursorContent: limited to unclamped axes, for the same reason.
