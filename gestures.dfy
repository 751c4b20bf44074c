/**
 * The pointer tracker of canvas-img (`handleTouchInputs`): an ordered list of
 * tracked pointers plus the pinch-distance baseline, updated by the pointer
 * handlers, and sampled once per animation frame into pan and pinch-zoom
 * calls on the camera.
 *
 * `Math.sqrt` and `Math.exp` are passed in as `sqrt` and `exp`: nothing here
 * depends on what they compute, only on their being functions. The surface
 * origin (`getBoundingClientRect()`) is passed in as `originX`, `originY`.
 */
module Gestures {
  import opened Wrappers
  import opened Viewport
  import opened Camera

  /** A tracked pointer: `{id, prevClientX, prevClientY, clientX, clientY}`. */
  datatype Touch = Touch(id: int, prevX: real, prevY: real, currX: real, currY: real)

  /** What one frame does: the camera calls in order, and the pinch baseline afterwards. */
  datatype FrameResult = FrameResult(calls: seq<CameraCall>, baseline: Option<real>)

  /** `findIndex(ot => ot.id === id)`: the first record with that id, or -1. */
  function IndexOf(ts: seq<Touch>, id: int): (i: int)
    ensures -1 <= i < |ts|
    ensures i == -1 <==> forall k :: 0 <= k < |ts| ==> ts[k].id != id
    ensures 0 <= i ==> ts[i].id == id && forall k :: 0 <= k < i ==> ts[k].id != id
    decreases |ts|
  {
    if |ts| == 0 then -1
    else if ts[0].id == id then 0
    else
      var j := IndexOf(ts[1..], id);
      if j == -1 then -1 else j + 1
  }

  /** The list after pointer-move: the first record with the id takes the new current position. */
  function MoveTouch(ts: seq<Touch>, id: int, x: real, y: real): (r: seq<Touch>)
    ensures |r| == |ts|
    ensures forall k :: 0 <= k < |ts| && k != IndexOf(ts, id) ==> r[k] == ts[k]
    ensures IndexOf(ts, id) >= 0 ==>
      r[IndexOf(ts, id)] == ts[IndexOf(ts, id)].(currX := x, currY := y)
  {
    var i := IndexOf(ts, id);
    if i < 0 then ts else ts[i := ts[i].(currX := x, currY := y)]
  }

  /** The list after pointer-up or pointer-cancel: the first record with the id spliced out. */
  function Spliced(ts: seq<Touch>, id: int): (r: seq<Touch>)
    ensures IndexOf(ts, id) < 0 ==> r == ts
    // the records before the first match stay where they are, the later ones move up by one
    ensures IndexOf(ts, id) >= 0 ==> |r| == |ts| - 1
    ensures forall k :: 0 <= k < IndexOf(ts, id) ==> r[k] == ts[k]
    ensures forall k :: 0 <= IndexOf(ts, id) <= k < |r| ==> r[k] == ts[k + 1]
  {
    var i := IndexOf(ts, id);
    if i < 0 then ts else ts[..i] + ts[i + 1..]
  }

  /** Every record except those with the given id, in order: the reference for removal. */
  function Others(ts: seq<Touch>, id: int): (r: seq<Touch>)
    decreases |ts|
  {
    if |ts| == 0 then []
    else if ts[0].id == id then Others(ts[1..], id)
    else [ts[0]] + Others(ts[1..], id)
  }

  ghost predicate DistinctIds(ts: seq<Touch>) {
    forall j, k :: 0 <= j < k < |ts| ==> ts[j].id != ts[k].id
  }

  /** `ot.prevClientX = ot.clientX; ot.prevClientY = ot.clientY`. */
  function Settle(t: Touch): Touch {
    t.(prevX := t.currX, prevY := t.currY)
  }

  /** The list after the frame's closing `forEach`. */
  function Settled(ts: seq<Touch>): (r: seq<Touch>)
    ensures |r| == |ts|
    // same pointers, same current positions, in the same order ...
    ensures forall k :: 0 <= k < |ts| ==> r[k].id == ts[k].id && r[k].currX == ts[k].currX && r[k].currY == ts[k].currY
    // ... and no movement left to sample
    ensures forall k :: 0 <= k < |r| ==> r[k].prevX == r[k].currX && r[k].prevY == r[k].currY
  {
    seq(|ts|, k requires 0 <= k < |ts| => Settle(ts[k]))
  }

  /** Euclidean distance between the current positions of two pointers. */
  function PairDistance(a: Touch, b: Touch, sqrt: real -> real): real {
    Hypot(b.currX - a.currX, b.currY - a.currY, sqrt)
  }

  /** `Math.sqrt(dx * dx + dy * dy)`. */
  function Hypot(dx: real, dy: real, sqrt: real -> real): real {
    sqrt(dx * dx + dy * dy)
  }

  /** The zoom factor for a pinch of `pinch` pixels: `Math.exp(pinch / 100)`. */
  function PinchRatio(pinch: real, exp: real -> real): real {
    exp(pinch / 100.0)
  }

  /** `gesturePinchZoom`: the change of the first two pointers' distance since
      the baseline (0 without one), and the new baseline. */
  function PinchStep(ts: seq<Touch>, baseline: Option<real>, sqrt: real -> real): (r: (real, Option<real>))
    ensures |ts| < 2 ==> r == (0.0, baseline)
    ensures |ts| >= 2 ==> r.1.Some?
    ensures baseline.None? ==> r.0 == 0.0
  {
    if |ts| >= 2 then
      var d := PairDistance(ts[0], ts[1], sqrt);
      (if baseline.Some? then d - baseline.value else 0.0, Some(d))
    else
      (0.0, baseline)
  }

  /** With fewer than two pointers the pinch is 0 and the baseline stays; with
      two or more the baseline becomes their distance, and the pinch is the
      distance gained since the old baseline, or 0 when there was none. */
  lemma PinchStepMeaning(ts: seq<Touch>, baseline: Option<real>, sqrt: real -> real)
    ensures var r := PinchStep(ts, baseline, sqrt);
      |ts| < 2 ==> r == (0.0, baseline)
    ensures var r := PinchStep(ts, baseline, sqrt);
      |ts| >= 2 ==> r.1 == Some(PairDistance(ts[0], ts[1], sqrt))
    ensures var r := PinchStep(ts, baseline, sqrt);
      |ts| >= 2 && baseline.Some? ==> r.0 + baseline.value == PairDistance(ts[0], ts[1], sqrt)
    ensures baseline.None? ==> PinchStep(ts, baseline, sqrt).0 == 0.0
  {
  }

  /** The camera calls one frame makes, and the pinch baseline it leaves. */
  function Sample(ts: seq<Touch>, baseline: Option<real>, originX: real, originY: real,
                  sqrt: real -> real, exp: real -> real): (r: FrameResult)
    // at most a pan and a zoom, in that order
    ensures |r.calls| <= 2
    ensures |r.calls| == 2 ==> r.calls[0].Pan? && r.calls[1].Zoom?
    // only a pair of pointers sets the baseline
    ensures |ts| < 2 ==> r.baseline == baseline && (forall call <- r.calls :: call.Pan?)
  {
    if |ts| >= 2 then
      var t1, t2 := ts[0], ts[1];
      var prevX := (t1.prevX + t2.prevX) / 2.0 - originX;
      var prevY := (t1.prevY + t2.prevY) / 2.0 - originY;
      var currX := (t1.currX + t2.currX) / 2.0 - originX;
      var currY := (t1.currY + t2.currY) / 2.0 - originY;
      var pan := Pan(currX - prevX, currY - prevY);
      var (pinchDiff, next) := PinchStep(ts, baseline, sqrt);
      if pinchDiff != 0.0 then
        FrameResult([pan, Zoom(PinchRatio(pinchDiff, exp), currX, currY)], next)
      else
        FrameResult([pan], next)
    else if |ts| == 1 then
      var dx := ts[0].currX - ts[0].prevX;
      var dy := ts[0].currY - ts[0].prevY;
      FrameResult(if dx != 0.0 || dy != 0.0 then [Pan(dx, dy)] else [], baseline)
    else
      FrameResult([], baseline)
  }

  /** What a frame does, by pointer count: nothing without pointers; one
      pointer pans by its own movement, if any; two or more pan by the mean of
      the first two pointers' movements (the surface origin cancels out), and
      zoom at their midpoint by `exp(pinch / 100)` only when a baseline existed
      and their distance changed. */
  lemma SampleCalls(ts: seq<Touch>, baseline: Option<real>, originX: real, originY: real,
                    sqrt: real -> real, exp: real -> real)
    // no pointer: nothing happens
    ensures var f := Sample(ts, baseline, originX, originY, sqrt, exp);
      |ts| == 0 ==> f == FrameResult([], baseline)
    // one pointer: pan by its own movement, and only if it moved
    ensures var f := Sample(ts, baseline, originX, originY, sqrt, exp);
      |ts| == 1 ==> f.baseline == baseline
    ensures var f := Sample(ts, baseline, originX, originY, sqrt, exp);
      |ts| == 1 ==> (f.calls == [] <==> ts[0].currX == ts[0].prevX && ts[0].currY == ts[0].prevY)
    ensures var f := Sample(ts, baseline, originX, originY, sqrt, exp);
      |ts| == 1 && f.calls != [] ==> f.calls == [Pan(ts[0].currX - ts[0].prevX, ts[0].currY - ts[0].prevY)]
    // two or more: the first two pan by the mean of their movements, whatever the origin ...
    ensures var f := Sample(ts, baseline, originX, originY, sqrt, exp);
      |ts| >= 2 ==> 1 <= |f.calls| <= 2 && f.calls[0] == Pan(
      ((ts[0].currX - ts[0].prevX) + (ts[1].currX - ts[1].prevX)) / 2.0,
      ((ts[0].currY - ts[0].prevY) + (ts[1].currY - ts[1].prevY)) / 2.0)
    // ... and zoom at their midpoint only if their distance changed since the baseline
    ensures var f := Sample(ts, baseline, originX, originY, sqrt, exp);
      |ts| >= 2 ==> f.baseline == Some(PairDistance(ts[0], ts[1], sqrt))
    ensures var f := Sample(ts, baseline, originX, originY, sqrt, exp);
      |ts| >= 2 ==>
      (|f.calls| == 2 <==> baseline.Some? && PairDistance(ts[0], ts[1], sqrt) != baseline.value)
    ensures var f := Sample(ts, baseline, originX, originY, sqrt, exp);
      |ts| >= 2 && |f.calls| == 2 ==> f.calls[1] == Zoom(
      PinchRatio(PairDistance(ts[0], ts[1], sqrt) - baseline.value, exp),
      (ts[0].currX + ts[1].currX) / 2.0 - originX,
      (ts[0].currY + ts[1].currY) / 2.0 - originY)
  {
  }

  /** A frame with two or more pointers, in the terms the frame callback computes:
      the midpoint pan, then the pinch zoom when the pinch is not 0. */
  lemma SampleOfPair(ts: seq<Touch>, baseline: Option<real>, originX: real, originY: real,
                     sqrt: real -> real, exp: real -> real,
                     currX: real, currY: real, dx: real, dy: real, pinch: (real, Option<real>))
    requires |ts| >= 2
    requires currX == (ts[0].currX + ts[1].currX) / 2.0 - originX
    requires currY == (ts[0].currY + ts[1].currY) / 2.0 - originY
    requires dx == currX - ((ts[0].prevX + ts[1].prevX) / 2.0 - originX)
    requires dy == currY - ((ts[0].prevY + ts[1].prevY) / 2.0 - originY)
    requires pinch == PinchStep(ts, baseline, sqrt)
    ensures Sample(ts, baseline, originX, originY, sqrt, exp) == FrameResult(
      if pinch.0 != 0.0 then [Pan(dx, dy), Zoom(PinchRatio(pinch.0, exp), currX, currY)] else [Pan(dx, dy)],
      pinch.1)
  {
  }

  /** Dropping every record with an id that no record has changes nothing. */
  lemma {:induction false} OthersOfAbsent(ts: seq<Touch>, id: int)
    requires forall k :: 0 <= k < |ts| ==> ts[k].id != id
    ensures Others(ts, id) == ts
    decreases |ts|
  {
    if |ts| > 0 {
      OthersOfAbsent(ts[1..], id);
      assert ts == [ts[0]] + ts[1..];
    }
  }

  /** Splicing out the first record with the id removes exactly that record
      and nothing else; an unknown id leaves the list alone. */
  lemma {:induction false} SplicedRemovesOne(ts: seq<Touch>, id: int)
    ensures IndexOf(ts, id) == -1 ==> Spliced(ts, id) == ts
    ensures var i := IndexOf(ts, id);
      i >= 0 ==>
        |Spliced(ts, id)| == |ts| - 1 && multiset(Spliced(ts, id)) + multiset{ts[i]} == multiset(ts)
  {
    var i := IndexOf(ts, id);
    if i >= 0 {
      assert ts == ts[..i] + [ts[i]] + ts[i + 1..];
    }
  }

  /** With distinct pointer ids (what a browser delivers), splicing out the
      first match is the same as keeping every other record in order. */
  lemma {:induction false} SplicedIsOthers(ts: seq<Touch>, id: int)
    requires DistinctIds(ts)
    ensures Spliced(ts, id) == Others(ts, id)
    decreases |ts|
  {
    if |ts| == 0 {
      return;
    }
    DistinctTail(ts);
    if ts[0].id == id {
      OthersOfAbsent(ts[1..], id);
    } else {
      SplicedIsOthers(ts[1..], id);
      SplicedTail(ts, id);
    }
  }

  /** The tail of a list with distinct ids has distinct ids, none of them the head's. */
  lemma DistinctTail(ts: seq<Touch>)
    requires DistinctIds(ts) && |ts| > 0
    ensures DistinctIds(ts[1..])
    ensures forall k :: 0 <= k < |ts| - 1 ==> ts[1..][k].id != ts[0].id
  {
    var rest := ts[1..];
    forall j, k | 0 <= j < k < |rest| ensures rest[j].id != rest[k].id {
      assert rest[j] == ts[j + 1] && rest[k] == ts[k + 1];
    }
    forall k | 0 <= k < |rest| ensures rest[k].id != ts[0].id {
      assert rest[k] == ts[k + 1];
    }
  }

  /** Behind a head with another id, splicing happens in the tail. */
  lemma SplicedTail(ts: seq<Touch>, id: int)
    requires |ts| > 0 && ts[0].id != id
    ensures Spliced(ts, id) == [ts[0]] + Spliced(ts[1..], id)
  {
    var j := IndexOf(ts[1..], id);
    assert IndexOf(ts, id) == if j == -1 then -1 else j + 1;
    if j >= 0 {
      CutBehindHead(ts, j);
    }
  }

  /** Cutting element `j + 1` out of a list is keeping its head and cutting
      element `j` out of its tail. */
  lemma CutBehindHead(ts: seq<Touch>, j: nat)
    requires j + 1 < |ts|
    ensures ts[..j + 1] + ts[j + 2..] == [ts[0]] + (ts[1..][..j] + ts[1..][j + 1..])
  {
    assert ts[..j + 1] == [ts[0]] + ts[1..][..j];
    assert ts[j + 2..] == ts[1..][j + 1..];
  }

  /** Move, up and cancel for an id no record carries leave the list as it was. */
  lemma UnknownIdChangesNothing(ts: seq<Touch>, id: int, x: real, y: real)
    requires forall k :: 0 <= k < |ts| ==> ts[k].id != id
    ensures MoveTouch(ts, id, x, y) == ts && Spliced(ts, id) == ts
  {
  }

  /** Two lists whose records carry the same ids position by position find an id at the same index. */
  lemma IndexOfSameIds(ts: seq<Touch>, us: seq<Touch>, id: int)
    requires |ts| == |us| && forall k :: 0 <= k < |ts| ==> ts[k].id == us[k].id
    ensures IndexOf(ts, id) == IndexOf(us, id)
  {
    var i, j := IndexOf(ts, id), IndexOf(us, id);
    if i == -1 {
      assert forall k :: 0 <= k < |us| ==> us[k].id != id by {
        forall k | 0 <= k < |us| ensures us[k].id != id {
          assert ts[k].id == us[k].id;
        }
      }
    }
  }

  /** After a move, looking the pointer up again finds the new position, and
      its previous position is still the one the last frame left. */
  lemma MoveThenGet(ts: seq<Touch>, id: int, x: real, y: real)
    requires IndexOf(ts, id) >= 0
    ensures var r := MoveTouch(ts, id, x, y); var i := IndexOf(r, id);
      i == IndexOf(ts, id) && r[i].currX == x && r[i].currY == y
        && r[i].prevX == ts[i].prevX && r[i].prevY == ts[i].prevY
  {
    IndexOfSameIds(ts, MoveTouch(ts, id, x, y), id);
  }

  /** Without a pinch baseline (the first frame after any pointer-down) a
      frame never zooms. */
  lemma NoZoomWithoutBaseline(ts: seq<Touch>, originX: real, originY: real,
                              sqrt: real -> real, exp: real -> real)
    ensures var f := Sample(ts, None, originX, originY, sqrt, exp);
      |f.calls| <= 1 && forall k :: 0 <= k < |f.calls| ==> f.calls[k].Pan?
  {
  }

  /** Only the first two records in arrival order take part in a frame. */
  lemma OnlyFirstTwoCount(ts: seq<Touch>, us: seq<Touch>, baseline: Option<real>,
                          originX: real, originY: real, sqrt: real -> real, exp: real -> real)
    requires |ts| >= 2 && |us| >= 2 && ts[0] == us[0] && ts[1] == us[1]
    ensures Sample(ts, baseline, originX, originY, sqrt, exp)
         == Sample(us, baseline, originX, originY, sqrt, exp)
  {
  }

  /** A second frame with no pointer event in between finds nothing to do:
      settling leaves no movement to pan by twice, and the new baseline
      matches the unchanged distance, so at most a pan by (0, 0) remains,
      which leaves the camera where it is. */
  lemma {:induction false} SettledFrameIsStill(ts: seq<Touch>, baseline: Option<real>, c: Cam,
                                               originX: real, originY: real,
                                               sqrt: real -> real, exp: real -> real)
    requires c.Valid()
    ensures var f := Sample(ts, baseline, originX, originY, sqrt, exp);
      var g := Sample(Settled(ts), f.baseline, originX, originY, sqrt, exp);
      g.calls == (if |ts| >= 2 then [Pan(0.0, 0.0)] else [])
        && g.baseline == f.baseline
        && ApplyAll(c, g.calls) == c
  {
    var f := Sample(ts, baseline, originX, originY, sqrt, exp);
    var st := Settled(ts);
    var g := Sample(st, f.baseline, originX, originY, sqrt, exp);
    if |ts| >= 2 {
      assert st[0] == Settle(ts[0]) && st[1] == Settle(ts[1]);
      assert g.calls == [Pan(0.0, 0.0)];
      ApplyAllOne(c, Pan(0.0, 0.0));
      PanByZeroIsNoop(c);
    }
  }

  /** Two pointers down at (100, 100) and (200, 100) move to (110, 100) and
      (210, 100): the camera pans by (10, 0), and with the distance still 100
      there is no zoom. */
  lemma TwoFingerPanExample(originX: real, originY: real, sqrt: real -> real, exp: real -> real)
    ensures var ts := [Touch(1, 100.0, 100.0, 110.0, 100.0), Touch(2, 200.0, 100.0, 210.0, 100.0)];
      var f := Sample(ts, Some(sqrt(10000.0)), originX, originY, sqrt, exp);
      f.calls == [Pan(10.0, 0.0)] && f.baseline == Some(sqrt(10000.0))
  {
  }

  /** One pointer dragged from (50, 50) to (53, 57) pans by (3, 7). */
  lemma DragExample(baseline: Option<real>, originX: real, originY: real,
                    sqrt: real -> real, exp: real -> real)
    ensures Sample([Touch(7, 50.0, 50.0, 53.0, 57.0)], baseline, originX, originY, sqrt, exp)
         == FrameResult([Pan(3.0, 7.0)], baseline)
  {
  }

  /** Two pointers spread from 100 to 150 apart: a pan by the midpoint's
      movement, then a zoom by exp(0.5) at the new midpoint. */
  lemma PinchExample(originX: real, originY: real, sqrt: real -> real, exp: real -> real)
    requires sqrt(10000.0) == 100.0 && sqrt(22500.0) == 150.0
    ensures var ts := [Touch(1, 100.0, 100.0, 100.0, 100.0), Touch(2, 200.0, 100.0, 250.0, 100.0)];
      Sample(ts, Some(100.0), originX, originY, sqrt, exp).calls
        == [Pan(25.0, 0.0), Zoom(exp(0.5), 175.0 - originX, 100.0 - originY)]
  {
    var ts := [Touch(1, 100.0, 100.0, 100.0, 100.0), Touch(2, 200.0, 100.0, 250.0, 100.0)];
    assert PairDistance(ts[0], ts[1], sqrt) == 150.0;
  }

  /** The pinch baseline survives pointer-up: with three pointers 100 apart
      and 200 apart, lifting the first one makes the other two the pinch
      pair, and the next frame zooms by exp(1) although nothing moved. */
  lemma LiftKeepsStaleBaseline(originX: real, originY: real, sqrt: real -> real, exp: real -> real)
    requires sqrt(10000.0) == 100.0 && sqrt(40000.0) == 200.0
    ensures var ts := [Touch(1, 0.0, 0.0, 0.0, 0.0), Touch(2, 100.0, 0.0, 100.0, 0.0), Touch(3, 300.0, 0.0, 300.0, 0.0)];
      var f := Sample(ts, Some(100.0), originX, originY, sqrt, exp);
      f.calls == [Pan(0.0, 0.0)]
        && Sample(Spliced(ts, 1), f.baseline, originX, originY, sqrt, exp).calls
             == [Pan(0.0, 0.0), Zoom(exp(1.0), 200.0 - originX, 0.0 - originY)]
  {
    var ts := [Touch(1, 0.0, 0.0, 0.0, 0.0), Touch(2, 100.0, 0.0, 100.0, 0.0), Touch(3, 300.0, 0.0, 300.0, 0.0)];
    assert PairDistance(ts[0], ts[1], sqrt) == 100.0;
    assert Spliced(ts, 1) == ts[1..];
    assert PairDistance(ts[1], ts[2], sqrt) == 200.0;
  }

  /** The midpoint of the first two pointers' previous positions, on the surface. */
  function PrevMidX(ts: seq<Touch>, originX: real): real
    requires |ts| >= 2
  {
    (ts[0].prevX + ts[1].prevX) / 2.0 - originX
  }

  /** The midpoint of the first two pointers' current positions, on the surface. */
  function CurrMidX(ts: seq<Touch>, originX: real): real
    requires |ts| >= 2
  {
    (ts[0].currX + ts[1].currX) / 2.0 - originX
  }

  /** `PrevMidX` for the vertical axis. */
  function PrevMidY(ts: seq<Touch>, originY: real): real
    requires |ts| >= 2
  {
    (ts[0].prevY + ts[1].prevY) / 2.0 - originY
  }

  /** `CurrMidX` for the vertical axis. */
  function CurrMidY(ts: seq<Touch>, originY: real): real
    requires |ts| >= 2
  {
    (ts[0].currY + ts[1].currY) / 2.0 - originY
  }

  /** A two-finger frame keeps the content under the fingers: the content
      point that was under the old midpoint is under the new midpoint after
      the pan and the pinch zoom, on the horizontal axis, whenever neither
      the pan nor the zoom had to be clamped there. */
  lemma {:induction false} PinchFollowsFingersX(ts: seq<Touch>, baseline: Option<real>, c: Cam,
                                                originX: real, originY: real,
                                                sqrt: real -> real, exp: real -> real)
    requires c.Valid() && |ts| >= 2
    ensures var prev, curr := PrevMidX(ts, originX), CurrMidX(ts, originX);
      var m := Moved(c, curr - prev, CurrMidY(ts, originY) - PrevMidY(ts, originY));
      var r := ApplyAll(c, Sample(ts, baseline, originX, originY, sqrt, exp).calls);
      (c.range.minX <= c.x + (curr - prev) <= c.range.maxX
       && r.range.minX <= Anchored(curr, m.x, r.scale / m.scale) <= r.range.maxX)
      ==> ContentX(r, curr) == ContentX(c, prev)
  {
    var prev, curr := PrevMidX(ts, originX), CurrMidX(ts, originX);
    var currY := CurrMidY(ts, originY);
    var dx, dy := curr - prev, currY - PrevMidY(ts, originY);
    var pinch := PinchStep(ts, baseline, sqrt);
    SampleOfPair(ts, baseline, originX, originY, sqrt, exp, curr, currY, dx, dy, pinch);
    var m := Moved(c, dx, dy);
    PanCarriesContentX(c, dx, dy, prev);
    assert prev + dx == curr;
    if pinch.0 != 0.0 {
      var zoom := Zoom(PinchRatio(pinch.0, exp), curr, currY);
      ApplyAllTwo(c, Pan(dx, dy), zoom);
      ScaledKeepsAnchorX(m, zoom.ds, curr, currY);
    } else {
      ApplyAllOne(c, Pan(dx, dy));
    }
  }

  /** `PinchFollowsFingersX` for the vertical axis. */
  lemma {:induction false} PinchFollowsFingersY(ts: seq<Touch>, baseline: Option<real>, c: Cam,
                                                originX: real, originY: real,
                                                sqrt: real -> real, exp: real -> real)
    requires c.Valid() && |ts| >= 2
    ensures var prev, curr := PrevMidY(ts, originY), CurrMidY(ts, originY);
      var m := Moved(c, CurrMidX(ts, originX) - PrevMidX(ts, originX), curr - prev);
      var r := ApplyAll(c, Sample(ts, baseline, originX, originY, sqrt, exp).calls);
      (c.range.minY <= c.y + (curr - prev) <= c.range.maxY
       && r.range.minY <= Anchored(curr, m.y, r.scale / m.scale) <= r.range.maxY)
      ==> ContentY(r, curr) == ContentY(c, prev)
  {
    var prev, curr := PrevMidY(ts, originY), CurrMidY(ts, originY);
    var currX := CurrMidX(ts, originX);
    var dx, dy := currX - PrevMidX(ts, originX), curr - prev;
    var pinch := PinchStep(ts, baseline, sqrt);
    SampleOfPair(ts, baseline, originX, originY, sqrt, exp, currX, curr, dx, dy, pinch);
    var m := Moved(c, dx, dy);
    PanCarriesContentY(c, dx, dy, prev);
    assert prev + dy == curr;
    if pinch.0 != 0.0 {
      var zoom := Zoom(PinchRatio(pinch.0, exp), currX, curr);
      ApplyAllTwo(c, Pan(dx, dy), zoom);
      ScaledKeepsAnchorY(m, zoom.ds, currX, curr);
    } else {
      ApplyAllOne(c, Pan(dx, dy));
    }
  }

  class GestureTracker {
    var touches: seq<Touch>
    var prevPinchDistance: Option<real>

    constructor ()
      ensures touches == [] && prevPinchDistance == None
    {
      touches := [];
      prevPinchDistance := None;
    }

    /** `getTouch(id)`. */
    method GetTouch(id: int) returns (t: Option<Touch>)
      ensures t.None? <==> forall k :: 0 <= k < |touches| ==> touches[k].id != id
      ensures t.Some? ==> t.value.id == id && t.value == touches[IndexOf(touches, id)]
    {
      var i := IndexOf(touches, id);
      t := if i < 0 then None else Some(touches[i]);
    }

    /** The pointer-down handler: track the pointer and forget the pinch baseline. */
    method PointerDown(id: int, clientX: real, clientY: real)
      modifies this
      ensures touches == old(touches) + [Touch(id, clientX, clientY, clientX, clientY)]
      ensures prevPinchDistance == None
    {
      prevPinchDistance := None;
      touches := touches + [Touch(id, clientX, clientY, clientX, clientY)];
    }

    /** The pointer-move handler: update a known pointer, ignore an unknown one. */
    method PointerMove(id: int, clientX: real, clientY: real)
      modifies this
      ensures touches == MoveTouch(old(touches), id, clientX, clientY)
      ensures prevPinchDistance == old(prevPinchDistance)
    {
      var t := GetTouch(id);
      if t.None? {
        return;
      }
      var i := IndexOf(touches, id);
      touches := touches[i := t.value.(currX := clientX, currY := clientY)];
    }

    /** `removeTouch(id)`: splice out the first record with the id and return it. */
    method RemoveTouch(id: int) returns (removed: Option<Touch>)
      modifies this
      ensures removed.None? <==> IndexOf(old(touches), id) == -1
      ensures removed.Some? ==> removed.value == old(touches)[IndexOf(old(touches), id)]
      ensures touches == Spliced(old(touches), id)
      ensures prevPinchDistance == old(prevPinchDistance)
    {
      var idx := IndexOf(touches, id);
      if idx != -1 {
        var t := touches[idx];
        touches := touches[..idx] + touches[idx + 1..];
        return Some(t);
      }
      return None;
    }

    /** The pointer-up handler. */
    method PointerUp(id: int)
      modifies this
      ensures touches == Spliced(old(touches), id)
      ensures prevPinchDistance == old(prevPinchDistance)
    {
      var _ := RemoveTouch(id);
    }

    /** The pointer-cancel handler: the same as pointer-up. */
    method PointerCancel(id: int)
      modifies this
      ensures touches == Spliced(old(touches), id)
      ensures prevPinchDistance == old(prevPinchDistance)
    {
      var _ := RemoveTouch(id);
    }

    /** `gesturePinchZoom()`. */
    method GesturePinchZoom(sqrt: real -> real) returns (result: real)
      modifies this`prevPinchDistance
      ensures (result, prevPinchDistance) == PinchStep(touches, old(prevPinchDistance), sqrt)
    {
      result := 0.0;
      if |touches| >= 2 {
        var p1 := touches[0];
        var p2 := touches[1];
        var pinchDistance := PairDistance(p1, p2, sqrt);
        if prevPinchDistance.Some? {
          result := pinchDistance - prevPinchDistance.value;
        }
        prevPinchDistance := Some(pinchDistance);
      }
    }

    /** The per-frame callback: pan and zoom the camera from the pointers'
        movement since the last frame, then make every record's previous
        position its current one. */
    method EnterFrame(cam: CameraService, originX: real, originY: real,
                      sqrt: real -> real, exp: real -> real)
      requires cam.Valid()
      modifies this, cam
      ensures cam.Valid()
      ensures var f := Sample(old(touches), old(prevPinchDistance), originX, originY, sqrt, exp);
        cam.Snapshot() == ApplyAll(old(cam.Snapshot()), f.calls) && prevPinchDistance == f.baseline
      ensures touches == Settled(old(touches))
    {
      ghost var ts, baseline := touches, prevPinchDistance;
      ghost var c0 := cam.Snapshot();
      if |touches| >= 2 {
        var t1 := touches[0];
        var t2 := touches[1];
        var prevX := (t1.prevX + t2.prevX) / 2.0;
        var prevY := (t1.prevY + t2.prevY) / 2.0;
        prevX := prevX - originX;
        prevY := prevY - originY;

        var currX := (t1.currX + t2.currX) / 2.0;
        var currY := (t1.currY + t2.currY) / 2.0;
        currX := currX - originX;
        currY := currY - originY;

        var dx := currX - prevX;
        var dy := currY - prevY;
        cam.MoveBy(dx, dy);
        ApplyAllOne(c0, Pan(dx, dy));

        var pinchDiff := GesturePinchZoom(sqrt);
        SampleOfPair(ts, baseline, originX, originY, sqrt, exp,
                     currX, currY, dx, dy, (pinchDiff, prevPinchDistance));
        if pinchDiff != 0.0 {
          var zoom := PinchRatio(pinchDiff, exp);
          cam.ScaleBy(zoom, currX, currY);
          ApplyAllTwo(c0, Pan(dx, dy), Zoom(zoom, currX, currY));
        }
      } else if |touches| == 1 {
        var ot := touches[0];
        var dx := ot.currX - ot.prevX;
        var dy := ot.currY - ot.prevY;
        if dx != 0.0 || dy != 0.0 {
          cam.MoveBy(dx, dy);
          ApplyAllOne(c0, Pan(dx, dy));
        }
      }

      SettleTouches();
    }

    /** The frame's closing `forEach`: every record's previous position becomes its current one. */
    method SettleTouches()
      modifies this`touches
      ensures touches == Settled(old(touches))
    {
      ghost var before := touches;
      var i := 0;
      while i < |touches|
        invariant 0 <= i <= |touches| == |before|
        invariant forall k :: 0 <= k < i ==> touches[k] == Settle(before[k])
        invariant forall k :: i <= k < |touches| ==> touches[k] == before[k]
      {
        touches := touches[i := Settle(touches[i])];
        i := i + 1;
      }
    }
  }
}
