/**
 * The `zoom` and `offset` state of `InteractiveMap`, `applyOffsetConstraints`,
 * and the transform each handler of the component produces.  A logical point `p` is drawn at
 * `p * zoom + offset` (the group transform `translate(offset) scale(zoom)`).
 */
module MapTransform {
  import opened MapProjection

  const MinZoom: real := 0.5
  const MaxZoom: real := 12.0
  const InitialZoom: real := 1.5
  /** How far past the canvas edge the offset may go. */
  const Slack: real := 200.0
  const WheelScale: real := 1.15
  const KeyZoomStep: real := 1.2
  const ButtonZoomStep: real := 1.5
  const ArrowStep: real := 40.0

  datatype Transform = Transform(zoom: real, offset: Point)

  /** `Math.min` and `Math.max`. */
  function Min(a: real, b: real): real { if a <= b then a else b }
  function Max(a: real, b: real): real { if a >= b then a else b }

  predicate ZoomInRange(z: real) {
    MinZoom <= z <= MaxZoom
  }

  /** The offsets the clamp allows at zoom `zoom`. */
  predicate InClampBox(o: Point, zoom: real) {
    && CanvasWidth * (1.0 - zoom) - Slack <= o.x <= 0.0 + Slack
    && CanvasHeight * (1.0 - zoom) - Slack <= o.y <= 0.0 + Slack
  }

  /** One coordinate of `applyOffsetConstraints`. */
  function ClampAxis(v: real, extent: real, zoom: real): real {
    Min(Max(v, extent * (1.0 - zoom) - Slack), 0.0 + Slack)
  }

  /** `applyOffsetConstraints`. */
  function Clamp(o: Point, zoom: real): (r: Point)
    ensures zoom >= MinZoom ==> InClampBox(r, zoom)
    ensures InClampBox(o, zoom) ==> r == o
  {
    Point(ClampAxis(o.x, CanvasWidth, zoom), ClampAxis(o.y, CanvasHeight, zoom))
  }

  /** For a reachable zoom the clamp leaves exactly the offsets of its box alone. */
  lemma ClampIdentityIff(o: Point, zoom: real)
    requires zoom >= MinZoom
    ensures Clamp(o, zoom) == o <==> InClampBox(o, zoom)
  {
  }

  /** Clamping twice is clamping once, at every zoom (below 0.5 the x bounds
      cross and every x is pinned to the upper bound). */
  lemma ClampIdempotent(o: Point, zoom: real)
    ensures Clamp(Clamp(o, zoom), zoom) == Clamp(o, zoom)
  {
  }

  /** The clamp moves each coordinate no farther than any point of the box is. */
  lemma ClampIsNearest(o: Point, q: Point, zoom: real)
    requires zoom >= MinZoom && InClampBox(q, zoom)
    ensures Abs(Clamp(o, zoom).x - o.x) <= Abs(q.x - o.x)
    ensures Abs(Clamp(o, zoom).y - o.y) <= Abs(q.y - o.y)
  {
  }

  function Abs(a: real): real { if a < 0.0 then -a else a }

  /** Zooming in only widens the box. */
  lemma ClampBoxesNested(o: Point, z1: real, z2: real)
    requires z1 <= z2 && InClampBox(o, z1)
    ensures InClampBox(o, z2)
  {
  }

  /** The invariant every interaction keeps: the zoom within its bounds and the
      offset inside the box of the largest zoom.  The keyboard and button zooms
      do not re-clamp, so the box of the current zoom is not kept. */
  predicate Reachable(t: Transform) {
    ZoomInRange(t.zoom) && InClampBox(t.offset, MaxZoom)
  }

  /** The state the viewport is mounted in before its first recentring. */
  lemma MountedStateReachable()
    ensures Reachable(Transform(InitialZoom, Point(0.0, 0.0)))
  {
  }

  /** Where the transform draws logical point `p`. */
  function ScreenOf(t: Transform, p: Point): Point {
    Point(p.x * t.zoom + t.offset.x, p.y * t.zoom + t.offset.y)
  }

  /** The logical point the transform draws at view-box point `s`. */
  function LogicalUnder(t: Transform, s: Point): (p: Point)
    requires t.zoom != 0.0
    ensures ScreenOf(t, p) == s
  {
    Point((s.x - t.offset.x) / t.zoom, (s.y - t.offset.y) / t.zoom)
  }

  /** A transform with non-zero zoom draws only one logical point at each place. */
  lemma LogicalUnderUnique(t: Transform, p: Point, s: Point)
    requires t.zoom != 0.0 && ScreenOf(t, p) == s
    ensures LogicalUnder(t, s) == p
  {
    assert p.x * t.zoom == s.x - t.offset.x;
    assert p.y * t.zoom == s.y - t.offset.y;
  }

  /** The saturation `Math.min(Math.max(z, 0.5), 12)`. */
  function SaturateZoom(z: real): (r: real)
    ensures ZoomInRange(r)
    ensures ZoomInRange(z) ==> r == z
    ensures z < MinZoom ==> r == MinZoom
    ensures z > MaxZoom ==> r == MaxZoom
  {
    Min(Max(z, MinZoom), MaxZoom)
  }

  /** The offset that keeps view point `s` still when the zoom is multiplied
      by `factor`: `offset + (s - offset) * (1 - factor)`. */
  function ZoomAbout(o: Point, s: Point, factor: real): Point {
    Point(o.x + (s.x - o.x) * (1.0 - factor), o.y + (s.y - o.y) * (1.0 - factor))
  }

  /** Zoom toward the cursor: the logical point under `s` is still under `s`
      after multiplying the zoom by `factor` and moving the offset by ZoomAbout. */
  lemma ZoomAboutFixesPoint(t: Transform, s: Point, factor: real)
    requires t.zoom != 0.0
    ensures ScreenOf(Transform(t.zoom * factor, ZoomAbout(t.offset, s, factor)),
                     LogicalUnder(t, s)) == s
  {
    var p := LogicalUnder(t, s);
    assert p.x * t.zoom == s.x - t.offset.x;
    assert p.y * t.zoom == s.y - t.offset.y;
    assert p.x * (t.zoom * factor) == (s.x - t.offset.x) * factor;
    assert p.y * (t.zoom * factor) == (s.y - t.offset.y) * factor;
  }

  /** The zoom multiplier of one wheel notch: scrolling down zooms out. */
  function WheelFactor(deltaY: real): (f: real)
    ensures deltaY > 0.0 ==> f * WheelScale == 1.0
    ensures deltaY <= 0.0 ==> f == WheelScale
  {
    if deltaY > 0.0 then 1.0 / WheelScale else WheelScale
  }

  /** `handleWheel` at view point `s`.  The offset moves by the unsaturated
      factor even when the zoom saturates. */
  function Wheel(t: Transform, s: Point, deltaY: real): (r: Transform)
    ensures ZoomInRange(r.zoom)
    ensures Reachable(r)
    ensures r.zoom == SaturateZoom(t.zoom * WheelFactor(deltaY))
    ensures r.offset == Clamp(ZoomAbout(t.offset, s, WheelFactor(deltaY)), r.zoom)
  {
    var delta := WheelFactor(deltaY);
    var nextZoom := SaturateZoom(t.zoom * delta);
    var moved := Clamp(ZoomAbout(t.offset, s, delta), nextZoom);
    ClampBoxesNested(moved, nextZoom, MaxZoom);
    Transform(nextZoom, moved)
  }

  /** When the wheel zoom does not saturate and the clamp does not bite, the
      point under the cursor stays under the cursor. */
  lemma WheelFixedPoint(t: Transform, s: Point, deltaY: real)
    requires t.zoom != 0.0
    requires ZoomInRange(t.zoom * WheelFactor(deltaY))
    requires InClampBox(ZoomAbout(t.offset, s, WheelFactor(deltaY)), t.zoom * WheelFactor(deltaY))
    ensures ScreenOf(Wheel(t, s, deltaY), LogicalUnder(t, s)) == s
  {
    ZoomAboutFixesPoint(t, s, WheelFactor(deltaY));
  }

  /** At the largest zoom a further wheel zoom-in keeps the zoom but still
      shifts the offset, so the point under the cursor drifts away from it. */
  lemma WheelSaturatedDrift(t: Transform, s: Point, deltaY: real)
    requires t.zoom == MaxZoom && deltaY <= 0.0 && s.x != t.offset.x
    requires InClampBox(ZoomAbout(t.offset, s, WheelScale), MaxZoom)
    ensures Wheel(t, s, deltaY).zoom == t.zoom
    ensures ScreenOf(Wheel(t, s, deltaY), LogicalUnder(t, s)).x != s.x
  {
    var r := Wheel(t, s, deltaY);
    assert r.offset == ZoomAbout(t.offset, s, WheelScale);
    var p := LogicalUnder(t, s);
    assert p.x * MaxZoom + t.offset.x == s.x;
  }

  /** `handleDoubleClick` at view point `s`: double the zoom up to 12 and move
      the offset as for a 2x zoom, saturated or not. */
  function DoubleClick(t: Transform, s: Point): (r: Transform)
    ensures r.zoom == Min(2.0 * t.zoom, MaxZoom)
    ensures Reachable(t) ==> Reachable(r)
  {
    var nextZoom := Min(t.zoom * 2.0, MaxZoom);
    var moved := Clamp(ZoomAbout(t.offset, s, 2.0), nextZoom);
    if Reachable(t) then
      ClampBoxesNested(moved, nextZoom, MaxZoom);
      Transform(nextZoom, moved)
    else
      Transform(nextZoom, moved)
  }

  /** The double-click offset is the clamp of `2 * offset - s`. */
  lemma DoubleClickOffset(t: Transform, s: Point)
    ensures DoubleClick(t, s).offset
         == Clamp(Point(2.0 * t.offset.x - s.x, 2.0 * t.offset.y - s.y), DoubleClick(t, s).zoom)
  {
  }

  /** When doubling does not pass 12 and the clamp does not bite, the point
      under the cursor stays under the cursor. */
  lemma DoubleClickFixedPoint(t: Transform, s: Point)
    requires t.zoom != 0.0 && 2.0 * t.zoom <= MaxZoom
    requires InClampBox(ZoomAbout(t.offset, s, 2.0), 2.0 * t.zoom)
    ensures ScreenOf(DoubleClick(t, s), LogicalUnder(t, s)) == s
  {
    ZoomAboutFixesPoint(t, s, 2.0);
  }

  /** At the largest zoom a double-click keeps the zoom but shifts the offset. */
  lemma DoubleClickAtMaxShifts(t: Transform, s: Point)
    requires t.zoom == MaxZoom && s.x != t.offset.x
    requires InClampBox(ZoomAbout(t.offset, s, 2.0), MaxZoom)
    ensures DoubleClick(t, s).zoom == t.zoom
    ensures DoubleClick(t, s).offset != t.offset
  {
  }

  /** The pan of one mouse move by `d` logical units, clamped at the current zoom. */
  function Pan(t: Transform, d: Point): (r: Transform)
    ensures r.zoom == t.zoom
    ensures r.offset == Clamp(Point(t.offset.x + d.x, t.offset.y + d.y), t.zoom)
    ensures Reachable(t) ==> Reachable(r)
  {
    var moved := Clamp(Point(t.offset.x + d.x, t.offset.y + d.y), t.zoom);
    if Reachable(t) then
      ClampBoxesNested(moved, t.zoom, MaxZoom);
      Transform(t.zoom, moved)
    else
      Transform(t.zoom, moved)
  }

  /** Dragging moves the whole drawing with the pointer: when the clamp does not
      bite, every logical point is drawn `d` further along. */
  lemma PanMovesDrawing(t: Transform, d: Point, p: Point)
    requires InClampBox(Point(t.offset.x + d.x, t.offset.y + d.y), t.zoom)
    ensures ScreenOf(Pan(t, d), p) == Point(ScreenOf(t, p).x + d.x, ScreenOf(t, p).y + d.y)
  {
  }

  /** A zoom step by `factor` up to 12, leaving the offset as it is. */
  function ZoomInBy(t: Transform, factor: real): (r: Transform)
    requires factor >= 1.0
    ensures r.offset == t.offset
    ensures r.zoom == Min(t.zoom * factor, MaxZoom)
    ensures r.zoom <= MaxZoom
    ensures Reachable(t) ==> Reachable(r)
  {
    var up := t.zoom * factor;
    if up <= MaxZoom then Transform(up, t.offset) else Transform(MaxZoom, t.offset)
  }

  /** A zoom-in step never lowers a zoom within bounds. */
  lemma ZoomInByGrows(t: Transform, factor: real)
    requires factor >= 1.0 && 0.0 <= t.zoom <= MaxZoom
    ensures t.zoom <= ZoomInBy(t, factor).zoom
  {
    var up := t.zoom * factor;
    assert up == t.zoom + t.zoom * (factor - 1.0);
    assert t.zoom * (factor - 1.0) >= 0.0;
    assert t.zoom <= up;
  }

  /** A zoom step by `1 / factor` down to 0.5, leaving the offset as it is. */
  function ZoomOutBy(t: Transform, factor: real): (r: Transform)
    requires factor >= 1.0
    ensures r.offset == t.offset
    ensures r.zoom == Max(t.zoom / factor, MinZoom)
    ensures r.zoom >= MinZoom
    ensures t.zoom >= MinZoom ==> r.zoom <= t.zoom
    ensures Reachable(t) ==> Reachable(r)
  {
    Transform(Max(t.zoom / factor, MinZoom), t.offset)
  }

  /** A zoom-out step undoes a zoom-in step that did not saturate. */
  lemma ZoomInOutRoundTrip(t: Transform, factor: real)
    requires factor >= 1.0 && MinZoom <= t.zoom && t.zoom * factor <= MaxZoom
    ensures ZoomOutBy(ZoomInBy(t, factor), factor) == t
  {
    var up := ZoomInBy(t, factor);
    UnsaturatedZoomIn(t, factor);
    DivideUndoesMultiply(t.zoom, factor);
    assert up.zoom / factor == t.zoom;
    var down := ZoomOutBy(up, factor);
    assert down.zoom == t.zoom && down.offset == t.offset;
  }

  /** Below the cap the zoom-in step is the plain product. */
  lemma UnsaturatedZoomIn(t: Transform, factor: real)
    requires factor >= 1.0 && t.zoom * factor <= MaxZoom
    ensures ZoomInBy(t, factor).zoom == t.zoom * factor
  {
  }

  /** Division by a factor of at least 1 undoes multiplication by it. */
  lemma DivideUndoesMultiply(z: real, factor: real)
    requires factor >= 1.0
    ensures (z * factor) / factor == z
  {
  }

  /** `handleKeyDown`: `+`/`-` step the zoom by 1.2 without re-clamping, the
      arrows pan by 40 logical units and re-clamp, other keys do nothing. */
  function KeyDown(t: Transform, key: string): (r: Transform)
    ensures Reachable(t) ==> Reachable(r)
  {
    if key == "+" then ZoomInBy(t, KeyZoomStep)
    else if key == "-" then ZoomOutBy(t, KeyZoomStep)
    else if key == "ArrowUp" then Pan(t, Point(0.0, ArrowStep))
    else if key == "ArrowDown" then Pan(t, Point(0.0, -ArrowStep))
    else if key == "ArrowLeft" then Pan(t, Point(ArrowStep, 0.0))
    else if key == "ArrowRight" then Pan(t, Point(-ArrowStep, 0.0))
    else t
  }

  /** The four keys that pan. */
  predicate IsArrowKey(key: string) {
    key == "ArrowUp" || key == "ArrowDown" || key == "ArrowLeft" || key == "ArrowRight"
  }

  /** The zoom keys change the zoom only and never touch the offset. */
  lemma KeyZoomKeepsOffset(t: Transform, key: string)
    requires key == "+" || key == "-"
    ensures KeyDown(t, key).offset == t.offset
    ensures key == "+" ==> KeyDown(t, key).zoom == Min(t.zoom * KeyZoomStep, MaxZoom)
    ensures key == "-" ==> KeyDown(t, key).zoom == Max(t.zoom / KeyZoomStep, MinZoom)
  {
  }

  /** An arrow key keeps the zoom, and when the clamp does not bite moves the
      offset by exactly 40 in the key's direction. */
  lemma ArrowKeyStep(t: Transform, key: string)
    requires IsArrowKey(key)
    ensures KeyDown(t, key).zoom == t.zoom
    ensures var o := t.offset;
            && ((key == "ArrowUp" && InClampBox(Point(o.x, o.y + 40.0), t.zoom))
                ==> KeyDown(t, key).offset == Point(o.x, o.y + 40.0))
            && ((key == "ArrowDown" && InClampBox(Point(o.x, o.y - 40.0), t.zoom))
                ==> KeyDown(t, key).offset == Point(o.x, o.y - 40.0))
            && ((key == "ArrowLeft" && InClampBox(Point(o.x + 40.0, o.y), t.zoom))
                ==> KeyDown(t, key).offset == Point(o.x + 40.0, o.y))
            && ((key == "ArrowRight" && InClampBox(Point(o.x - 40.0, o.y), t.zoom))
                ==> KeyDown(t, key).offset == Point(o.x - 40.0, o.y))
  {
  }

  /** Every key other than the six handled ones leaves the transform alone. */
  lemma OtherKeysIgnored(t: Transform, key: string)
    requires key != "+" && key != "-" && !IsArrowKey(key)
    ensures KeyDown(t, key) == t
  {
  }

  /** Because the zoom keys skip the clamp, zooming out can leave the offset
      outside the box of the new zoom: from zoom 12 at offset (-9000, 200). */
  lemma KeyZoomOutLeavesBox()
    ensures var t := Transform(MaxZoom, Point(-9000.0, 200.0));
            Reachable(t) && InClampBox(t.offset, t.zoom)
            && !InClampBox(KeyDown(t, "-").offset, KeyDown(t, "-").zoom)
  {
    var t := Transform(MaxZoom, Point(-9000.0, 200.0));
    assert KeyDown(t, "-").zoom == 10.0;
  }

  /** The transform of the recentre effect and of the reset button: zoom 1.5
      and the target moved to the centre of the view box, then clamped. */
  function Recentred(target: Point): (r: Transform)
    ensures Reachable(r)
    ensures r.zoom == InitialZoom
    ensures r.offset == Clamp(Point(400.0 - target.x * InitialZoom, 200.0 - target.y * InitialZoom), InitialZoom)
  {
    var moved := Clamp(Point(400.0 - target.x * InitialZoom, 200.0 - target.y * InitialZoom), InitialZoom);
    ClampBoxesNested(moved, InitialZoom, MaxZoom);
    Transform(InitialZoom, moved)
  }

  /** When the clamp does not bite, the recentred target is drawn at the
      centre of the view box. */
  lemma RecentredTargetAtCentre(target: Point)
    requires InClampBox(Point(400.0 - target.x * InitialZoom, 200.0 - target.y * InitialZoom), InitialZoom)
    ensures ScreenOf(Recentred(target), target) == Point(CanvasWidth / 2.0, CanvasHeight / 2.0)
  {
  }

  /** An example: recentred on the location (1.29, 103.85), the marker is at the
      view centre, and one wheel notch of zoom-in there leaves it at the centre. */
  lemma SingaporeWheelScenario()
    ensures var target := Project(1.29, 103.85);
            var centre := Point(CanvasWidth / 2.0, CanvasHeight / 2.0);
            var t := Recentred(target);
            && ScreenOf(t, target) == centre
            && ScreenOf(Wheel(t, centre, -1.0), target) == centre
  {
    SingaporeProjection();
    var target := Project(1.29, 103.85);
    var centre := Point(CanvasWidth / 2.0, CanvasHeight / 2.0);
    RecentredTargetAtCentre(target);
    var t := Recentred(target);
    assert LogicalUnder(t, centre) == target;
    WheelFixedPoint(t, centre, -1.0);
  }
}
