/**
 * The state of `InteractiveMap` and its event handlers (`handleWheel`,
 * `handleMouseDown`, `handleMouseMove`, `handleDoubleClick`, `handleKeyDown`,
 * the window's mouse-up listener, the zoom buttons, `handleReset`, the
 * recentre effect and the region callbacks), one method per handler.
 * The element's bounding rectangle is a parameter; `None` stands for the
 * container reference not being attached yet.
 */
module MapViewport {
  import opened Wrappers
  import opened MapProjection
  import opened MapTransform
  import opened MapRegions

  /** The element's bounding client rectangle, in screen pixels. */
  datatype Rect = Rect(left: real, top: real, width: real, height: real)

  /** A rectangle the browser has laid out with a positive size. */
  predicate LaidOut(r: Rect) {
    r.width > 0.0 && r.height > 0.0
  }

  /** A container that is absent or laid out. */
  predicate Measurable(container: Option<Rect>) {
    container.Some? ==> LaidOut(container.value)
  }

  /** The point the handlers compute from screen point (clientX, clientY): the
      container rectangle stretched onto the 800 x 400 view box. */
  function ViewBoxPoint(r: Rect, clientX: real, clientY: real): Point
    requires LaidOut(r)
  {
    Point((clientX - r.left) / r.width * 800.0, (clientY - r.top) / r.height * 400.0)
  }

  /** Scaling the view-box point back to the rectangle recovers the screen point. */
  lemma ViewBoxPointInverse(r: Rect, clientX: real, clientY: real)
    requires LaidOut(r)
    ensures var p := ViewBoxPoint(r, clientX, clientY);
            r.left + p.x * r.width / CanvasWidth == clientX
            && r.top + p.y * r.height / CanvasHeight == clientY
  {
    var p := ViewBoxPoint(r, clientX, clientY);
    assert p.x * r.width / CanvasWidth == (clientX - r.left) / r.width * r.width;
    assert p.y * r.height / CanvasHeight == (clientY - r.top) / r.height * r.height;
  }

  /** The pointer's movement from (fromX, fromY) to (toX, toY), in view-box units. */
  function PointerTravel(r: Rect, fromX: real, fromY: real, toX: real, toY: real): Point
    requires LaidOut(r)
  {
    Point((toX - fromX) * (800.0 / r.width), (toY - fromY) * (400.0 / r.height))
  }

  /** Pointer travel is the change of the computed view-box point, so a pan
      keeps the grabbed world point at the computed pointer point. */
  lemma PointerTravelIsViewBoxChange(r: Rect, fromX: real, fromY: real, toX: real, toY: real)
    requires LaidOut(r)
    ensures PointerTravel(r, fromX, fromY, toX, toY).x
         == ViewBoxPoint(r, toX, toY).x - ViewBoxPoint(r, fromX, fromY).x
    ensures PointerTravel(r, fromX, fromY, toX, toY).y
         == ViewBoxPoint(r, toX, toY).y - ViewBoxPoint(r, fromX, fromY).y
  {
  }

  /** Dragging while the clamp does not bite keeps the grabbed world point at
      the computed pointer point. */
  lemma DragKeepsGrabbedPoint(t: Transform, r: Rect, fromX: real, fromY: real, toX: real, toY: real)
    requires LaidOut(r) && t.zoom != 0.0
    requires var d := PointerTravel(r, fromX, fromY, toX, toY);
             InClampBox(Point(t.offset.x + d.x, t.offset.y + d.y), t.zoom)
    ensures LogicalUnder(Pan(t, PointerTravel(r, fromX, fromY, toX, toY)), ViewBoxPoint(r, toX, toY))
         == LogicalUnder(t, ViewBoxPoint(r, fromX, fromY))
  {
    var d := PointerTravel(r, fromX, fromY, toX, toY);
    var grabbed := LogicalUnder(t, ViewBoxPoint(r, fromX, fromY));
    var after := Pan(t, d);
    PanMovesDrawing(t, d, grabbed);
    PointerTravelIsViewBoxChange(r, fromX, fromY, toX, toY);
    assert ScreenOf(after, grabbed) == ViewBoxPoint(r, toX, toY);
    LogicalUnderUnique(after, grabbed, ViewBoxPoint(r, toX, toY));
  }

  /** The rectangle's corners are the view box's corners. */
  lemma ViewBoxCorners(r: Rect)
    requires LaidOut(r)
    ensures ViewBoxPoint(r, r.left, r.top) == Point(0.0, 0.0)
    ensures ViewBoxPoint(r, r.left + r.width, r.top + r.height) == Point(CanvasWidth, CanvasHeight)
  {
    assert (r.left + r.width) - r.left == r.width;
    assert (r.top + r.height) - r.top == r.height;
    assert r.width / r.width == 1.0 && r.height / r.height == 1.0;
  }

  class Viewport {
    var zoom: real
    var offsetX: real
    var offsetY: real
    var isPanning: bool
    /** The screen position of the last pan step (`lastMousePos`). */
    var lastX: real
    var lastY: real
    /** The pointer in view-box units (`mouseCoords`). */
    var mouseX: real
    var mouseY: real
    var hovered: Option<string>
    /** The incident location the component was last given (`lat`, `lng`). */
    var targetLat: real
    var targetLng: real

    /** The transform the world group is drawn with. */
    function View(): Transform
      reads this
    {
      Transform(zoom, Point(offsetX, offsetY))
    }

    ghost predicate Valid()
      reads this
    {
      Reachable(View())
    }

    /** Mounting: the initial state, immediately replaced by the first run of
        the recentre effect on the given location. */
    constructor (lat: real, lng: real)
      ensures Valid()
      ensures View() == Recentred(Project(lat, lng))
      ensures !isPanning && lastX == 0.0 && lastY == 0.0
      ensures mouseX == 0.0 && mouseY == 0.0 && hovered == None
      ensures targetLat == lat && targetLng == lng
    {
      zoom := 1.5;
      offsetX, offsetY := 0.0, 0.0;
      isPanning := false;
      lastX, lastY := 0.0, 0.0;
      hovered := None;
      mouseX, mouseY := 0.0, 0.0;
      targetLat, targetLng := lat, lng;
      new;
      var target := Project(lat, lng);
      var initial := Clamp(Point(400.0 - target.x * 1.5, 200.0 - target.y * 1.5), 1.5);
      offsetX, offsetY := initial.x, initial.y;
      zoom := 1.5;
    }

    /** `handleWheel`: zoom by 1.15 per notch toward the cursor. */
    method HandleWheel(container: Option<Rect>, clientX: real, clientY: real, deltaY: real)
      requires Valid() && Measurable(container)
      modifies this`zoom, this`offsetX, this`offsetY
      ensures Valid()
      ensures container.None? ==> View() == old(View())
      ensures container.Some? ==>
                View() == Wheel(old(View()), ViewBoxPoint(container.value, clientX, clientY), deltaY)
    {
      if container.None? {
        return;
      }
      var svg := ViewBoxPoint(container.value, clientX, clientY);
      var delta := WheelFactor(deltaY);
      var nextZoom := SaturateZoom(zoom * delta);
      var constrained := Clamp(ZoomAbout(Point(offsetX, offsetY), svg, delta), nextZoom);
      ghost var before := View();
      zoom := nextZoom;
      offsetX, offsetY := constrained.x, constrained.y;
      assert View() == Wheel(before, svg, deltaY);
    }

    /** `handleMouseDown`: start panning from the pointer. */
    method HandleMouseDown(clientX: real, clientY: real)
      requires Valid()
      modifies this`isPanning, this`lastX, this`lastY
      ensures Valid()
      ensures isPanning && lastX == clientX && lastY == clientY
    {
      isPanning := true;
      lastX, lastY := clientX, clientY;
    }

    /** `handleDoubleClick`: a 2x zoom toward the cursor. */
    method HandleDoubleClick(container: Option<Rect>, clientX: real, clientY: real)
      requires Valid() && Measurable(container)
      modifies this`zoom, this`offsetX, this`offsetY
      ensures Valid()
      ensures container.None? ==> View() == old(View())
      ensures container.Some? ==>
                View() == DoubleClick(old(View()), ViewBoxPoint(container.value, clientX, clientY))
    {
      if container.None? {
        return;
      }
      var svg := ViewBoxPoint(container.value, clientX, clientY);
      var nextZoom := Min(zoom * 2.0, MaxZoom);
      var constrained := Clamp(ZoomAbout(Point(offsetX, offsetY), svg, 2.0), nextZoom);
      ghost var before := View();
      zoom := nextZoom;
      offsetX, offsetY := constrained.x, constrained.y;
      assert View() == DoubleClick(before, svg);
    }

    /** `handleMouseMove`: always track the pointer; while panning, move the
        offset by the pointer's movement in view-box units, clamped at the
        current zoom, and remember the new pointer position. */
    method HandleMouseMove(container: Option<Rect>, clientX: real, clientY: real)
      requires Valid() && Measurable(container)
      modifies this`mouseX, this`mouseY, this`offsetX, this`offsetY, this`lastX, this`lastY
      ensures Valid()
      ensures container.None? ==>
                mouseX == old(mouseX) && mouseY == old(mouseY)
                && View() == old(View()) && lastX == old(lastX) && lastY == old(lastY)
      ensures container.Some? ==>
                Point(mouseX, mouseY) == ViewBoxPoint(container.value, clientX, clientY)
      ensures container.Some? && isPanning ==>
                View() == Pan(old(View()), PointerTravel(container.value, old(lastX), old(lastY), clientX, clientY))
                && lastX == clientX && lastY == clientY
      ensures container.Some? && !isPanning ==>
                View() == old(View()) && lastX == old(lastX) && lastY == old(lastY)
    {
      if container.None? {
        return;
      }
      var rect := container.value;
      var pointer := ViewBoxPoint(rect, clientX, clientY);
      mouseX, mouseY := pointer.x, pointer.y;
      if !isPanning {
        return;
      }
      var delta := PointerTravel(rect, lastX, lastY, clientX, clientY);
      var moved := Pan(View(), delta);
      offsetX, offsetY := moved.offset.x, moved.offset.y;
      lastX, lastY := clientX, clientY;
    }

    /** `up`, the window's mouse-up listener: stop panning, nothing else. */
    method HandleMouseUp()
      requires Valid()
      modifies this`isPanning
      ensures Valid()
      ensures !isPanning
    {
      isPanning := false;
    }

    /** `handleKeyDown`, the window's key listener. */
    method HandleKeyDown(key: string)
      requires Valid()
      modifies this`zoom, this`offsetX, this`offsetY
      ensures Valid()
      ensures View() == KeyDown(old(View()), key)
    {
      if key == "+" {
        zoom := Min(zoom * 1.2, 12.0);
      } else if key == "-" {
        zoom := Max(zoom / 1.2, 0.5);
      } else if key == "ArrowUp" {
        var o := Clamp(Point(offsetX, offsetY + ArrowStep), zoom);
        offsetX, offsetY := o.x, o.y;
      } else if key == "ArrowDown" {
        var o := Clamp(Point(offsetX, offsetY - ArrowStep), zoom);
        offsetX, offsetY := o.x, o.y;
      } else if key == "ArrowLeft" {
        var o := Clamp(Point(offsetX + ArrowStep, offsetY), zoom);
        offsetX, offsetY := o.x, o.y;
      } else if key == "ArrowRight" {
        var o := Clamp(Point(offsetX - ArrowStep, offsetY), zoom);
        offsetX, offsetY := o.x, o.y;
      }
    }

    /** The `+` button: zoom by 1.5 up to 12, offset untouched. */
    method ZoomInButton()
      requires Valid()
      modifies this`zoom
      ensures Valid()
      ensures View() == ZoomInBy(old(View()), ButtonZoomStep)
    {
      zoom := Min(zoom * 1.5, 12.0);
    }

    /** The `-` button: zoom by 1 / 1.5 down to 0.5, offset untouched. */
    method ZoomOutButton()
      requires Valid()
      modifies this`zoom
      ensures Valid()
      ensures View() == ZoomOutBy(old(View()), ButtonZoomStep)
    {
      zoom := Max(zoom / 1.5, 0.5);
    }

    /** `handleReset`: recentre on the current location, whatever the view was. */
    method HandleReset()
      requires Valid()
      modifies this`zoom, this`offsetX, this`offsetY
      ensures Valid()
      ensures View() == Recentred(Project(targetLat, targetLng))
    {
      var target := Project(targetLat, targetLng);
      zoom := 1.5;
      var o := Clamp(Point(400.0 - target.x * 1.5, 200.0 - target.y * 1.5), 1.5);
      offsetX, offsetY := o.x, o.y;
    }

    /** A new location from the caller.  The recentre effect depends on the
        projected target, so it runs only when that point changes. */
    method TargetChanged(lat: real, lng: real)
      requires Valid()
      modifies this`targetLat, this`targetLng, this`zoom, this`offsetX, this`offsetY
      ensures Valid()
      ensures targetLat == lat && targetLng == lng
      ensures Project(lat, lng) != Project(old(targetLat), old(targetLng)) ==>
                View() == Recentred(Project(lat, lng))
      ensures Project(lat, lng) == Project(old(targetLat), old(targetLng)) ==>
                View() == old(View())
    {
      var before := Project(targetLat, targetLng);
      targetLat, targetLng := lat, lng;
      var target := Project(lat, lng);
      if target != before {
        var o := Clamp(Point(400.0 - target.x * 1.5, 200.0 - target.y * 1.5), 1.5);
        offsetX, offsetY := o.x, o.y;
        zoom := 1.5;
      }
    }

    /** `onMouseEnter` of region `i`. */
    method RegionEnter(i: nat)
      requires Valid() && i < |Regions|
      modifies this`hovered
      ensures Valid()
      ensures hovered == Some(Regions[i].id)
    {
      hovered := Some(Regions[i].id);
    }

    /** `onMouseLeave` of any region. */
    method RegionLeave()
      requires Valid()
      modifies this`hovered
      ensures Valid()
      ensures hovered == None
    {
      hovered := None;
    }

    /** `onClick` of region `i`: hands exactly that region's identifier to the
        selection callback when one is given, and changes no state. */
    method RegionClick(i: nat, hasCallback: bool) returns (selected: Option<string>)
      requires i < |Regions|
      ensures selected == (if hasCallback then Some(Regions[i].id) else None)
    {
      selected := if hasCallback then Some(Regions[i].id) else None;
    }
  }

  /** A press and release with no move in between: the view is as before and
      the controller is idle again. */
  method PressAndRelease(v: Viewport, clientX: real, clientY: real)
    requires v.Valid()
    modifies v`isPanning, v`lastX, v`lastY
    ensures v.Valid()
    ensures v.View() == old(v.View()) && !v.isPanning
    ensures v.hovered == old(v.hovered)
  {
    v.HandleMouseDown(clientX, clientY);
    v.HandleMouseUp();
  }

  /** Reset forgets how the view got where it is: resetting twice is resetting once. */
  method ResetTwice(v: Viewport)
    requires v.Valid()
    modifies v`zoom, v`offsetX, v`offsetY
    ensures v.Valid()
    ensures v.targetLat == old(v.targetLat) && v.targetLng == old(v.targetLng)
    ensures v.View() == Recentred(Project(old(v.targetLat), old(v.targetLng)))
  {
    v.HandleReset();
    ghost var once := v.View();
    v.HandleReset();
    assert v.View() == once;
  }
}
