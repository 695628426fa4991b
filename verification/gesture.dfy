/**
 * The map component as a whole: its view state and the drag gesture kept
 * beside it, with one transition function per input handler.
 */
module Gesture {
  import opened Geometry
  import opened View

  /** The drag gesture: whether a button is held, and the last pointer position seen. */
  datatype MouseState = MouseState(dragging: bool, x: real, y: real)
  {
    function Pointer(): Point {
      Point(x, y)
    }
  }

  datatype MapComponent = MapComponent(view: ViewState, mouse: MouseState)

  /** The component as constructed: the unmounted view and no drag in progress. */
  const Constructed := MapComponent(Unmounted, MouseState(false, 0.0, 0.0))

  /** Mount or window resize: the view is rebuilt for the measured container (`initMapState`). */
  function OnResize(c: MapComponent, w: nat, h: nat): (r: MapComponent)
    ensures r.mouse == c.mouse
    ensures r.view.width == w && r.view.height == h
    ensures r.view.Origin() == r.view.Centre()
  {
    c.(view := InitMapState(w, h))
  }

  /** A button press at `p` starts a drag from there (`onMouseDown`). */
  function OnMouseDown(c: MapComponent, p: Point): (r: MapComponent)
    ensures r.view == c.view
    ensures r.mouse.dragging && r.mouse.Pointer() == p
  {
    c.(mouse := MouseState(true, p.x, p.y))
  }

  /**
   * The pointer moves to `p` (`onMouseMove`).  While dragging, the origin
   * follows the pointer's displacement since the last position seen.
   */
  function OnMouseMove(c: MapComponent, p: Point): (r: MapComponent)
    ensures !c.mouse.dragging ==> r == c
    ensures c.mouse.dragging ==> r.mouse.dragging && r.mouse.Pointer() == p
    ensures c.mouse.dragging ==>
      r.view.Origin() == Add(c.view.Origin(), Sub(p, c.mouse.Pointer()))
    ensures r.view.width == c.view.width && r.view.height == c.view.height
    ensures r.view.scale == c.view.scale
  {
    if !c.mouse.dragging then c
    else
      var last := c.mouse.Pointer();
      var mouse := MouseState(true, p.x, p.y);
      MapComponent(Translate(c.view, mouse.x - last.x, mouse.y - last.y), mouse)
  }

  /**
   * Button release (`onMouseUp`) and the pointer leaving the map
   * (`onMouseLeave`) share one handler: it ends any drag and changes nothing else.
   */
  function OnRelease(c: MapComponent): (r: MapComponent)
    ensures !r.mouse.dragging
    ensures r.view == c.view && r.mouse.Pointer() == c.mouse.Pointer()
  {
    c.(mouse := c.mouse.(dragging := false))
  }

  /** A wheel event on a container measured as `w` by `h` (`onWheel`); the drag is untouched. */
  function OnWheel(c: MapComponent, deltaY: real, w: nat, h: nat): (r: MapComponent)
    ensures r.mouse == c.mouse
    ensures c.view.scale > 0.0 ==> r.view.scale > 0.0
    ensures c.view.scale == 0.0 ==> r.view.scale == 0.0
  {
    c.(view := WheelStep(c.view, deltaY, w, h))
  }
}
