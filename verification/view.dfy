/**
 * The view transform of the map component: the container size, the projection
 * scale and the origin (the pixel onto which the projection's geographic
 * centre is drawn), with the pure update rules that act on it.
 */
module View {
  import opened Geometry

  /** Fraction by which one wheel event shrinks or grows the scale. */
  const ZoomSpeed: real := 0.1

  /** Container height per unit of projection scale when the view is set up. */
  const HeightPerScale: real := 4.25

  /**
   * `width` and `height` are the container's integer pixel size; `mapX` and
   * `mapY` are the origin.
   */
  datatype ViewState = ViewState(width: nat, height: nat, scale: real, mapX: real, mapY: real)
  {
    function Origin(): Point {
      Point(mapX, mapY)
    }

    /** The centre of the stored container size. */
    function Centre(): Point {
      CentreOf(width, height)
    }
  }

  /**
   * The state the component is constructed with, before it is mounted.  The
   * component starts with a `null` origin, which JavaScript arithmetic treats as 0.
   */
  const Unmounted := ViewState(0, 0, 100.0, 0.0, 0.0)

  /** The centre of a container of the given pixel size. */
  function CentreOf(w: nat, h: nat): Point {
    Point(w as real / 2.0, h as real / 2.0)
  }

  /**
   * Where a geographic point is drawn.  `u` is the point's Mercator image
   * relative to the image of the projection centre (0, 42N), y pointing down,
   * at unit scale; the transform scales it and moves it to the origin.
   */
  function Project(v: ViewState, u: Point): Point {
    Add(v.Origin(), Times(v.scale, u))
  }

  /** The unit-scale plane point drawn at pixel `p`; only a non-degenerate view has one. */
  function Unproject(v: ViewState, p: Point): (u: Point)
    requires v.scale != 0.0
    ensures Project(v, u) == p
  {
    var u := Times(1.0 / v.scale, Sub(p, v.Origin()));
    assert v.scale * (1.0 / v.scale) == 1.0;
    assert v.scale * u.x == p.x - v.mapX;
    assert v.scale * u.y == p.y - v.mapY;
    u
  }

  /** A non-degenerate view draws distinct plane points at distinct pixels. */
  lemma ProjectInjective(v: ViewState, u: Point, u': Point)
    requires v.scale != 0.0
    requires Project(v, u) == Project(v, u')
    ensures u == u'
  {
  }

  /** Sets the view up for a container of size `w` by `h` (`initMapState`). */
  function InitMapState(w: nat, h: nat): (v: ViewState)
    ensures v.width == w && v.height == h
    ensures v.Origin() == v.Centre()
    ensures Project(v, Zero) == CentreOf(w, h)
    ensures v.scale * HeightPerScale == h as real
    ensures v.scale >= 0.0
    ensures v.scale > 0.0 <==> h > 0
  {
    ViewState(w, h, h as real / HeightPerScale, w as real / 2.0, h as real / 2.0)
  }

  /** Multiplies the scale by `amount` (`zoom`); the origin and size stay. */
  function Zoom(v: ViewState, amount: real): (r: ViewState)
    ensures r.width == v.width && r.height == v.height && r.Origin() == v.Origin()
    ensures amount > 0.0 ==> (r.scale > 0.0 <==> v.scale > 0.0)
    ensures amount > 0.0 ==> (r.scale == 0.0 <==> v.scale == 0.0)
  {
    v.(scale := v.scale * amount)
  }

  /** Zooming stretches every drawn point's offset from the origin by the zoom amount. */
  lemma ZoomAboutOrigin(v: ViewState, amount: real, u: Point)
    ensures Sub(Project(Zoom(v, amount), u), v.Origin()) == Times(amount, Sub(Project(v, u), v.Origin()))
  {
  }

  /** Shifts the origin by (dx, dy) (`translate`); size and scale stay. */
  function Translate(v: ViewState, dx: real, dy: real): (r: ViewState)
    ensures r.width == v.width && r.height == v.height && r.scale == v.scale
    ensures r.Origin() == Add(v.Origin(), Point(dx, dy))
  {
    v.(mapX := v.mapX + dx, mapY := v.mapY + dy)
  }

  /** Translating moves every drawn point by the same shift. */
  lemma TranslateMovesAll(v: ViewState, dx: real, dy: real, u: Point)
    ensures Project(Translate(v, dx, dy), u) == Add(Project(v, u), Point(dx, dy))
  {
  }

  /** Puts the origin at (x, y) (`moveTo`). */
  function MoveTo(v: ViewState, x: real, y: real): (r: ViewState)
    ensures r.width == v.width && r.height == v.height && r.scale == v.scale
    ensures Project(r, Zero) == Point(x, y)
  {
    v.(mapX := x, mapY := y)
  }

  /** Moving to a point is translating by the distance to it. */
  lemma MoveToIsTranslate(v: ViewState, x: real, y: real)
    ensures MoveTo(v, x, y) == Translate(v, x - v.mapX, y - v.mapY)
  {
  }

  /** Translating twice is translating once by the sum of the shifts. */
  lemma TranslateTwice(v: ViewState, dx: real, dy: real, dx': real, dy': real)
    ensures Translate(Translate(v, dx, dy), dx', dy') == Translate(v, dx + dx', dy + dy')
  {
  }

  /**
   * `translate` and `zoom` write disjoint parts of the state, so the order in
   * which one event applies them does not matter.
   */
  lemma TranslateZoomCommute(v: ViewState, dx: real, dy: real, amount: real)
    ensures Zoom(Translate(v, dx, dy), amount) == Translate(Zoom(v, amount), dx, dy)
  {
  }

  /** The scale factor of one wheel event: shrink when scrolling down, grow otherwise. */
  function WheelFactor(deltaY: real): (f: real)
    ensures f == 1.0 - ZoomSpeed || f == 1.0 + ZoomSpeed
    ensures f < 1.0 <==> deltaY > 0.0
    ensures f > 0.0
  {
    if deltaY > 0.0 then 1.0 - ZoomSpeed else 1.0 + ZoomSpeed
  }

  /**
   * One wheel event on a container of size `w` by `h` (`onWheel`).  Both the
   * shift and the new scale are computed from the state before the event.
   */
  function WheelStep(v: ViewState, deltaY: real, w: nat, h: nat): (r: ViewState)
    ensures r.width == v.width && r.height == v.height
    ensures r.scale == v.scale * WheelFactor(deltaY)
  {
    var f := WheelFactor(deltaY);
    var c := CentreOf(w, h);
    var dx := (c.x - v.mapX) * (f - 1.0);
    var dy := (c.y - v.mapY) * (f - 1.0);
    Zoom(Translate(v, -dx, -dy), f)
  }

  /**
   * A wheel event scales every drawn point about the container centre by the
   * wheel factor: the zoom is anchored at the centre.
   */
  lemma WheelAnchorsCentre(v: ViewState, deltaY: real, w: nat, h: nat, u: Point)
    ensures Sub(Project(WheelStep(v, deltaY, w, h), u), CentreOf(w, h))
         == Times(WheelFactor(deltaY), Sub(Project(v, u), CentreOf(w, h)))
  {
  }

  /** The point drawn at the container centre before a wheel event is still drawn there after it. */
  lemma WheelKeepsCentre(v: ViewState, deltaY: real, w: nat, h: nat, u: Point)
    requires Project(v, u) == CentreOf(w, h)
    ensures Project(WheelStep(v, deltaY, w, h), u) == CentreOf(w, h)
  {
  }

  /**
   * Scrolling up then down does not restore the view: the scale ends at 99/100
   * of where it started, and so does every drawn point's distance from the centre.
   */
  lemma WheelUpThenDown(v: ViewState, w: nat, h: nat, u: Point)
    ensures WheelStep(WheelStep(v, -1.0, w, h), 1.0, w, h).scale == v.scale * 0.99
    ensures Sub(Project(WheelStep(WheelStep(v, -1.0, w, h), 1.0, w, h), u), CentreOf(w, h))
         == Times(0.99, Sub(Project(v, u), CentreOf(w, h)))
    ensures v.scale > 0.0 ==> WheelStep(WheelStep(v, -1.0, w, h), 1.0, w, h).scale < v.scale
  {
  }
}
