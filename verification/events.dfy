/**
 * Input events as delivered to the component, one at a time, and what any
 * sequence of them does to the view and the drag gesture.
 */
module Events {
  import opened Geometry
  import opened View
  import opened Gesture

  /**
   * The inputs the component reacts to.  `Resize` covers the measurement made
   * on mount as well as on every window resize; a wheel event carries the
   * container size measured when it fires.
   */
  datatype Event =
    | Resize(width: nat, height: nat)
    | MouseDown(at: Point)
    | MouseMove(to: Point)
    | MouseUp
    | MouseLeave
    | Wheel(deltaY: real, containerWidth: nat, containerHeight: nat)

  function Step(c: MapComponent, e: Event): MapComponent {
    match e
    case Resize(w, h) => OnResize(c, w, h)
    case MouseDown(p) => OnMouseDown(c, p)
    case MouseMove(p) => OnMouseMove(c, p)
    case MouseUp => OnRelease(c)
    case MouseLeave => OnRelease(c)
    case Wheel(d, w, h) => OnWheel(c, d, w, h)
  }

  function Run(c: MapComponent, es: seq<Event>): MapComponent
    decreases |es|
  {
    if |es| == 0 then c else Run(Step(c, es[0]), es[1..])
  }

  /** The pointer moving through each point of `ps` in turn. */
  function Moves(ps: seq<Point>): (es: seq<Event>)
    ensures |es| == |ps|
    ensures forall i :: 0 <= i < |ps| ==> es[i] == MouseMove(ps[i])
  {
    if |ps| == 0 then [] else [MouseMove(ps[0])] + Moves(ps[1..])
  }

  /** The last point of `ps`, or `d` when there is none. */
  function LastOr(ps: seq<Point>, d: Point): Point {
    if |ps| == 0 then d else ps[|ps| - 1]
  }

  /** Running two sequences one after the other is running their concatenation. */
  lemma {:induction false} RunAppend(c: MapComponent, a: seq<Event>, b: seq<Event>)
    ensures Run(c, a + b) == Run(Run(c, a), b)
    decreases |a|
  {
    if |a| > 0 {
      assert (a + b)[0] == a[0];
      assert (a + b)[1..] == a[1..] + b;
      RunAppend(Step(c, a[0]), a[1..], b);
    } else {
      assert a + b == b;
    }
  }

  /**
   * Pan linearity: while a drag is in progress, any run of moves shifts the
   * origin by the pointer's total displacement, ends with the pointer at the
   * last position, and leaves size and scale alone.
   */
  lemma {:induction false} DragMovesSum(c: MapComponent, ps: seq<Point>)
    requires c.mouse.dragging
    ensures Run(c, Moves(ps)).mouse == MouseState(true, LastOr(ps, c.mouse.Pointer()).x, LastOr(ps, c.mouse.Pointer()).y)
    ensures Run(c, Moves(ps)).view.Origin()
         == Add(c.view.Origin(), Sub(LastOr(ps, c.mouse.Pointer()), c.mouse.Pointer()))
    ensures Run(c, Moves(ps)).view.width == c.view.width
    ensures Run(c, Moves(ps)).view.height == c.view.height
    ensures Run(c, Moves(ps)).view.scale == c.view.scale
    decreases |ps|
  {
    if |ps| > 0 {
      var es := Moves(ps);
      assert es[1..] == Moves(ps[1..]);
      var c1 := Step(c, es[0]);
      assert LastOr(ps[1..], ps[0]) == LastOr(ps, c.mouse.Pointer());
      DragMovesSum(c1, ps[1..]);
    }
  }

  /**
   * A whole drag: pressing at `p0` and then moving through `ps` shifts the
   * origin by the final pointer position minus `p0`, whatever the path.
   */
  lemma DragGesture(c: MapComponent, p0: Point, ps: seq<Point>)
    ensures Run(c, [MouseDown(p0)] + Moves(ps)).view.Origin()
         == Add(c.view.Origin(), Sub(LastOr(ps, p0), p0))
    ensures Run(c, [MouseDown(p0)] + Moves(ps)).view.scale == c.view.scale
  {
    RunAppend(c, [MouseDown(p0)], Moves(ps));
    DragMovesSum(OnMouseDown(c, p0), ps);
  }

  /** Without a button held, moves change nothing at all. */
  lemma {:induction false} IdleMovesInert(c: MapComponent, ps: seq<Point>)
    requires !c.mouse.dragging
    ensures Run(c, Moves(ps)) == c
    decreases |ps|
  {
    if |ps| > 0 {
      assert Moves(ps)[1..] == Moves(ps[1..]);
      IdleMovesInert(c, ps[1..]);
    }
  }

  /** After a release or the pointer leaving, every later move is a no-op until the next press. */
  lemma ReleaseEndsDrag(c: MapComponent, release: Event, ps: seq<Point>)
    requires release == MouseUp || release == MouseLeave
    ensures Run(c, [release] + Moves(ps)).view == c.view
    ensures !Run(c, [release] + Moves(ps)).mouse.dragging
  {
    RunAppend(c, [release], Moves(ps));
    IdleMovesInert(Step(c, release), ps);
  }

  /**
   * A resize rebuilds the view from the container size alone: whatever pan
   * and zoom came before, the result is the freshly mounted view.
   */
  lemma ResizeResetsView(c: MapComponent, es: seq<Event>, w: nat, h: nat)
    ensures Run(c, es + [Resize(w, h)]).view == InitMapState(w, h)
    ensures Run(c, es + [Resize(w, h)]).mouse == Run(c, es).mouse
  {
    RunAppend(c, es, [Resize(w, h)]);
  }

  /** Every resize in `es` measures a container of positive height. */
  predicate ResizesNonDegenerate(es: seq<Event>) {
    forall i :: 0 <= i < |es| ==> (es[i].Resize? ==> es[i].height > 0)
  }

  /**
   * The scale never goes negative, and stays strictly positive as long as no
   * resize measures a zero-height container.
   */
  lemma {:induction false} ScaleStaysPositive(c: MapComponent, es: seq<Event>)
    requires c.view.scale >= 0.0
    ensures Run(c, es).view.scale >= 0.0
    ensures c.view.scale > 0.0 && ResizesNonDegenerate(es) ==> Run(c, es).view.scale > 0.0
    decreases |es|
  {
    if |es| > 0 {
      var c1 := Step(c, es[0]);
      assert c1.view.scale >= 0.0;
      assert c.view.scale > 0.0 && ResizesNonDegenerate(es) ==> c1.view.scale > 0.0;
      ScaleStaysPositive(c1, es[1..]);
    }
  }

  /** The constructed component has positive scale. */
  lemma ScalePositiveFromConstruction(es: seq<Event>)
    requires ResizesNonDegenerate(es)
    ensures Run(Constructed, es).view.scale > 0.0
  {
    ScaleStaysPositive(Constructed, es);
  }

  /** Once the scale is zero, only a resize can bring it back. */
  lemma {:induction false} ZeroScaleSticks(c: MapComponent, es: seq<Event>)
    requires c.view.scale == 0.0
    requires forall i :: 0 <= i < |es| ==> !es[i].Resize?
    ensures Run(c, es).view.scale == 0.0
    decreases |es|
  {
    if |es| > 0 {
      ZeroScaleSticks(Step(c, es[0]), es[1..]);
    }
  }

  /** Every event in `es` is a wheel event on a container of size `w` by `h`. */
  predicate WheelsAt(es: seq<Event>, w: nat, h: nat) {
    forall i :: 0 <= i < |es| ==> es[i].Wheel? && es[i].containerWidth == w && es[i].containerHeight == h
  }

  /** The factor an event applies to the scale: its wheel factor, or 1 for any other event. */
  function FactorOf(e: Event): real {
    if e.Wheel? then WheelFactor(e.deltaY) else 1.0
  }

  /** The scale factors of the events of `es`, in order. */
  function Factors(es: seq<Event>): (fs: seq<real>)
    ensures |fs| == |es|
    ensures forall i :: 0 <= i < |es| ==> fs[i] == FactorOf(es[i])
  {
    seq(|es|, i requires 0 <= i < |es| => FactorOf(es[i]))
  }

  lemma FactorsTail(es: seq<Event>)
    requires |es| > 0
    ensures Factors(es)[0] == FactorOf(es[0])
    ensures Factors(es)[1..] == Factors(es[1..])
  {
  }

  /**
   * Any run of wheel events multiplies the scale by each event's factor in
   * turn, that is by the product of the factors.  Each event may measure a
   * different container size, since the scale update never reads it.
   */
  lemma {:induction false} WheelsScale(c: MapComponent, es: seq<Event>)
    requires forall i :: 0 <= i < |es| ==> es[i].Wheel?
    ensures Run(c, es).view.scale == ScaleThrough(c.view.scale, Factors(es))
    ensures Run(c, es).view.scale == Product(Factors(es)) * c.view.scale
    ensures Run(c, es).mouse == c.mouse
    decreases |es|
  {
    ScaleThroughProduct(c.view.scale, Factors(es));
    if |es| > 0 {
      var c1 := OnWheel(c, es[0].deltaY, es[0].containerWidth, es[0].containerHeight);
      assert Run(c, es) == Run(c1, es[1..]) by {
        assert es[0] == Wheel(es[0].deltaY, es[0].containerWidth, es[0].containerHeight);
      }
      FactorsTail(es);
      assert ScaleThrough(c.view.scale, Factors(es)) == ScaleThrough(c1.view.scale, Factors(es[1..]));
      WheelsScale(c1, es[1..]);
    }
  }

  /**
   * Any run of wheel events on one container is a single zoom about its
   * centre by the product of the factors: every drawn point's offset from
   * the centre is multiplied by it.
   */
  lemma {:induction false} WheelsCompose(c: MapComponent, es: seq<Event>, w: nat, h: nat, u: Point)
    requires WheelsAt(es, w, h)
    ensures Sub(Project(Run(c, es).view, u), CentreOf(w, h))
         == Times(Product(Factors(es)), Sub(Project(c.view, u), CentreOf(w, h)))
    decreases |es|
  {
    if |es| > 0 {
      var d := es[0].deltaY;
      var f := WheelFactor(d);
      var offset := Sub(Project(c.view, u), CentreOf(w, h));
      var c1 := OnWheel(c, d, w, h);
      assert Run(c, es) == Run(c1, es[1..]) by {
        assert es[0] == Wheel(d, w, h);
      }
      WheelAnchorsCentre(c.view, d, w, h, u);
      WheelsCompose(c1, es[1..], w, h, u);
      TimesTimes(Product(Factors(es[1..])), f, offset);
      FactorsTail(es);
      assert Product(Factors(es[1..])) * f == Product(Factors(es));
    }
  }

  /** A 1200 by 800 container as first measured: scale 800 / 4.25, origin at its centre. */
  const Mounted1200By800 := ViewState(1200, 800, 3200.0 / 17.0, 600.0, 400.0)

  /** The same view after one upward scroll: a tenth more scale, same origin. */
  const ZoomedIn1200By800 := ViewState(1200, 800, 3520.0 / 17.0, 600.0, 400.0)

  lemma ScenarioMount()
    ensures OnResize(Constructed, 1200, 800).view == Mounted1200By800
  {
  }

  /** Scrolling up grows the scale by a tenth; the origin already sits at the centre, so it stays. */
  lemma ScenarioWheelUp(m: MouseState)
    ensures OnWheel(MapComponent(Mounted1200By800, m), -3.0, 1200, 800).view == ZoomedIn1200By800
  {
  }

  /** Pressing, moving by (10, -5) and releasing puts the origin at (610, 395). */
  lemma ScenarioDrag(m: MouseState)
    ensures OnRelease(OnMouseMove(OnMouseDown(MapComponent(ZoomedIn1200By800, m), Point(100.0, 100.0)),
                                  Point(110.0, 95.0))).view
         == ZoomedIn1200By800.(mapX := 610.0, mapY := 395.0)
  {
  }
}
