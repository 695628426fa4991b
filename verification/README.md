# Map widget view transform, in Dafny

This project models the interactive core of the `Map` React component in
`src/components/map.component.js`: a world map whose view is described by the
container size, a projection scale and an origin (`mapX`, `mapY`, the pixel on
which the projection's geographic centre, 0° longitude / 42° N, is drawn).
The user pans it by dragging and zooms it with the scroll wheel.

The model is purely functional and uses Dafny's exact `real` type, so the
constants `ZOOM_SPEED = 0.1` and `4.25` are represented exactly and the affine
update rules hold as identities. They hold only in this idealised model, not
under IEEE-754 rounding.

- `Geometry`: screen points and vectors, and products of scale factors.
- `View`: the `ViewState` record and the component's update rules. These are
  `initMapState`, `zoom`, `translate` and `moveTo`, plus the wheel step. The
  module also has the projection `Project`. It draws the plane point `u`,
  which is a geographic point's Mercator image relative to the centre's image
  at unit scale, at `origin + scale * u`.
- `Gesture`: the drag state (`this.mouse`) next to the view, and one
  transition function per input handler.
- `Events`: the inputs as a datatype, `Run` over event sequences, and the
  properties that relate several events.

Each handler is one atomic step. In `onWheel`, `translate` and `zoom` both
read the state as it was before the event and write disjoint keys, so the
step applies both at once (`WheelStep`). `TranslateZoomCommute` shows that
the order of the two updates does not matter. Between events, React flushes
its batched state, so each `onMouseMove` reads the origin left by the
previous event.

`initMapState` (src/components/map.component.js:42-51) has no width
breakpoints. It always puts the origin at the container centre and sets the
scale to height / 4.25. For a 1200×800 container that is scale 3200/17 and
origin (600, 400), as `ScenarioMount` states. A container of height 0 gives
scale 0, and wheel events keep it at 0 (`ZeroScaleSticks`). The scale
therefore stays positive only while every measured container has positive
height (`ScaleStaysPositive`).

## Model

| member | source | states |
|---|---|---|
| View.InitMapState | src/components/map.component.js:42-51 | The new view takes the measured size and puts the origin at the container centre, where the geographic centre is drawn. Scale × 4.25 equals the height, so the scale is never negative and is positive exactly when the height is |
| View.Zoom | src/components/map.component.js:84-88 | Only the scale changes: size and origin stay. A positive amount keeps a positive scale positive and a zero scale zero |
| View.ZoomAboutOrigin | src/components/map.component.js:84-88 | Zooming by `amount` multiplies every drawn point's offset from the origin by `amount` |
| View.Translate | src/components/map.component.js:90-95 | The origin moves by exactly (dx, dy). Size and scale are untouched |
| View.TranslateMovesAll | src/components/map.component.js:90-95 | Every drawn point moves by the same (dx, dy) |
| View.TranslateTwice | src/components/map.component.js:90-95 | Two translations equal one translation by the summed shift (pan linearity) |
| View.MoveTo | src/components/map.component.js:97-102 | The geographic centre is drawn exactly at (x, y). Size and scale are untouched |
| View.MoveToIsTranslate | src/components/map.component.js:97-102 | `moveTo` is `translate` by the distance from the current origin |
| View.TranslateZoomCommute | src/components/map.component.js:127-128 | In a wheel event, the translate and zoom updates commute, so the event is one simultaneous update |
| View.WheelFactor | src/components/map.component.js:124 | The factor is 1 − 0.1 or 1 + 0.1. It is below 1 exactly when deltaY > 0, and it is always positive |
| View.WheelStep | src/components/map.component.js:123-129 | A wheel event multiplies the scale by the wheel factor and keeps the stored size |
| View.WheelAnchorsCentre | src/components/map.component.js:124-128 | After a wheel event, every drawn point's offset from the measured container centre is the old offset times the factor |
| View.WheelKeepsCentre | src/components/map.component.js:124-128 | The geographic point drawn at the container centre is still drawn there after a wheel event |
| View.WheelUpThenDown | src/components/map.component.js:124-128 | Scrolling up then down is not an inverse. The scale and every offset from the centre end at 99/100, which is strictly smaller for a positive scale |
| View.Unproject | src/components/map.component.js:68-71 | With a nonzero scale, every pixel has a plane point that the projection draws exactly there |
| View.ProjectInjective | src/components/map.component.js:68-71 | With a nonzero scale, two plane points drawn at the same pixel are equal |
| Gesture.OnResize | src/components/map.component.js:29-32 | A mount or resize rebuilds the view for the measured size, centred, and leaves the drag state alone |
| Gesture.OnMouseDown | src/components/map.component.js:104-108 | Pressing starts a drag and records the pointer position. The view does not change |
| Gesture.OnMouseMove | src/components/map.component.js:110-121 | With no drag, nothing changes. While dragging, the origin moves by the new pointer position minus the last one, that position is recorded, and size and scale stay |
| Gesture.OnRelease | src/components/map.component.js:138-139 | Release and leave share this handler. It always ends the drag and changes nothing else |
| Gesture.OnWheel | src/components/map.component.js:123-129 | A wheel event leaves the drag state alone. It keeps a positive scale positive and a zero scale zero |
| Events.RunAppend | src/components/map.component.js:136-140 | Handling two event sequences in turn equals handling their concatenation |
| Events.DragMovesSum | src/components/map.component.js:110-121 | During a drag, any run of moves shifts the origin by the pointer's total displacement and ends with the last pointer position recorded. Size and scale stay |
| Events.DragGesture | src/components/map.component.js:104-121 | A press at p0 followed by any moves shifts the origin by the last pointer position minus p0, whatever the path |
| Events.IdleMovesInert | src/components/map.component.js:110-111 | With no drag in progress, any run of moves changes nothing |
| Events.ReleaseEndsDrag | src/components/map.component.js:138-139 | After a release or a leave, later moves neither change the view nor restart the drag |
| Events.ResizeResetsView | src/components/map.component.js:42-51 | A resize after any events gives exactly the freshly initialised view, and the drag state is kept |
| Events.ScaleStaysPositive | src/components/map.component.js:84-88 | No event makes the scale negative. A positive scale stays positive while no resize measures a zero height |
| Events.ScalePositiveFromConstruction | src/components/map.component.js:11-17 | Starting from the constructed scale of 100, the scale stays positive over any events whose resizes have positive height |
| Events.ZeroScaleSticks | src/components/map.component.js:49 | Once a zero-height container has set the scale to 0, only a resize can change it |
| Events.WheelsScale | src/components/map.component.js:128 | A run of wheel events, each measured on whatever container size it finds, multiplies the scale by each event's factor in turn, which equals one multiplication by the product of the factors. The drag state is left alone |
| Events.WheelsCompose | src/components/map.component.js:124-128 | A run of wheel events on one container is one centre-anchored zoom by the product of their factors |
| Events.ScenarioMount | src/components/map.component.js:42-51 | Mounting in a 1200×800 container gives scale 3200/17 and origin (600, 400) |
| Events.ScenarioWheelUp | src/components/map.component.js:123-129 | On that view, one upward scroll gives scale 3520/17 and leaves the origin at (600, 400) |
| Events.ScenarioDrag | src/components/map.component.js:104-121 | Then pressing, moving by (10, −5) and releasing puts the origin at (610, 395) |

## Left out

- `drawMap` (lines 53-82): the SVG drawing, the `d3.json` fetch and its load-once cache are I/O. The Mercator formula is a foreign, transcendental computation. Only its affine last step, scale then translate, is modelled as `Project`, over an abstract plane point.
- React lifecycle and wiring: `componentDidMount`, `componentDidUpdate`, `componentWillUnmount`, listener registration, `render` and the stylesheet import. The mount-time measurement is the `Resize` event.
- DOM measurements: `offsetWidth`/`offsetHeight` and the pointer's `offsetX`/`offsetY` are event parameters. The wheel step takes the container size measured when it fires, which can differ from the stored size, just as in the source.
- `onDoubleClick`: the code names it as a handler but never defines it, so there is nothing to model.
- The constructor's `null` origin is modelled as 0, the value JavaScript arithmetic gives `null`. Before mount no handler can fire.
- `translate`'s default arguments (`dx = 0`, `dy = 0`): every caller passes both, so `Translate` takes both explicitly.
- Floating point: no IEEE-754 rounding, and no NaN or infinite `deltaY`. A NaN `deltaY` would take the 1.1 branch in the source.
