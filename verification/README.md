# Scalable canvas: resolution and fit, as a Dafny model

`canvas.mjs` keeps HTML canvases crisp when the device pixel ratio changes
(high-density screens, browser zoom) and when a canvas is resized. A client
hands `manageCanvas` a canvas and a drawing function. From then on the module
owns three things: the canvas's backing resolution (its `width`/`height`
attributes), the transform the drawing function paints through, and the
moments at which that function is called. This project models that core in
Dafny 4.11 and proves properties of the model.

- `geometry.dfy`: `Wrappers.Option`, plus module `Geometry`. It holds sizes,
  points and the axis-aligned transforms that a 2D context builds from
  `resetTransform`, `scale` and `translate`.
- `fit.dfy`: module `Fit`, the letterbox arithmetic of `reshape` over `real`.
  It also has an independent description of the intended fit (`BestFit`: the
  largest scale that fits, slack split evenly, backing = client size × ratio)
  and lemmas that the computed fit is exactly that one.
- `canvases.dfy`: module `Canvases`, the management state machine. Its state
  holds:
  - the registry (a JS `Set`, modelled as a duplicate-free sequence in
    insertion order, which is the order `for … of` visits it);
  - the resize-observer targets;
  - the per-canvas properties `originalWidth`, `originalHeight` and
    `drawingFunction`, with `None` standing for `undefined`;
  - the canvas elements' backing resolution and style size;
  - the density watcher: the current media query, the queries that carry
    the `deviceChange` listener, and a fresh-id counter;
  - a log with one entry per call of a drawing function.

  The operations are `ManageCanvas`, `ReleaseCanvas`, `SizeChange`,
  `DeviceChange`, `SetupMediaQuery`, `Reshape`, and `SetSize` reduced to its
  decision rule. `Wf` is the invariant: a canvas is either fully managed or
  fully released, and exactly one query is armed. Every operation preserves
  it.
- `lifecycle.dfy`: module `Lifecycle`, properties relating several
  operations.
- `scenarios.dfy`: module `Scenarios`, worked examples.

The host is an input, never an effect. `Host` carries `devicePixelRatio` and
each canvas's client size at the moment of the operation. `ManageCanvas`
takes the client width that was measured while the default-size probe rule
applied. An exception escaping a step is modelled as `Run(state, threw)`.
JavaScript keeps the effects made before a throw, so the state is kept too.

## Model

| member | source | states |
|---|---|---|
| Geometry.Identity | canvas.mjs:97 | after `resetTransform` every point maps to itself |
| Geometry.ScaleComposes | canvas.mjs:98 | after `scale(a, b)`, user coordinates are scaled first and the previous transform then applies |
| Geometry.TranslateComposes | canvas.mjs:108 | after `translate(dx, dy)`, user coordinates are shifted first and the previous transform then applies |
| Fit.Reshape | canvas.mjs:93-107 | backing = client size × ratio; the scale is positive; the offsets are non-negative; the fitted rectangle stays inside the box and fills at least one axis |
| Fit.TallBoxLetterboxesVertically | canvas.mjs:101-103 | if w/h < ow/oh: left = 0, scale = w/ow, the width is filled exactly, top > 0, and 2·top + oh·scale = h (centered vertically) |
| Fit.WideBoxLetterboxesHorizontally | canvas.mjs:104-107 | otherwise: top = 0, scale = h/oh, the height is filled exactly, left ≥ 0, and 2·left + ow·scale = w (centered horizontally) |
| Fit.NoDistortion | canvas.mjs:99-107 | the fitted rectangle's width/height equals ow/oh exactly |
| Fit.ReshapeIsBestFit | canvas.mjs:93-107 | the computed placement meets the independent description: density-tracking backing, the largest scale that fits, even slack on both axes |
| Fit.BestFitIsUnique | canvas.mjs:99-107 | any placement meeting that description is the computed one, so the description determines the fit completely |
| Fit.ContextTransform | canvas.mjs:97-109 | the chain `resetTransform`, `scale(dpr, dpr)`, `translate(left, top)`, `scale(scale, scale)` (lines 97-98, 108-109) is the single transform with factor dpr·scale and offset dpr·left, dpr·top on each axis |
| Fit.DeviceMapping | canvas.mjs:97-109 | the context transform sends reference point x to dpr·(left + scale·x) on each axis |
| Fit.ReferenceLandsInBacking | canvas.mjs:95-109 | every point of the reference rectangle lands inside the backing store, in device pixels |
| Canvases.SetupMediaQuery | canvas.mjs:67-73 | the new query watches the given ratio and has a fresh id; the old query loses the listener; the rest of the listening set is kept |
| Canvases.RearmKeepsOneWatcher | canvas.mjs:67-73 | from exactly one armed query, re-arming leaves exactly one armed query: a new one, at the new ratio |
| Canvases.Init | canvas.mjs:17-19 | at load nothing is managed or observed, the page's elements are as given, and one query is armed at the current ratio; the invariant holds |
| Canvases.Reshape | canvas.mjs:91-110 | backing becomes client size × ratio even when the step throws; it throws exactly when the canvas is not managed; otherwise it logs one redraw; nothing else changes; the invariant is kept |
| Canvases.ReshapeEach | canvas.mjs:78 | reshapes the canvases in order and throws iff one is unmanaged; the log gains the redraws of the managed prefix; the backings of the entries reached are rescaled |
| Canvases.SetSize | canvas.mjs:50-62 | if the probe rule decided the measured width, the style size becomes the backing resolution; otherwise the element is unchanged |
| Canvases.ManageCanvas | canvas.mjs:25-36 | always refreshes the three properties from the current resolution. On a registered canvas nothing else in the model changes (the `g.reset()` of line 30 is not modelled). On a new one: appended to the registry, observed, default-sized by the probe rule, reshaped once (one log entry); the properties of every other canvas are kept. The invariant is kept |
| Canvases.Without | canvas.mjs:40 | the registry without the canvas; other members and distinctness are kept; an absent canvas changes nothing |
| Canvases.WithoutKeepsOrder | canvas.mjs:40 | in a duplicate-free registry, removing the canvas at position i leaves the canvases before it followed by those after it, in their order |
| Canvases.ReleaseCanvas | canvas.mjs:39-45 | the canvas leaves the registry and the observer, and its properties become unset; the other canvases stay registered in their order (the registry is unchanged if the canvas was absent); the elements, the watcher and the log are unchanged; the invariant is kept |
| Canvases.SizeChange | canvas.mjs:77-79 | reshapes every entry in order without checking membership. It throws iff some entry is unmanaged. The log gains exactly the redraws of the entries before the first unmanaged one (all of them without a throw). The entries reached, up to and including the one that throws, get a density-tracking backing; every other element is unchanged |
| Canvases.DeviceChange | canvas.mjs:83-86 | redraws every managed canvas in registry order and gives each a backing of client size × new ratio, keeping its style size; other elements are unchanged; then exactly one query is armed, a new one, at the new ratio |
| Lifecycle.ManageTwiceRegistersOnce | canvas.mjs:25-35 | a second `manageCanvas` on the same canvas adds nothing to the registry, the observer, the log or the elements; it replaces the three properties with the canvas's current resolution and the new drawing function |
| Lifecycle.RepeatManageAdoptsBacking | canvas.mjs:26-27 | a repeat `manageCanvas` takes the device-pixel backing left by the first reshape as the new reference resolution |
| Lifecycle.ReleaseIdempotent | canvas.mjs:39-45 | releasing twice equals releasing once |
| Lifecycle.ReleaseUnmanagedOnlyClears | canvas.mjs:39-45 | on an unmanaged canvas, release only sets the properties to unset |
| Lifecycle.ReleaseUndoesManage | canvas.mjs:31-45 | release after a first management restores the registry, the observer and every canvas's properties |
| Lifecycle.SizeChangeOnObservedRedrawsAll | canvas.mjs:77-79 | when only observed canvases are reported, a size change never throws and redraws exactly the entries, in order |
| Lifecycle.DeviceChangeRedrawsRegistry | canvas.mjs:83-86 | a density change redraws exactly the registry in its order and keeps the registry; exactly one query is armed afterwards, at the new ratio |
| Lifecycle.DeviceChangeRedrawsEachOnce | canvas.mjs:84 | each managed canvas is redrawn exactly once, and no other canvas is redrawn |
| Lifecycle.DeviceChangeTracksDensity | canvas.mjs:84-110 | each redraw of a density change paints through the best fit at the new ratio, and that fit's backing is the canvas's new backing resolution |
| Lifecycle.ReleasedIsNotRedrawn | canvas.mjs:39-86 | after release, neither a size change (even one whose entries still name the canvas: it throws before any drawing function runs) nor a density change redraws the canvas |
| Scenarios.SquareBoxFourByThree | canvas.mjs:93-107 | an 800×600 reference in a 400×400 box at ratio 2 gives backing 800×800, left 0, top 50, scale 0.5 |
| Scenarios.DefaultSizeFromResolution | canvas.mjs:56-59 | a new canvas with no explicit size and a 300×200 resolution gets a 300×200 style size |
| Scenarios.TwoCanvasesTwoDensityChanges | canvas.mjs:83-86 | with two managed canvases, ratio changes to 2 and then 3 each redraw both canvases once and re-arm one query at 2, then at 3 |

## Code versus design intent

- Stale notifications are not ignored. A notification for a canvas that is
  no longer managed is evidently meant to be skipped silently. `sizeChange`
  does not check membership. For a released canvas, `reshape` assigns the
  backing resolution and then calls the `undefined` drawing function, which
  throws a `TypeError`, so the remaining entries are not reshaped. The model
  follows the code: `Canvases.SizeChange` throws exactly when an entry is
  unmanaged. `Lifecycle.SizeChangeOnObservedRedrawsAll` gives the condition
  under which this cannot happen.
- No argument validation. `manageCanvas` accepts a missing drawing function
  and a zero reference resolution without complaint. The model states
  positive dimensions as preconditions instead of adding error paths. A
  drawing function is always supplied, because it is a parameter. In the
  source, `manageCanvas(canvas)` without one registers and observes the
  canvas and then throws at line 110, leaving the half-managed state that
  `Wf` rules out. From then on every `deviceChange` throws at that canvas
  before line 85, so the media query is never re-armed, and the canvases
  after it in the registry are not reshaped.
- Repeat management changes the reference resolution. A repeat call is
  meant only to refresh the reference dimensions and callback. The code
  reads them from the canvas's current `width`/`height`, and after the
  first reshape those hold the device-pixel backing.
  `Lifecycle.RepeatManageAdoptsBacking` states this.
- Repeat management leaves the canvas blank. Before its early return,
  `manageCanvas` calls `g.reset()` (lines 29-31), which clears the bitmap
  and drops the fitted transform, and no redraw follows. The canvas stays
  blank, at the identity transform, until the next size or density change.
  The model has no bitmap, so `Canvases.ManageCanvas` changes only the
  properties on this path.

## Left out

- Host calls: `getContext` and `g.reset()`, and the effects of
  `resetTransform`, `scale` and `translate` on a real context. Their composed
  transform is modelled by `Fit.ContextTransform`. Nothing of the host is
  visible here.
- Style injection: the `<style>` element and the `default_size` class in
  `setSize`, canvas.mjs:51-55 and 60-61. Only the decision rule of lines
  56-59 is modelled, and the probe measurement is an input.
- Event delivery: the scheduling and batching of `ResizeObserver` and
  `matchMedia`, including the initial notification a `ResizeObserver` sends
  after `observe`. `SizeChange` and `DeviceChange` are operations that get
  invoked. Which queries carry the listener is modelled; when the host fires
  one is not.
- Fit.Reshape: uses exact reals. The source computes with IEEE doubles, so
  its aspect and centring equalities hold only up to rounding.
- Canvases.Reshape: records the value assigned to `canvas.width` and
  `canvas.height`. The host stores it converted to an `unsigned long`
  (truncated), and that conversion is not modelled.
- Drawing functions: their bodies, including any that re-enter
  `manageCanvas` or `releaseCanvas` during a loop. A redraw is only logged.
- Non-positive sizes. In the source these mostly give finite results:
  - with `display: none` (w = h = 0), `0/0 < aspectRatio` is false, so
    left = 0 and scale = 0, the backing becomes 0×0 and the drawing
    function is still called;
  - w = 0 alone gives top = h/2 and scale 0; h = 0 alone gives left = w/2
    and scale 0;
  - one zero reference dimension makes the aspect 0 or infinite, but the
    offsets and scale stay finite;
  - only a 0×0 reference resolution gives NaN offsets and an infinite
    scale, which `translate` and `scale` silently ignore.

  The model excludes all of these by preconditions (positive client size,
  ratio and reference resolution), so `Fit.Reshape` promises nothing about
  them.
