# svg.panzoom.js — a Dafny model of SvgPanZoom

This project models the `SvgPanZoom` class of `src/svg.panzoom.js`, a pan/zoom
controller for an svg.js drawing. The controller keeps a zoom level and one of
two views: the svg's viewBox, or the transform of a "pan-zoom agent" `<g>`
element. It turns wheel, pinch and drag events into zoom ratios and pan deltas.
It clamps the viewBox to configured margins under the svg's
`preserveAspectRatio`. It commits the result to the document either at once or
at the next animation frame.

The model is split into modules as follows:

- `Geometry`: points, boxes and svg.js matrices. Every matrix the class builds
  is a uniform scale followed by a translation, so a matrix is `(s, tx, ty)`.
  Real arithmetic is used throughout.
- `Margins`: the math of `restrictToMargins`. This covers the viewport offsets
  from `preserveAspectRatio`, the margin limits and the clamp. It also gives a
  reference definition of the region that section 7.8 of SVG 1.1 shows.
- `Gestures`: event arithmetic, namely `normalizeEvent`, the wheel's
  `deltaMode` units and the pinch's zoom amount, midpoints and transform.
- `Engine`: the instance's state and one step function per public method:
  `zoom`, `zoomTo`, `pan`, `panTo`, `restore`, `update`, `updateByViewbox`,
  `updateByTransform`, `agentTransformToViewbox` and `restrictToMargins`. It
  also holds the lemmas about them.
- `Handlers`: the DOM event handlers as step functions, with their lemmas.
- `Instance`: the class `PanZoom`. Its fields are the instance's fields plus
  what it writes to the document: the svg's viewBox attribute, the agent's
  transform attribute, the pending animation-frame callback and the
  dispatched events. Each method updates the fields in place and is proved to
  reach exactly the state that the matching `Engine` or `Handlers` function
  gives. Every property proved about those functions therefore holds of the
  object.

Values read from the browser are inputs, as follows:

- `svg.point` is a screen-to-user matrix `toUser`.
- `svg.zoom()` is `svgZoom`.
- Whether a listener called `preventDefault` on a dispatched event is
  `prevented`.
- The awaited result of `options.beforePan` is `allowed`.
- The two `Math.sqrt` finger distances of a pinch are `lastDistance` and
  `currentDistance`.
- The wheel curve `Math.pow(1 + zoomSpeed, -d / 100)` is a function `curve`.

In two places the code does something other than its evident intent, and the
model follows what the code does:

- `handlePinchZoom` reads the undeclared name `box` at line 815 and throws
  there, unless the page happens to define a global `box` (for instance an
  element with id "box", which browsers expose as a property of `window`).
  The model assumes no such global exists, so a pinch never changes the view.
- `restrictToMargins` replaces `this.viewbox` by the live viewBox. As a result,
  an animated update with margins writes back the live viewBox.

In one place the model uses the evidently intended behaviour instead: in
slice mode, `restrictToMargins` takes the length of its viewport offset from
the wrong axis (line 518; see "## Findings"). `Margins.Restrict`, and with it
the engine and the class, use the corrected offsets. `Margins.RestrictAsWritten`
is the clamp exactly as written; the two agree except in slice mode.

## Model

| member | source | states |
|---|---|---|
| Geometry.Translation | src/svg.panzoom.js:321-323 | the translation matrix has unit scale |
| Geometry.TranslateO | src/svg.panzoom.js:319 | translateO keeps the matrix's scale |
| Geometry.ScaleO | src/svg.panzoom.js:260 | scaleO multiplies the matrix's scale by k |
| Geometry.ScaleAbout | src/svg.panzoom.js:264 | the scale-about-origin matrix has scale k and fixes its origin |
| Geometry.Inverse | src/svg.panzoom.js:211 | the inverse's scale is the reciprocal of the matrix's |
| Geometry.ApplyTranslateO | src/svg.panzoom.js:319 | translateO moves every image point by (dx, dy) |
| Geometry.ApplyScaleO | src/svg.panzoom.js:260 | scaleO scales every image point by k about the centre |
| Geometry.InverseRoundTrip | src/svg.panzoom.js:211 | the inverse undoes the matrix on both sides |
| Geometry.TransformBox | src/svg.panzoom.js:211 | a transformed box has non-negative size, and for a non-negative scale its corners are the images of the original corners |
| Geometry.CenterOn | src/svg.panzoom.js:293-297 | the zoomTo/panTo matrix maps the focus onto the centre and multiplies the scale by the zoom delta |
| Geometry.TransformBoxByPositiveScale | src/svg.panzoom.js:321-323 | a box mapped with positive scale keeps its shape, its origin and size follow the matrix, and positivity is kept |
| Geometry.TransformBoxRoundTrip | src/svg.panzoom.js:211 | mapping a box by a matrix and then by its inverse gives the box back |
| Geometry.ReconcileKeepsView | src/svg.panzoom.js:202-217 | showing the content through matrix m in viewBox v looks exactly like showing it untransformed in v mapped by m's inverse |
| Geometry.MovedViewCoord | src/svg.panzoom.js:211 | mapping both a viewBox and a point by the same positive-scale matrix keeps where the point appears on the surface |
| Geometry.ZoomChannelsAgree | src/svg.panzoom.js:255-265 | zooming the agent matrix about f gives the same picture as scaling the viewBox by 1/k about f |
| Geometry.ScaleAboutBox | src/svg.panzoom.js:262-264 | the viewBox scaled about f, written out; it stays positive |
| Geometry.PanChannelsAgree | src/svg.panzoom.js:314-324 | translating the agent matrix gives the same picture as moving the viewBox the opposite way |
| Geometry.ZoomKeepsFocusInPlace | src/svg.panzoom.js:262-264 | the viewBox zoom keeps the focus where it was on the surface |
| Margins.AspectFit | src/svg.panzoom.js:502-516 | the ratio between the shown and the viewBox length is positive |
| Margins.ViewportOffsetsAsWritten | src/svg.panzoom.js:496-581 | the source's offsets: none for align none or an unknown align, and none when the svg and the viewBox have the same aspect ratio |
| Margins.ViewportOffsets | src/svg.panzoom.js:496-581 | no offsets for align none; equal to the source's offsets except in slice mode, where the offset length is taken from the axis that changes |
| Margins.VisibleRegion | src/svg.panzoom.js:505-516 | the region that section 7.8 of SVG 1.1 shows is a positive box |
| Margins.Clamp | src/svg.panzoom.js:603-604 | Math.min(hi, Math.max(lo, v)) lies in [lo, hi] when lo <= hi, is hi when the bounds cross, and keeps values already inside |
| Margins.Restrict | src/svg.panzoom.js:477-606 | the clamp with the corrected offsets: without margins the box is returned unchanged; otherwise only x and y change, each clamped into its limits |
| Margins.RestrictAsWritten | src/svg.panzoom.js:477-606 | the clamp with the source's own offsets: without margins the box is returned unchanged; otherwise only x and y change, each clamped into the source's limits; outside slice mode it equals Margins.Restrict |
| Margins.SliceRestrictDiffers | src/svg.panzoom.js:518 | for a 100x100 svg with "xMidYMid slice", a 200x100 live viewBox and zero margins, the source leaves a box at x = 160, whose shown region then starts at x = 210, past the content's right edge at 200; the corrected clamp moves it to x = 150 |
| Margins.LimitsIgnoreOrigin | src/svg.panzoom.js:590-601 | the limits depend on the box only through its size |
| Margins.RestrictIdempotent | src/svg.panzoom.js:603-604 | clamping twice is clamping once |
| Margins.RestrictInsideAndCollapsed | src/svg.panzoom.js:603-604 | a box inside the limits stays put; crossed limits collapse onto the left and top limits |
| Margins.RestrictIsNearest | src/svg.panzoom.js:603-604 | on each axis, the clamped origin is the allowed point nearest the original |
| Margins.VisibleSize | src/svg.panzoom.js:505-516 | the shown region's size is the viewBox's, scaled by the fit ratio along the changed axis |
| Margins.OffsetsMatchVisibleRegion | src/svg.panzoom.js:496-581 | the corrected offsets put the viewBox's sides exactly on the sides of the region that SVG 1.1 shows |
| Margins.SliceOffsetsAsWrittenMisplaced | src/svg.panzoom.js:518 | for a 200x100 viewBox in a 100x100 "xMidYMid slice" svg, the shown region starts at x = 50; the corrected offset is 50 but the source's is 25 |
| Gestures.NormalizeEvent | src/svg.panzoom.js:19-21 | a touch event gives its touches, and a mouse event gives one touch at its client point |
| Gestures.NormalizedDeltaY | src/svg.panzoom.js:640-652 | deltaY times the pixels per unit of deltaMode; pixel mode and unknown modes keep deltaY |
| Gestures.NormalizingKeepsDirection | src/svg.panzoom.js:640-652 | with positive unit sizes, normalisation keeps the sign of the wheel delta |
| Gestures.PinchZoomAmount | src/svg.panzoom.js:779-787 | the amount is the distance ratio inside [zoomMin, zoomMax] and is 1 or the ratio otherwise; it never pushes a level that is already outside further out |
| Gestures.Midpoint | src/svg.panzoom.js:789-805 | the midpoint is equidistant from both touches |
| Gestures.FocusAhead | src/svg.panzoom.js:807-811 | the current focus is the midpoint of the last focus and the point ahead |
| Gestures.PinchTransform | src/svg.panzoom.js:817-820 | the pinch matrix has scale z and maps f onto p |
| Gestures.PinchStep | src/svg.panzoom.js:763-811 | the pinch transform maps the focus ahead onto the focus; its scale is the clamped amount; the focus is the user-space midpoint of the current touches |
| Engine.DefaultOptions | src/svg.panzoom.js:24-39 | the default options: zoom bounds Number.MIN_VALUE and Number.MAX_VALUE, performance on, button 0, 17 and 53 pixels per line and page |
| Engine.ChannelsCoincide | src/svg.panzoom.js:421-423 | under the invariant, update's actOnAgent is exactly the branch that zoom and pan take |
| Engine.Init | src/svg.panzoom.js:113-200 | the constructor: level 1, the original viewBox, the agent's original matrix, no pending frame, no events, and the invariant |
| Engine.RestrictToMargins | src/svg.panzoom.js:477-606 | the box returned is Margins.Restrict's clamp against the live viewBox; with margins this.viewbox becomes the live viewBox, without margins the view is untouched; the level and the agent are kept, and a positive box stays positive |
| Engine.RequestedCommit | src/svg.panzoom.js:434-449 | on the agent channel update captures the agent's current matrix; otherwise it captures this.viewbox clamped against the live viewBox |
| Engine.ApplyCommit | src/svg.panzoom.js:437-448 | the frame callback clears the frame slot and writes the captured viewBox, or the captured matrix while the agent still has one; nothing else changes and the invariant is kept |
| Engine.FireFrame | src/svg.panzoom.js:451-458 | running the pending frame clears it and changes only the document |
| Engine.Update | src/svg.panzoom.js:420-460 | update keeps the invariant, the level, the agent matrix and the gesture state |
| Engine.UpdatePendingCommit | src/svg.panzoom.js:451-458 | performance mode leaves exactly one pending commit, holding the value captured at call time; without it nothing is pending |
| Engine.UpdateOnViewbox | src/svg.panzoom.js:430-449 | off the agent channel, update commits this.viewbox clamped against the live viewBox: at once, animated, or at the next frame; an animated update with margins leaves the document unchanged |
| Engine.UpdateOnAgent | src/svg.panzoom.js:421-458 | on the agent channel update writes the agent's current matrix to the transform attribute: at once when animated or when performance is off, at the next frame otherwise; the view and the viewBox attribute are kept |
| Engine.UpdateReplacesPending | src/svg.panzoom.js:454-457 | a non-animated update cancels whatever frame was pending |
| Engine.DeferredEqualsImmediate | src/svg.panzoom.js:451-458 | deferring the commit to the next frame ends where committing at once does |
| Engine.EffectiveRatio | src/svg.panzoom.js:239-244 | the clamped ratio is positive |
| Engine.ZoomRatio | src/svg.panzoom.js:237-246 | zoom proceeds only with a positive ratio equal to the clamped ratio |
| Engine.Zoom | src/svg.panzoom.js:236-272 | zoom keeps the invariant, the gesture state and the events |
| Engine.ZoomView | src/svg.panzoom.js:255-267 | the level is multiplied by the effective ratio and the view stays valid |
| Engine.ZoomNoOp | src/svg.panzoom.js:237-246 | a zero ratio, or one clamped to within 0.008 of 1, leaves everything unchanged |
| Engine.ZoomIsUpdate | src/svg.panzoom.js:255-269 | zoom is update applied after the view change, on the same channel |
| Engine.ZoomLandsInBounds | src/svg.panzoom.js:239-244 | the new level is in [zoomMin, zoomMax]: on zoomMax after an overshoot, on zoomMin after an undershoot, else level*ratio |
| Engine.ZoomKeepsBounds | src/svg.panzoom.js:236-272 | a zoom that starts with the level inside [zoomMin, zoomMax] leaves it there |
| Engine.ZoomRatioInBounds | src/svg.panzoom.js:239-246 | the ratio zoom goes on with lands the level inside [zoomMin, zoomMax] |
| Engine.ZoomLevel | src/svg.panzoom.js:255-269 | the level after zoom is the level that the view change computed |
| Engine.ZoomChannels | src/svg.panzoom.js:255-269 | on the agent channel the matrix is scaled about the focus and the viewBox is kept; otherwise the matrix is kept and the viewBox is the live one scaled by 1/k |
| Engine.ZoomKeepsFocus | src/svg.panzoom.js:262-264 | a viewBox zoom without margins keeps the focus where it was on the surface |
| Engine.Pan | src/svg.panzoom.js:313-328 | pan keeps the invariant, the level, the gesture state and the events |
| Engine.PanView | src/svg.panzoom.js:314-324 | off the agent channel the viewBox moves by (-dx, -dy) and the matrix is kept |
| Engine.PanOnAgent | src/svg.panzoom.js:314-326 | on the agent channel the matrix is translated by (dx, dy) and the viewBox is kept |
| Engine.PanIsUpdate | src/svg.panzoom.js:313-328 | pan is update applied after the view change, on the same channel |
| Engine.PanOnViewbox | src/svg.panzoom.js:320-326 | off the agent channel the viewBox moves by (-dx, -dy); in performance mode the pending frame holds the moved box clamped to the margins |
| Engine.Restore | src/svg.panzoom.js:219-228 | restore keeps the level, the agent matrix and the gesture state |
| Engine.RestoreShowsOriginal | src/svg.panzoom.js:219-228 | without margins and off the agent channel, restore shows the original viewBox, at once or at the next frame |
| Engine.RestoreWithMarginsStays | src/svg.panzoom.js:219-228 | with margins, an animated restore writes back the live viewBox, so the document does not change |
| Engine.AgentTransformToViewbox | src/svg.panzoom.js:202-217 | folding keeps the invariant, the level and the gesture state |
| Engine.FoldKeepsPicture | src/svg.panzoom.js:202-217 | folding the agent matrix into the viewBox removes the transform and every point appears where it appeared before |
| Engine.UpdateByViewbox | src/svg.panzoom.js:461-466 | keeps the invariant and the gesture state |
| Engine.UpdateByViewboxWrites | src/svg.panzoom.js:461-466 | with an agent it is a no-op; without one the svg shows the box clamped against the live viewBox, or the box itself without margins |
| Engine.UpdateByTransform | src/svg.panzoom.js:467-471 | the transform attribute is written only when there is an agent and a transform; nothing else changes |
| Engine.ZoomTo | src/svg.panzoom.js:280-305 | zoomTo keeps the invariant, the gesture state and the events |
| Engine.ZoomToCentres | src/svg.panzoom.js:280-305 | zoomTo throws exactly when the agent matrix is null and then changes nothing; otherwise the focus lands on the original centre, the level is lvl, the scale grows by lvl over the old level and the document shows the matrix |
| Engine.PanToLevel | src/svg.panzoom.js:362-370 | a numeric level is used as given; "auto" makes the element's longer relative side a tenth of the view |
| Engine.PanTo | src/svg.panzoom.js:337-402 | panTo keeps the invariant |
| Engine.PanToCentres | src/svg.panzoom.js:345-401 | panTo centres the target at the requested level, or leaves the state unchanged when the agent matrix is null (the error is caught) |
| Handlers.WheelZoom | src/svg.panzoom.js:613-673 | a ctrl-gated event changes nothing; a cancelled zoom event leaves the document and view unchanged except the level, which is re-read from svg.zoom() |
| Handlers.WheelNotified | src/svg.panzoom.js:654-670 | the zoom event carries the current level times the ratio and the pointer in user space |
| Handlers.WheelZoomSteps | src/svg.panzoom.js:662-672 | an accepted wheel event dispatches, then zooms unless the event is cancelled |
| Handlers.WheelZoomAnnounces | src/svg.panzoom.js:662-670 | an accepted wheel event dispatches exactly one zoom event, whether or not it is cancelled |
| Handlers.WheelZoomKeepsPointer | src/svg.panzoom.js:654-672 | an uncancelled viewBox wheel zoom without margins keeps the point under the pointer in place |
| Handlers.PanStart | src/svg.panzoom.js:837-888 | a rejected button or a falsy beforePan changes nothing; otherwise the touches are stored and the start flag cleared; it throws exactly when not pinching and there is no touch; when not pinching, the first touch is armed as the last point |
| Handlers.ArmPan | src/svg.panzoom.js:859-887 | after acceptance it throws exactly when not pinching and there is no touch; view, document and events are kept |
| Handlers.PanStop | src/svg.panzoom.js:893-921 | the listeners are swapped back and the last point is cleared; panEnd and the fold happen only when a panStart was emitted |
| Handlers.PanStopKeepsPicture | src/svg.panzoom.js:908-914 | ending an announced pan removes the agent transform and keeps the picture |
| Handlers.PanDelta | src/svg.panzoom.js:937-941 | the delta takes the last user-space point onto the current one |
| Handlers.BeginPan | src/svg.panzoom.js:946-966 | the first move sets isPanning and the start flag, announces panStart, re-reads the viewBox and resets the agent to the identity unless in agent-only mode |
| Handlers.Panning | src/svg.panzoom.js:927-983 | it throws exactly when there is no touch or no last point; a zero user-space delta changes nothing |
| Handlers.PanMove | src/svg.panzoom.js:968-982 | the panning event carries both user-space points; the last point advances only if the event is not cancelled, and a cancelled event leaves the view |
| Handlers.PanningAnnounces | src/svg.panzoom.js:946-982 | a real move announces panStart once and then panning; the pan is then in progress |
| Handlers.FirstMoveTranslatesAgent | src/svg.panzoom.js:963-982 | the first move with an agent leaves the matrix holding exactly the move |
| Handlers.FirstMoveMovesViewbox | src/svg.panzoom.js:961-982 | the first move without an agent moves the re-read viewBox by minus the delta |
| Handlers.PinchZoomStart | src/svg.panzoom.js:680-725 | the touches are stored; fewer than two without the handoff change nothing else; two or more take over the pinch |
| Handlers.PinchTakeover | src/svg.panzoom.js:694-724 | any announced pan ends first, then pinchZoomStart is announced; if not cancelled, the pinch starts with the agent reset or the viewBox re-read |
| Handlers.StartPinch | src/svg.panzoom.js:709-724 | the pinch listeners are swapped in, isZooming is set, and the agent is reset to the identity or the viewBox re-read |
| Handlers.PinchZoomStop | src/svg.panzoom.js:732-753 | more than one touch changes nothing; otherwise the pinch ends with pinchZoomEnd and the listeners swapped back |
| Handlers.PinchZoom | src/svg.panzoom.js:759-831 | with fewer than two last or current touches, nothing changes; otherwise only the touches are stored; the computed amount obeys the clamp and the transform maps the focus ahead onto the focus |
| Instance.PanZoom.constructor | src/svg.panzoom.js:113-200 | the object starts in Engine.Init's state |
| Instance.PanZoom.RestrictToMargins | src/svg.panzoom.js:477-606 | returns the clamped box and updates this.viewbox as Engine.RestrictToMargins does |
| Instance.PanZoom.RunCommit | src/svg.panzoom.js:437-448 | the frame callback, as Engine.ApplyCommit |
| Instance.PanZoom.FireFrame | src/svg.panzoom.js:451-458 | the pending frame runs, as Engine.FireFrame |
| Instance.PanZoom.Update | src/svg.panzoom.js:420-460 | the new state is Engine.Update's |
| Instance.PanZoom.Zoom | src/svg.panzoom.js:236-272 | the new state is Engine.Zoom's |
| Instance.PanZoom.ClampRatio | src/svg.panzoom.js:239-244 | the ratio lands the level on zoomMax after an overshoot, on zoomMin after an undershoot, and is kept otherwise |
| Instance.PanZoom.ScaleView | src/svg.panzoom.js:255-267 | the view becomes Engine.ZoomView's |
| Instance.PanZoom.CurrentZoom | src/svg.panzoom.js:281 | zoomTo with no level returns the current, positive level |
| Instance.PanZoom.ZoomTo | src/svg.panzoom.js:280-305 | the new state and the throw are Engine.ZoomTo's |
| Instance.PanZoom.Pan | src/svg.panzoom.js:313-328 | the new state is Engine.Pan's |
| Instance.PanZoom.PanTo | src/svg.panzoom.js:337-402 | the new state is Engine.PanTo's |
| Instance.PanZoom.Restore | src/svg.panzoom.js:219-228 | the new state is Engine.Restore's |
| Instance.PanZoom.AgentTransformToViewbox | src/svg.panzoom.js:202-217 | the new state is Engine.AgentTransformToViewbox's |
| Instance.PanZoom.UpdateByViewbox | src/svg.panzoom.js:461-466 | the new state is Engine.UpdateByViewbox's |
| Instance.PanZoom.UpdateByTransform | src/svg.panzoom.js:467-471 | the new state is Engine.UpdateByTransform's |
| Instance.PanZoom.HandleWheelZoom | src/svg.panzoom.js:613-673 | the new state is Handlers.WheelZoom's |
| Instance.PanZoom.HandlePanStart | src/svg.panzoom.js:837-888 | the new state and the rejection are Handlers.PanStart's |
| Instance.PanZoom.ArmPan | src/svg.panzoom.js:859-887 | the new state and the rejection are Handlers.ArmPan's |
| Instance.PanZoom.HandlePanStop | src/svg.panzoom.js:893-921 | the new state is Handlers.PanStop's |
| Instance.PanZoom.HandlePanning | src/svg.panzoom.js:927-983 | the new state and the throw are Handlers.Panning's |
| Instance.PanZoom.PanMove | src/svg.panzoom.js:968-982 | the new state is Handlers.PanMove's |
| Instance.PanZoom.BeginPan | src/svg.panzoom.js:946-966 | the new state is Handlers.BeginPan's |
| Instance.PanZoom.HandlePinchZoomStart | src/svg.panzoom.js:680-725 | the new state is Handlers.PinchZoomStart's |
| Instance.PanZoom.StartPinch | src/svg.panzoom.js:709-724 | the new state is Handlers.StartPinch's |
| Instance.PanZoom.HandlePinchZoomStop | src/svg.panzoom.js:732-753 | the new state is Handlers.PinchZoomStop's |
| Instance.PanZoom.HandlePinchZoom | src/svg.panzoom.js:759-831 | it throws (no global `box` exists); the new state and the computed math are Handlers.PinchZoom's |

## Left out

- Floating point is not modelled: there is no NaN, no Infinity and no rounding. A pinch whose current distance is 0 would divide by zero in the source; the model computes no amount for it (`math` is None).
- `Math.pow`, `Math.sqrt`, `svg.point`, `svg.zoom()`, `svg.viewbox()` and event dispatch are inputs, as described above. `zoomSpeed` is folded into the wheel `curve`.
- Animations are treated as instantaneous. An animated update writes its final value at once; the svg.js `animate()` runners are not modelled. This includes `panTo`'s runner, its cancellation and its `duration`.
- The constructor's DOM work is not modelled: moving children into a new agent group, `setStyle`, the `removeViewbox` option, replacing `svg.zoom` and `svg.panTo` in agent-only mode, and the "svg is empty" throw. The original viewBox, the agent's original matrix and the svg's size and `preserveAspectRatio` are configuration.
- Without a viewBox attribute, the source starts from `svg.bbox()`. The model takes that box as both the original and the shown viewBox.
- `updateSync` (lines 404-419) has no callers in the class and is not modelled. The `scaleLevel` getter (lines 91-95) and the `panZoom` plugin entry point (lines 986-1009) are not modelled either.
- Listener registration is modelled as booleans. Passive flags and `document.getSelection().removeAllRanges()` are not modelled. Nor is `document.body.style.userSelect`, which the source reads and writes back unchanged. Nor is the `console.log`/`console.error` output.
- `handlePanStart` is async, and a rejected promise is reported as `threw`. Other events interleaving while `beforePan` is awaited are not modelled. `panByShift` is a default option that no code reads.
- `handlePinchZoom` lines 817-830 are not modelled: they are unreachable, because line 815 throws unless a global `box` exists.
- Handlers.PinchZoom: assumes that the page defines no global `box`. If it did (an element with id "box" is enough), line 815 would not throw and lines 817-830 would transform the view; the model does not cover that case.
- Instance.PanZoom.HandlePinchZoom: always reports a throw, under the same assumption as Handlers.PinchZoom.
- Margins.Restrict: uses the corrected offsets of Margins.ViewportOffsets, not the source's. In slice mode its clamp therefore differs from line 518's; Margins.RestrictAsWritten is the clamp as written, and Margins.SliceRestrictDiffers shows an input where they differ.
- Engine.RestrictToMargins: clamps with Margins.Restrict, so with margins in slice mode its box is the corrected one, not the source's. Every engine and handler step that updates the view (zoom, pan, restore, update, updateByViewbox and the handlers) inherits this.
- Engine.Update, Engine.Zoom, Engine.Pan, Engine.Restore and Engine.UpdateByViewbox: with margins in slice mode they clamp with the corrected offsets, through Engine.RestrictToMargins, so their viewBox can differ from the source's there.
- Instance.PanZoom.RestrictToMargins: returns Engine.RestrictToMargins' box, so in slice mode it differs from the source in the same way.
- `restrictToMargins` clamps its box argument in place. The model returns the clamped box instead. Two effects of the in-place write are not modelled: `updateByViewbox` changing the caller's own box object, and an animated `update` straight after construction clamping `original.viewbox`, which is then the same object as `this.viewbox`.
- Instance.PanZoom.HandlePanStop: the pan's move and up listeners are removed before the agent is folded, not after as in the source. The fold does not read the listeners, so the final state is the same.
- Engine.AgentTransformToViewbox: requires that no pan is in progress. The class calls it only after `isPanning` is cleared. A user calling it during a pan would make the source's next `pan` throw on the null matrix, and that is not modelled.
- Engine.UpdateByViewbox: requires a box of positive size. The source accepts any box.
- Engine.ZoomTo: requires a positive level. With 0 or a negative level the source builds a degenerate matrix.
- Engine.PanTo: requires a positive numeric level, or "auto" with an element of positive size. The source's NaN results for other combinations are not modelled.
- Handlers.WheelZoom: requires `svg.zoom()` to be positive, so that the zoom that follows stays defined.
- Engine.ValidConfig: the configuration needs 0 < zoomMin <= zoomMax, a positive original viewBox, a positive svg size and a positive original agent scale. The source does not check these.

## Findings

| source | as written | input that shows it | evidently intended | confidence | as-written member | corrected member |
|---|---|---|---|---|---|---|
| src/svg.panzoom.js:518 | in slice mode the offset is `box[changedAxis] - box[changedAxis] * ratio`, taken along `changedAxis`; with slice, the region that differs lies along the other axis | a 100x100 svg with `xMidYMid slice`, a 200x100 live viewBox, zero margins and a box at x = 160: the left offset comes out as 25, not 50, so the left limit is 175 and the box stays at 160, where the shown region starts at x = 210, past the content's right edge at 200 | the offset is measured along the axis where the shown region differs from the viewBox (width when the change is horizontal), which puts the limits on the shown region's sides | not executed | Margins.SliceRestrictDiffers | Margins.OffsetsMatchVisibleRegion |
