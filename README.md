# Leaflet.PixiOverlay, modelled in Dafny

Leaflet.PixiOverlay is a Leaflet layer that draws a PIXI scene on top of a map
and keeps it registered with the map while it pans and zooms. This project
models three pieces of it and proves properties of them.

- **The layer of version 1.0.0** (`L.PixiOverlay.js`), module
  `PixiOverlay`, class `Overlay`. On `onAdd` it makes the container and the
  renderer once, freezes a reference frame (the reference zoom and the
  projection of the origin at that zoom) and calls `_update`. `_update`
  computes padded pixel bounds and resizes the renderer only when their size
  changed. It then gives the scene root a scale and a shift, with Leaflet's
  rounding switched off, and runs the draw callback. `_updateTransform` moves
  and scales the container with CSS while a zoom animates.
- **The earlier layer** (`src/L.PixiOverlay.js`), module
  `LegacyPixiOverlay`. It differs from 1.0.0 in several ways:
  - the renderer's canvas is the container;
  - the reference zoom is the zoom at add time;
  - the scale is `Math.pow(2, zoom - initialZoom)`;
  - the renderer is resized on every update;
  - the shift stays on the layer for the callback to apply;
  - a `fly` event runs `_zoomChange` and then `_update`.
- **The particle container patch** (`docs/js/MarkerContainer.js`), module
  `MarkerContainer`:
  - `addChild` and `setProperties`;
  - the three upload functions, which fill a flat vertex array in place, four
    records of `stride` cells per child;
  - the batching loop of `render`, which cuts the children into batches, adds
    buffers when allowed, and keeps a sticky "upload the static part" flag.

Shared pieces:

- `Geometry`: Leaflet points, bounds and `Math.round`.
- `Leaflet`: the map, passed to each handler as a value `MapState`; the
  coordinate reference system with its projection and zoom scale; DOM
  elements; the library-wide slot `L.Point.prototype._round`.
- `Pixi`: the renderer and the scene root.
- `Viewport`: the arithmetic both layer versions share.
- `QuadLayout`: the index arithmetic of the vertex records.

Coordinates are exact reals. `Math.round` is `floor(x + 0.5)`. Whether
Leaflet's rounding is installed is the value `RoundFn`.

The batching loop is specified by the function `RenderPlan`. `Render` is
proved to return exactly the batches `RenderPlan` describes and to leave
exactly its buffers. The lemmas then state what the source promises of that
plan:

- how many batches there are;
- that they are consecutive and correctly sized;
- that they cover the children;
- that the static flag is sticky;
- that the buffers are stamped.

The upload methods are proved against `Filled`, which describes the array
after the writes. The lemmas about `Filled` give each vertex's values back
and show that nothing else changes.

## Model

| member | source | states |
|---|---|---|
| Geometry.MathRound | L.PixiOverlay.js:151-153 | `.round()` of a coordinate is an integer within half a unit of it, halves going up |
| Geometry.MathRoundShift | L.PixiOverlay.js:153 | rounding an integer corner plus a size rounds only the size |
| Geometry.RoundWithNearby | L.PixiOverlay.js:187-194 | Leaflet's own `_round` lands on integral coordinates at most half a pixel away; the identity the layer installs leaves the point alone |
| Geometry.BoundsOfEncloses | L.PixiOverlay.js:153 | `new L.Bounds(a, b)` is the smallest box holding both corners: its corners are taken from `a` and `b` and enclose both |
| Leaflet.GetZoomScale | L.PixiOverlay.js:74 | the zoom scale from a zoom to itself is exactly one |
| Leaflet.ProjectRescaled | L.PixiOverlay.js:179-180 | projecting at one zoom and multiplying by the zoom scale gives the projection at the other zoom |
| Leaflet.UnprojectProject | L.PixiOverlay.js:78-87 | `unproject` at a zoom undoes `project` at the same zoom whenever the projection can be undone |
| Viewport.ProjectionZoomAsWrittenUnbounded | L.PixiOverlay.js:40 | as written, the default reference zoom of a map with no maximum zoom is `Infinity` |
| Viewport.ProjectionZoom | L.PixiOverlay.js:40 | on a bounded range it equals the written midpoint, is as far from the minimum as from the maximum, and lies within the range; on an unbounded range it is the minimum plus eight |
| Viewport.PaddedBounds | L.PixiOverlay.js:149-153 | the padded pixel bounds `_update` computes (also src/L.PixiOverlay.js:115-119); no contract of its own, its properties are in `Viewport.PaddedBoundsShape` and `Viewport.PaddedBoundsExample` |
| Viewport.PaddedBoundsShape | L.PixiOverlay.js:149-153 | the bounds start at the rounded padded top-left corner, end at `round(min + size * (1 + 2p))`, and are the rounded padded map size big |
| Viewport.PaddedBoundsExample | L.PixiOverlay.js:149-153 | an 800x600 map with padding 0.1 and an unmoved pane gets a 960x720 surface whose top-left corner is (-80, -60) |
| Viewport.NeedsResize | L.PixiOverlay.js:162 | the renderer is resized exactly when its recorded size is unset or differs from the new size |
| Viewport.SceneShift | L.PixiOverlay.js:179-180 | the scene shift: the origin's layer point less the scaled initial shift and the bounds' corner (also src/L.PixiOverlay.js:133-134, where it is stored as `_shift`); no contract of its own, its properties are in `Viewport.SceneRegistration`, `Viewport.ShiftAtProjectionZoom` and `Viewport.ShiftRoundingError` |
| Viewport.SceneRegistration | L.PixiOverlay.js:179-182 | a point placed in the scene at its projection at the reference zoom is drawn exactly on the map's own layer point at the current zoom, when the scale is the zoom scale |
| Viewport.ShiftAtProjectionZoom | L.PixiOverlay.js:179-180 | at the reference zoom the scale is exactly one and the shift is exactly the negated absolute top-left corner |
| Viewport.ShiftRoundingError | L.PixiOverlay.js:178-180 | computed with Leaflet's rounding on, the shift would be off by up to half a pixel in each direction, which is why rounding is switched off around it |
| Viewport.TopLeftOffset | L.PixiOverlay.js:129-136 | the CSS offset `_updateTransform` shows the container at (also src/L.PixiOverlay.js:96-103); no contract of its own, its properties are in `Viewport.TopLeftOffsetAtSettledView` and `Viewport.TopLeftOffsetPivot` |
| Viewport.TopLeftOffsetAtSettledView | L.PixiOverlay.js:129-136 | for the view the layer was last drawn for, the CSS transform is the identity: scale one, offset the current position |
| Viewport.TopLeftOffsetPivot | L.PixiOverlay.js:129-136 | the CSS scale pivots on the centre of the padded container: that pixel moves only by the shift of the map centre |
| QuadLayout.SlotShift | docs/js/MarkerContainer.js:247 | advancing the offset by `4 * stride` moves every record on by one child |
| QuadLayout.FitsLastCell | docs/js/MarkerContainer.js:253-270 | every write of a fill is in range exactly when the last one, slot 1 of vertex 3 of the last child, is |
| QuadLayout.WithQuadUpdates | docs/js/MarkerContainer.js:257-267 | the eight writes for one child, in source order, leave the buffer `WithQuad` describes |
| QuadLayout.WithQuadReadBack | docs/js/MarkerContainer.js:257-267 | with records at least two cells apart, the eight writes for one child do not overwrite one another |
| QuadLayout.Filled | docs/js/MarkerContainer.js:253-270 | the array after an upload loop's writes for each child in turn; it keeps the array's length, and its other properties are in `QuadLayout.FilledBelow`, `QuadLayout.FilledFrame` and `QuadLayout.FilledReadBack` |
| QuadLayout.FilledBelow | docs/js/MarkerContainer.js:253-270 | a fill changes no cell before its starting offset |
| QuadLayout.FilledFrame | docs/js/MarkerContainer.js:253-270 | a fill changes only the two leading slots of each of the `4 * amount` records |
| QuadLayout.FilledReadBackFirst | docs/js/MarkerContainer.js:257-267 | after a fill the first child's eight cells hold its four vertices, whatever the later children write |
| QuadLayout.FilledReadBack | docs/js/MarkerContainer.js:253-270 | after a fill, slots 0 and 1 of vertex `k` of child `i` hold that vertex's x and y |
| MarkerContainer.VertexQuad | docs/js/MarkerContainer.js:214-245 | the vertex quad is an axis-aligned rectangle as wide and high as the trim, or as the whole frame without trim, placed so that the frame's anchor is at the origin |
| MarkerContainer.PositionQuad | docs/js/MarkerContainer.js:255-267 | all four vertices of a child's position quad are its position |
| MarkerContainer.UvsQuad | docs/js/MarkerContainer.js:275-308 | the texture's corner coordinates in order `(x0,y0)..(x3,y3)`, or zeros at every vertex when the texture has none |
| MarkerContainer.WriteQuad | docs/js/MarkerContainer.js:257-267 | the array after the eight writes is `WithQuad` of the array before |
| MarkerContainer.PropertyFlags | docs/js/MarkerContainer.js:39-48 | exactly two flags: the first is set iff `vertices` or `scale` is truthy; the second is cleared iff `position` is present and falsy |
| MarkerContainer.ParticleContainer.AddChild | docs/js/MarkerContainer.js:24-36 | the child is appended, `_boundsID` goes up by one, the new last index is reported to `onChildrenChange`, and the child is returned |
| MarkerContainer.ParticleContainer.AddChildren | docs/js/MarkerContainer.js:10-37 | several arguments are added one by one in order: all appended, `_boundsID` up by their number, each index reported in turn, the first argument returned |
| MarkerContainer.ParticleContainer.SetProperties | docs/js/MarkerContainer.js:39-48 | `_properties` becomes the flag pair of the argument |
| MarkerContainer.BufferUpdateID | docs/js/MarkerContainer.js:186 | `container._bufferUpdateIDs[i] \|\| 0`; no contract of its own, used by `RenderPlan` |
| MarkerContainer.RenderPlan | docs/js/MarkerContainer.js:163-199 | the specification of `render`'s loop; no contract of its own, its properties are in `MarkerContainer.RenderPlanBatches`, `RenderPlanLength`, `RenderPlanCovers`, `RenderPlanStaticSticky`, `RenderPlanStamps` and `RenderPlanZeroBatchSize`, and `MarkerContainer.ParticleRenderer.Render` is proved to follow it |
| MarkerContainer.RenderPlanBatches | docs/js/MarkerContainer.js:163-170 | batches start at the first child, follow each other `batchSize` apart, use consecutive buffers, and each takes `min(batchSize, total - start)` children, at least one |
| MarkerContainer.RenderPlanLength | docs/js/MarkerContainer.js:163-179 | one batch per `batchSize` children when buffers may be added, otherwise as many as there are buffers at most; a growing list ends with at least one buffer per batch, a fixed one keeps its length |
| MarkerContainer.RenderPlanCovers | docs/js/MarkerContainer.js:122-131 | the batches never cover more than the (capped) children, and cover exactly all of them when buffers may be added or suffice |
| MarkerContainer.RenderPlanStaticSticky | docs/js/MarkerContainer.js:186-194 | once a batch uploads its static part every later batch does too |
| MarkerContainer.RenderPlanStamps | docs/js/MarkerContainer.js:172-194 | the buffer list never shrinks and buffers already passed are untouched; the buffer of each batch ends with the container's `_updateID` exactly when that batch uploaded its static part, and otherwise keeps the `_updateID` it had (a buffer the render added keeps the one it started with); a buffer no batch used is unchanged |
| MarkerContainer.RenderPlanAdvance | docs/js/MarkerContainer.js:163-199 | one iteration of the loop appends the batch it draws and leaves the rest of the same plan ahead |
| MarkerContainer.RenderPlanZeroBatchSize | docs/js/MarkerContainer.js:163-179 | with a zero batch size and no `autoResize`, the loop stays at the same child and draws one empty batch in each remaining buffer, then stops at the end of the buffer list |
| MarkerContainer.ParticleRenderer.Render | docs/js/MarkerContainer.js:115-200 | nothing is drawn or changed without children; otherwise texture and anchor are copied and the batches drawn and the container's buffers afterwards are exactly those of `RenderPlan` over at most `maxSize` children |
| MarkerContainer.ParticleRenderer.UploadVertices | docs/js/MarkerContainer.js:202-249 | the array is the fill of the same vertex quad for every child from `offset` |
| MarkerContainer.ParticleRenderer.UploadPosition | docs/js/MarkerContainer.js:251-271 | the array is the fill of each child's position quad, in child order from `startIndex` |
| MarkerContainer.ParticleRenderer.UploadUvs | docs/js/MarkerContainer.js:273-313 | the array is the fill of the texture's corner quad (or zeros) for every child |
| PixiOverlay.DefaultOptions | L.PixiOverlay.js:27-41 | padding 0.1, no forced canvas, resolution 2 on a retina screen and 1 otherwise |
| PixiOverlay.GetEvents | L.PixiOverlay.js:109-119 | `zoom`, `moveend` and `zoomend` are always handled by `_onZoom`, `_update` and `_zoomChange`; `zoomanim` is handled by `_onAnimZoom` exactly on a zoom-animated map |
| PixiOverlay.Overlay.constructor | L.PixiOverlay.js:43-54 | a new layer keeps its options and scene root and has no container, renderer or bounds yet |
| PixiOverlay.Overlay.OnAdd | L.PixiOverlay.js:56-103 | container and renderer are made only on the first add and reused afterwards; the container is in the pane; the reference zoom (the corrected default, see "## Left out"), its origin projection, the map's initial zoom and the zoom scale are set; the layer is drawn and the container shown at the bounds for the map state unless a zoom animation runs over a drawn layer; `_round` is as before |
| PixiOverlay.Overlay.Attach | L.PixiOverlay.js:57-74 | the part of `onAdd` before `_update`: the same frame is set, bounds are untouched |
| PixiOverlay.Overlay.OnRemove | L.PixiOverlay.js:105-107 | the container leaves the pane |
| PixiOverlay.Overlay.OnAnimZoomHandler | L.PixiOverlay.js:121-123 | the container is moved and scaled towards the animation's target view |
| PixiOverlay.Overlay.OnZoomHandler | L.PixiOverlay.js:125-127 | the container is moved and scaled towards the map's current view |
| PixiOverlay.Overlay.UpdateTransform | L.PixiOverlay.js:129-142 | the container is shown at `TopLeftOffset` from its stored position, scaled by the zoom scale with 3D transforms; without them its stored position is overwritten |
| PixiOverlay.Overlay.Update | L.PixiOverlay.js:144-185 | nothing changes while a zoom animates over a drawn layer; otherwise bounds, centre and zoom are taken from the map, the container moves to the bounds (shown at their top-left corner, and at scale one with 3D transforms, which ends a zoom animation's CSS scale), the renderer is resized and restyled exactly when the size changed, the scene root gets the scale and the shift, the callback runs once with rounding off, and `_round` is restored |
| PixiOverlay.Overlay.ResizeRenderer | L.PixiOverlay.js:162-177 | the resize guard: one resize and restyle exactly when the recorded size differs, and the recorded size is the new size afterwards |
| PixiOverlay.Overlay.Redraw | L.PixiOverlay.js:178-184 | with rounding off, the scene root gets the layer's scale and the unrounded shift, the callback runs once, and `_round` is restored |
| PixiOverlay.Overlay.DisableLeafletRounding | L.PixiOverlay.js:187-190 | the current `_round` is saved in the layer's slot and the identity installed |
| PixiOverlay.Overlay.EnableLeafletRounding | L.PixiOverlay.js:192-194 | `_round` is restored from the slot |
| PixiOverlay.Overlay.ZoomChangeHandler | L.PixiOverlay.js:196-198 | the scale becomes the zoom scale from the reference zoom to the map's zoom |
| PixiOverlay.Overlay.UtilsGetScale | L.PixiOverlay.js:88-91 | a positive scale for an explicit zoom, exactly one at the reference zoom |
| PixiOverlay.Overlay.UtilsLatLngToLayerPoint | L.PixiOverlay.js:78-82 | `utils.latLngToLayerPoint`: the projection at the given zoom, or at the reference zoom; no contract of its own, its properties are in `PixiOverlay.UtilsRoundTrip` and `PixiOverlay.DrawnIsRegistered` |
| PixiOverlay.Overlay.UtilsLayerPointToLatLng | L.PixiOverlay.js:83-87 | `utils.layerPointToLatLng`; no contract of its own, its property is in `PixiOverlay.UtilsRoundTrip` |
| PixiOverlay.UtilsRoundTrip | L.PixiOverlay.js:78-87 | `utils.layerPointToLatLng` undoes `utils.latLngToLayerPoint` at any zoom |
| PixiOverlay.DrawnIsRegistered | L.PixiOverlay.js:179-183 | after an update, a point the callback places at `utils.latLngToLayerPoint(ll)` is drawn on the map's own layer point for `ll` |
| PixiOverlay.CreateOverlay | L.PixiOverlay.js:204-206 | a fresh, empty layer exactly when the browser supports canvas, `null` otherwise |
| PixiOverlay.RoundingToggleRestores | L.PixiOverlay.js:187-194 | a disable/enable pair leaves `_round` as it was |
| PixiOverlay.RoundingToggleSingleSlot | L.PixiOverlay.js:187-194 | the save slot holds one value: a second disable before the enable loses Leaflet's rounding |
| PixiOverlay.UpdateTwice | L.PixiOverlay.js:162-177 | two updates for the same map state resize the renderer at most once |
| LegacyPixiOverlay.DefaultOptions | src/L.PixiOverlay.js:3-9 | padding 0.1 and no forced canvas |
| LegacyPixiOverlay.GetEvents | src/L.PixiOverlay.js:75-86 | as in 1.0.0, plus a `fly` handler that runs `_zoomChange` then `_update` |
| LegacyPixiOverlay.Overlay.constructor | src/L.PixiOverlay.js:11-15 | a new layer keeps its options and has no container, renderer or bounds yet |
| LegacyPixiOverlay.Overlay.OnAdd | src/L.PixiOverlay.js:17-69 | renderer made only on the first add, its canvas the container, in the pane; reference and initial zoom are the map's zoom, so scale and `projection.scale` start at exactly one; the layer is drawn and the container shown at the bounds unless a zoom animation runs over a drawn layer, in which case the shift stays at zero |
| LegacyPixiOverlay.Overlay.Mount | src/L.PixiOverlay.js:18-31 | renderer made only when there is no container yet, its canvas used as the container and put in the pane |
| LegacyPixiOverlay.Overlay.Attach | src/L.PixiOverlay.js:17-43 | the part of `onAdd` before `_update`: frame frozen at the map's zoom, shift zero, scale `2^0 = 1` |
| LegacyPixiOverlay.Overlay.OnRemove | src/L.PixiOverlay.js:71-73 | the container leaves the pane |
| LegacyPixiOverlay.Overlay.OnAnimZoomHandler | src/L.PixiOverlay.js:88-90 | the container is moved and scaled towards the animation's target view |
| LegacyPixiOverlay.Overlay.OnZoomHandler | src/L.PixiOverlay.js:92-94 | the container is moved and scaled towards the map's current view |
| LegacyPixiOverlay.Overlay.UpdateTransform | src/L.PixiOverlay.js:96-109 | as in 1.0.0 |
| LegacyPixiOverlay.Overlay.Update | src/L.PixiOverlay.js:111-138 | nothing changes while a zoom animates over a drawn layer; otherwise the container is shown at the bounds' top-left corner (at scale one with 3D transforms), the renderer is resized and the container restyled on every call, the shift is stored with rounding off, and `draw` runs the callback once |
| LegacyPixiOverlay.Overlay.StoreShift | src/L.PixiOverlay.js:132-135 | the unrounded shift is stored on the layer and `_round` restored |
| LegacyPixiOverlay.Overlay.Draw | src/L.PixiOverlay.js:149-153 | the callback runs once with rounding off, and `_round` is as before afterwards |
| LegacyPixiOverlay.Overlay.DisableLeafletRounding | src/L.PixiOverlay.js:140-143 | the current `_round` is saved and the identity installed |
| LegacyPixiOverlay.Overlay.EnableLeafletRounding | src/L.PixiOverlay.js:145-147 | `_round` is restored from the slot |
| LegacyPixiOverlay.Overlay.ZoomChangeHandler | src/L.PixiOverlay.js:155-159 | the scale becomes `2^(zoom - initialZoom)` and `projection.scale` equals it |
| LegacyPixiOverlay.Overlay.FlyHandler | src/L.PixiOverlay.js:80 | `_zoomChange` before `_update`: the new scale is in place when the layer is drawn, and the container is shown at the bounds |
| LegacyPixiOverlay.Overlay.ProjectionLatLngToLayerPoint | src/L.PixiOverlay.js:48-52 | `projection.latLngToLayerPoint`; no contract of its own, its properties are in `LegacyPixiOverlay.ProjectionRoundTrip` and `LegacyPixiOverlay.DrawnIsRegistered` |
| LegacyPixiOverlay.Overlay.ProjectionLayerPointToLatLng | src/L.PixiOverlay.js:53-57 | `projection.layerPointToLatLng`; no contract of its own, its property is in `LegacyPixiOverlay.ProjectionRoundTrip` |
| LegacyPixiOverlay.ProjectionRoundTrip | src/L.PixiOverlay.js:48-57 | `projection.layerPointToLatLng` undoes `projection.latLngToLayerPoint` at any zoom |
| LegacyPixiOverlay.Pow2IsZoomScale | src/L.PixiOverlay.js:155-159 | the base-2 scale equals the map's zoom scale when the pixel density is `256 * 2^z` |
| LegacyPixiOverlay.DrawnIsRegistered | src/L.PixiOverlay.js:132-136 | a callback that scales a projected point by `projection.scale` and moves it by the layer's shift draws it on the map's own layer point |
| LegacyPixiOverlay.CreateOverlay | src/L.PixiOverlay.js:165-167 | a fresh, empty layer exactly when the browser supports canvas, `null` otherwise |
| LegacyPixiOverlay.UpdateTwice | src/L.PixiOverlay.js:128 | without a size guard, two updates for the same map state resize the renderer twice with the same size |

## Left out

- GPU work: the shaders of `onContextChange`, `setBlendMode`, the projection matrix and uniforms, `bindTexture`, `bindVao` and the draw call. `render` records each loop iteration as a `Batch` instead.
- The bodies of `uploadDynamic`/`uploadStatic`, `generateBuffers` and `_generateOneMoreBuffer`. The buffers `generateBuffers` returns and the `_updateID` of an added buffer are parameters of `Render`.
- MarkerContainer.ParticleRenderer.Render: the source mutates the container's buffer array in place through the alias `buffers`. The model works on a local sequence and stores it on the container once, after the loop. Nothing reads the list during the loop, so the final state is the same.
- MarkerContainer.ParticleRenderer.Render: excludes a zero `batchSize` on an `autoResize` container with children to draw (`maxSize` above zero). There the source's loop never moves past the first child and adds buffers without end. A zero batch size without `autoResize` is modelled: the loop draws one empty batch per remaining buffer and stops (`MarkerContainer.RenderPlanZeroBatchSize`).
- MarkerContainer.ParticleContainer.AddChildren: requires at least one argument. `addChild()` with none pushes `undefined`.
- MarkerContainer.ParticleRenderer.UploadVertices, UploadPosition and UploadUvs: require a non-negative `offset`, a non-negative stride and an array long enough for every write. A JavaScript typed array silently drops out-of-range writes, negative indices included.
- The body of `onChildrenChange`: the model logs the indices it receives.
- The WebGL resolution correction of `_update` (the `drawingBufferWidth` check and the second `resize`, L.PixiOverlay.js:163-175). It depends on the device.
- The `resolution` option: only its default is modelled, not its use by the renderer.
- A user-supplied `projectionZoom` option. `onAdd` uses the default, in its corrected form (next line).
- PixiOverlay.Overlay.OnAdd, PixiOverlay.Overlay.Attach: the reference zoom is the corrected default `Viewport.ProjectionZoom`, which is `minZoom + 8` when the map has no maximum zoom. The code as written (L.PixiOverlay.js:40) gives `Infinity` there, then a zoom scale of 0, and the scene shift `_update` computes is NaN. On a bounded range the two agree. See "## Findings".
- Adding the `leaflet-zoom-animated` class, `L.stamp`, `L.setOptions` merging, and the `utils`/`projection` getters that only return a field (`getRenderer`, `getContainer`, `getMap`, `getZoom`, `getBounds`, the `latLngToLayerFloatPoint` alias).
- The UMD loader, the demo pages, and Leaflet's and PIXI's own code. `project`, `unproject` and `getZoomScale` are defined from a coordinate reference system, `containerPointToLayerPoint` from the pane position, and `renderer.resize` only records its arguments.
- The event dispatch: `getEvents` returns the handler table, and each handler is a method taking the map state.
- The draw callback is a log entry. The model takes it not to touch the layer (no reentrancy), and exceptions are not modelled.
- Floating point: coordinates are exact reals.
- LegacyPixiOverlay.Overlay.OnAdd, LegacyPixiOverlay.Overlay.ZoomChangeHandler, LegacyPixiOverlay.Overlay.FlyHandler: `Math.pow(2, ·)` is passed in as a function `pow2`. Only `OnAdd` relies on a property of it, its value at 0 (exactly 1). Nothing ties the `pow2` given to one call to the `pow2` given to another.

## Findings

| source | as written | input that shows it | evidently intended | confidence | as-written member | corrected member |
|---|---|---|---|---|---|---|
| L.PixiOverlay.js:40 | the default `projectionZoom` is `(map.getMaxZoom() + map.getMinZoom()) / 2` | a map with no `maxZoom` option and no layer that bounds the zoom: `getMaxZoom()` is `Infinity`, so the reference zoom is `Infinity` and the zoom scale to it is 0, `_wgsInitialShift`, the origin projected at it, is infinite, and the scene shift `_update` computes (line 180, infinite times 0) is NaN | a finite reference zoom; the model takes `minZoom + 8` when the range is unbounded | not executed | Viewport.ProjectionZoomAsWrittenUnbounded | Viewport.ProjectionZoom |

The 1.0.0 layer's `OnAdd` uses the corrected `Viewport.ProjectionZoom`. On a bounded range it agrees with the code as written.
