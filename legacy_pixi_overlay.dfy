/** The earlier `L.PixiOverlay` (src/L.PixiOverlay.js). It differs from
    version 1.0.0 in that the renderer's own canvas is the layer's container,
    the reference zoom is the map's zoom when the layer is added, the scale is
    `Math.pow(2, zoom - initialZoom)`, the renderer is resized on every update,
    the shift is left on the layer for the draw callback to apply, drawing is a
    public `draw` method, and a `fly` event is handled. */
module LegacyPixiOverlay {
  import opened Geometry
  import opened Leaflet
  import opened Pixi
  import opened Viewport

  datatype Options = Options(padding: real, forceCanvas: bool)

  function DefaultOptions(): (o: Options)
    ensures o.padding == 0.1 && !o.forceCanvas
  {
    Options(0.1, false)
  }

  datatype EventName = ZoomEvent | MoveEnd | ZoomEnd | ZoomAnim | Fly
  /** `ZoomChangeThenUpdate` is the anonymous `fly` handler. */
  datatype Handler = OnZoom | Update | ZoomChange | OnAnimZoom | ZoomChangeThenUpdate

  /** `getEvents()` */
  function GetEvents(zoomAnimated: bool): (events: map<EventName, Handler>)
    ensures ZoomAnim in events <==> zoomAnimated
    ensures ZoomEvent in events && MoveEnd in events && ZoomEnd in events && Fly in events
    ensures events[ZoomEvent] == OnZoom && events[MoveEnd] == Update && events[ZoomEnd] == ZoomChange
    ensures events[Fly] == ZoomChangeThenUpdate
    ensures zoomAnimated ==> events[ZoomAnim] == OnAnimZoom
  {
    var events := map[ZoomEvent := OnZoom, MoveEnd := Update, ZoomEnd := ZoomChange, Fly := ZoomChangeThenUpdate];
    if zoomAnimated then events[ZoomAnim := OnAnimZoom] else events
  }

  class Overlay {
    const options: Options
    var container: DomElement?
    var renderer: Renderer?
    var bounds: Option<Bounds>
    var center: LatLng
    var zoom: real
    var pixelOrigin: Point
    var wgsInitialShift: Point
    var mapInitialZoom: real
    var initialZoom: real
    var shift: Point
    var scale: real
    /** `projection.scale`, the copy of the scale handed to the draw callback. */
    var projectionScale: real
    var leafletRound: Option<RoundFn>
    var draws: seq<DrawCall>

    ghost predicate Valid()
      reads this
    {
      && (container == null <==> renderer == null)
      && (renderer != null ==> container == renderer.view)
      && (bounds.Some? ==> container != null)
    }

    ghost function Parts(): set<object>
      reads this
    {
      if renderer == null then {} else {renderer, renderer.view}
    }

    /** The state `_update` leaves behind for the map state `m` with `round`
        installed as `_round`. */
    ghost predicate Drawn(m: MapState, round: RoundFn)
      requires Valid() && container != null
      reads this, container, renderer
    {
      && bounds == Some(PaddedBounds(m, options.padding, round))
      && center == m.center && zoom == m.zoom
      && container.leafletPos == Some(bounds.value.min)
      && container.cssSize == Some(bounds.value.Size())
      && renderer.resizes != [] && renderer.resizes[|renderer.resizes| - 1] == bounds.value.Size()
      && shift == SceneShift(m, NoRounding, wgsInitialShift, scale, bounds.value.min)
      && draws != [] && draws[|draws| - 1] == DrawCall(NoRounding, m.zoom, projectionScale)
    }

    /** Where `L.DomUtil.setPosition(container, bounds.min)` leaves the
        container on screen: at the bounds' top-left corner and, with 3D
        transforms, at scale one, so a zoom animation's CSS scale is gone. */
    ghost predicate ShownAtBounds(browser: Browser)
      reads this, container
    {
      && container != null && bounds.Some?
      && container.shownOffset == bounds.value.min
      && (browser.any3d ==> container.shownScale == 1.0)
    }

    /** `initialize(drawCallback, options)` */
    constructor (options: Options)
      ensures Valid() && this.options == options
      ensures container == null && renderer == null && bounds == None
      ensures leafletRound == None && draws == []
    {
      this.options := options;
      container, renderer, bounds := null, null, None;
      center, zoom, pixelOrigin := Origin, 0.0, Point(0.0, 0.0);
      wgsInitialShift, mapInitialZoom, initialZoom := Point(0.0, 0.0), 0.0, 0.0;
      shift, scale, projectionScale := Point(0.0, 0.0), 1.0, 1.0;
      leafletRound, draws := None, [];
    }

    /** `onAdd`: on the first add only, make the renderer and use its canvas
        as the container; put it in the pane; take the map's zoom as the
        reference zoom, so that the scale starts at one; then update.
        `pow2` is `Math.pow(2, ·)`; only its value at 0 is relied on. */
    method OnAdd(m: MapState, proto: PointPrototype, browser: Browser, pow2: real -> PosReal)
      requires Valid() && pow2(0.0) == 1.0
      modifies this, Parts(), proto
      ensures Valid() && container != null && container.inPane && bounds.Some?
      ensures old(container) != null ==> container == old(container) && renderer == old(renderer)
      ensures old(container) == null ==> fresh(renderer) && fresh(container)
      ensures initialZoom == m.zoom && mapInitialZoom == m.zoom && pixelOrigin == m.pixelOrigin
      ensures wgsInitialShift == Project(m.crs, Origin, m.zoom)
      ensures scale == 1.0 && projectionScale == 1.0
      ensures proto.round == old(proto.round)
      ensures !(m.animatingZoom && old(bounds).Some?) ==> Drawn(m, old(proto.round)) && ShownAtBounds(browser)
      ensures m.animatingZoom && old(bounds).Some? ==> shift == Point(0.0, 0.0)
    {
      Attach(m, proto, pow2);
      Update(m, proto, browser);
    }

    /** The part of `onAdd` before `_update()`. */
    method Attach(m: MapState, proto: PointPrototype, pow2: real -> PosReal)
      requires Valid() && pow2(0.0) == 1.0
      modifies this, Parts(), proto
      ensures Valid() && container != null && container.inPane
      ensures old(container) != null ==> container == old(container) && renderer == old(renderer)
      ensures old(container) == null ==> fresh(renderer) && fresh(container)
      ensures initialZoom == m.zoom && mapInitialZoom == m.zoom && pixelOrigin == m.pixelOrigin
      ensures wgsInitialShift == Project(m.crs, Origin, m.zoom)
      ensures shift == Point(0.0, 0.0) && scale == 1.0 && projectionScale == 1.0
      ensures proto.round == old(proto.round) && bounds == old(bounds)
    {
      Mount();
      var zoom := m.zoom;
      DisableLeafletRounding(proto);
      var initialShift := Project(m.crs, Origin, zoom);
      EnableLeafletRounding(proto);
      var s := pow2(m.zoom - zoom);
      pixelOrigin, wgsInitialShift, mapInitialZoom, initialZoom := m.pixelOrigin, initialShift, m.zoom, zoom;
      shift, scale, projectionScale := Point(0.0, 0.0), s, s;
    }

    /** The first lines of `onAdd`: make the renderer on the first add only,
        use its canvas as the container, and put that in the pane. */
    method Mount()
      requires Valid()
      modifies this`container, this`renderer, Parts()
      ensures Valid() && container != null && container.inPane
      ensures old(container) != null ==> container == old(container) && renderer == old(renderer)
      ensures old(container) == null ==> fresh(renderer) && fresh(container)
    {
      if container == null {
        renderer := new Renderer();
        container := renderer.view;
      }
      container.inPane := true;
    }

    /** `onRemove` */
    method OnRemove()
      requires Valid() && container != null
      modifies container`inPane
      ensures !container.inPane
    {
      container.inPane := false;
    }

    /** `_onAnimZoom(ev)` */
    method OnAnimZoomHandler(center: LatLng, zoom: real, m: MapState, browser: Browser)
      requires Valid() && bounds.Some?
      modifies container`leafletPos, container`shownOffset, container`shownScale
      ensures container.shownOffset
              == TopLeftOffset(m, options.padding, this.center, this.zoom, center, zoom, old(container.GetPosition()))
      ensures browser.any3d ==> container.shownScale == GetZoomScale(m.crs, zoom, this.zoom)
      ensures browser.any3d ==> container.leafletPos == old(container.leafletPos)
      ensures !browser.any3d ==> container.leafletPos == Some(container.shownOffset)
      ensures !browser.any3d ==> container.shownScale == old(container.shownScale)
    {
      UpdateTransform(center, zoom, m, browser);
    }

    /** `_onZoom()` */
    method OnZoomHandler(m: MapState, browser: Browser)
      requires Valid() && bounds.Some?
      modifies container`leafletPos, container`shownOffset, container`shownScale
      ensures container.shownOffset
              == TopLeftOffset(m, options.padding, center, zoom, m.center, m.zoom, old(container.GetPosition()))
      ensures browser.any3d ==> container.shownScale == GetZoomScale(m.crs, m.zoom, zoom)
      ensures browser.any3d ==> container.leafletPos == old(container.leafletPos)
      ensures !browser.any3d ==> container.leafletPos == Some(container.shownOffset)
      ensures !browser.any3d ==> container.shownScale == old(container.shownScale)
    {
      UpdateTransform(m.center, m.zoom, m, browser);
    }

    /** `_updateTransform(center, zoom)`, as in version 1.0.0. */
    method UpdateTransform(center: LatLng, zoom: real, m: MapState, browser: Browser)
      requires Valid() && bounds.Some?
      modifies container`leafletPos, container`shownOffset, container`shownScale
      ensures container.shownOffset
              == TopLeftOffset(m, options.padding, this.center, this.zoom, center, zoom, old(container.GetPosition()))
      ensures browser.any3d ==> container.shownScale == GetZoomScale(m.crs, zoom, this.zoom)
      ensures browser.any3d ==> container.leafletPos == old(container.leafletPos)
      ensures !browser.any3d ==> container.leafletPos == Some(container.shownOffset)
      ensures !browser.any3d ==> container.shownScale == old(container.shownScale)
    {
      var scale := GetZoomScale(m.crs, zoom, this.zoom);
      var position := container.GetPosition();
      var topLeftOffset := TopLeftOffset(m, options.padding, this.center, this.zoom, center, zoom, position);
      if browser.any3d {
        container.SetTransform(topLeftOffset, Some(scale));
      } else {
        container.SetPosition(topLeftOffset, browser);
      }
    }

    /** `_update()`: as in version 1.0.0 except that the renderer is resized
        and its canvas restyled every time, and the shift is stored on the
        layer before `draw()` runs the callback. */
    method Update(m: MapState, proto: PointPrototype, browser: Browser)
      requires Valid() && container != null
      modifies this`bounds, this`center, this`zoom, this`shift, this`leafletRound, this`draws
      modifies container`leafletPos, container`shownOffset, container`shownScale, container`cssSize
      modifies renderer`resizes, proto
      ensures Valid() && bounds.Some? && proto.round == old(proto.round)
      ensures m.animatingZoom && old(bounds).Some? ==> unchanged(this, container, renderer)
      ensures !(m.animatingZoom && old(bounds).Some?) ==>
                && Drawn(m, old(proto.round)) && ShownAtBounds(browser)
                && leafletRound == Some(old(proto.round))
                && renderer.resizes == old(renderer.resizes) + [bounds.value.Size()]
                && draws == old(draws) + [DrawCall(NoRounding, m.zoom, projectionScale)]
    {
      if m.animatingZoom && bounds.Some? {
        return;
      }
      var p := options.padding;
      var min := RoundWith(proto.round, ContainerPointToLayerPoint(m, m.size.MultiplyBy(-p)));
      var b := BoundsOf(min, RoundWith(proto.round, min.Add(m.size.MultiplyBy(1.0 + p * 2.0))));
      bounds := Some(b);
      center := m.center;
      zoom := m.zoom;
      var size := b.Size();
      container.SetPosition(b.min, browser);
      renderer.Resize(size.x, size.y);
      container.cssSize := Some(size);
      StoreShift(m, proto, b.min);
      Draw(m, proto);
    }

    /** The shift step of `_update()`: with Leaflet's rounding off, store the
        shift from the padded top-left `min` on the layer. */
    method StoreShift(m: MapState, proto: PointPrototype, min: Point)
      modifies this`shift, this`leafletRound, proto
      ensures shift == SceneShift(m, NoRounding, wgsInitialShift, scale, min)
      ensures leafletRound == Some(old(proto.round)) && proto.round == old(proto.round)
    {
      DisableLeafletRounding(proto);
      shift := LatLngToLayerPoint(m, proto.round, Origin)
                 .Subtract(wgsInitialShift.MultiplyBy(scale)).Subtract(min);
      EnableLeafletRounding(proto);
    }

    /** `draw()`: run the callback with Leaflet's rounding off. */
    method Draw(m: MapState, proto: PointPrototype)
      modifies this`leafletRound, this`draws, proto
      ensures draws == old(draws) + [DrawCall(NoRounding, m.zoom, projectionScale)]
      ensures leafletRound == Some(old(proto.round)) && proto.round == old(proto.round)
    {
      DisableLeafletRounding(proto);
      draws := draws + [DrawCall(proto.round, m.zoom, projectionScale)];
      EnableLeafletRounding(proto);
    }

    /** `_disableLeafletRounding()` */
    method DisableLeafletRounding(proto: PointPrototype)
      modifies this`leafletRound, proto
      ensures leafletRound == Some(old(proto.round)) && proto.round == NoRounding
    {
      leafletRound := Some(proto.round);
      proto.round := NoRounding;
    }

    /** `_enableLeafletRounding()` */
    method EnableLeafletRounding(proto: PointPrototype)
      requires leafletRound.Some?
      modifies proto
      ensures proto.round == leafletRound.value
    {
      proto.round := leafletRound.value;
    }

    /** `_zoomChange()`: a base-2 scale from the reference zoom, also copied
        to `projection.scale`; `pow2` is `Math.pow(2, ·)`. */
    method ZoomChangeHandler(m: MapState, pow2: real -> PosReal)
      modifies this`scale, this`projectionScale
      ensures scale == pow2(m.zoom - initialZoom) && projectionScale == scale
    {
      var zoomDiff := m.zoom - initialZoom;
      scale := pow2(zoomDiff);
      projectionScale := scale;
    }

    /** The `fly` handler: `_zoomChange()` then `_update()`. */
    method FlyHandler(m: MapState, proto: PointPrototype, browser: Browser, pow2: real -> PosReal)
      requires Valid() && container != null
      modifies this`scale, this`projectionScale
      modifies this`bounds, this`center, this`zoom, this`shift, this`leafletRound, this`draws
      modifies container`leafletPos, container`shownOffset, container`shownScale, container`cssSize
      modifies renderer`resizes, proto
      ensures Valid() && scale == pow2(m.zoom - initialZoom) && projectionScale == scale
      ensures !(m.animatingZoom && old(bounds).Some?) ==> Drawn(m, old(proto.round)) && ShownAtBounds(browser)
    {
      ZoomChangeHandler(m, pow2);
      Update(m, proto, browser);
    }

    /** `projection.latLngToLayerPoint(latLng, zoom)` */
    function ProjectionLatLngToLayerPoint(m: MapState, ll: LatLng, zoom: Option<real>): Point
      reads this
    {
      Project(m.crs, ll, if zoom.None? then initialZoom else zoom.value)
    }

    /** `projection.layerPointToLatLng(point, zoom)` */
    function ProjectionLayerPointToLatLng(m: MapState, p: Point, zoom: Option<real>): LatLng
      reads this
    {
      Unproject(m.crs, p, if zoom.None? then initialZoom else zoom.value)
    }
  }

  /** The two `projection` functions undo each other at any zoom. */
  lemma ProjectionRoundTrip(o: Overlay, m: MapState, ll: LatLng, zoom: Option<real>)
    requires m.crs.fromPlane(m.crs.toPlane(ll)) == ll
    ensures o.ProjectionLayerPointToLatLng(m, o.ProjectionLatLngToLayerPoint(m, ll, zoom), zoom) == ll
  {
    UnprojectProject(m.crs, ll, if zoom.None? then o.initialZoom else zoom.value);
  }

  /** The base-2 scale of `_zoomChange` is the map's zoom scale exactly when
      the CRS's pixel density is `256 * 2^z`, as it is for Leaflet's built-in
      spherical CRSs. */
  lemma Pow2IsZoomScale(crs: Crs, pow2: real -> PosReal, zoom: real, initialZoom: real)
    requires crs.scale(zoom) == 256.0 * pow2(zoom)
    requires crs.scale(initialZoom) == 256.0 * pow2(initialZoom)
    requires pow2(zoom) == pow2(zoom - initialZoom) * pow2(initialZoom)
    ensures pow2(zoom - initialZoom) == GetZoomScale(crs, zoom, initialZoom)
  {
    var a, b := pow2(zoom - initialZoom), pow2(initialZoom);
    assert (256.0 * a * b) / (256.0 * b) == a;
  }

  /** A callback that places a point at `projection.latLngToLayerPoint(ll)`,
      scales it by `projection.scale` and moves it by the layer's shift lands
      on the map's own layer point for `ll`, relative to the container. */
  lemma DrawnIsRegistered(o: Overlay, m: MapState, round: RoundFn, ll: LatLng)
    requires o.Valid() && o.container != null && o.Drawn(m, round)
    requires o.wgsInitialShift == Project(m.crs, Origin, o.initialZoom)
    requires o.scale == o.projectionScale == GetZoomScale(m.crs, m.zoom, o.initialZoom)
    ensures SceneToLayer(o.bounds.value.min, o.projectionScale, o.shift, o.ProjectionLatLngToLayerPoint(m, ll, None))
            == LatLngToLayerPoint(m, NoRounding, ll)
  {
    SceneRegistration(m, o.initialZoom, o.bounds.value.min, ll);
  }

  /** `L.pixiOverlay(drawCallback, options)` */
  method CreateOverlay(browser: Browser, options: Options) returns (o: Overlay?)
    ensures o != null <==> browser.canvas
    ensures o != null ==> fresh(o) && o.Valid() && o.options == options && o.container == null && o.draws == []
  {
    if browser.canvas {
      o := new Overlay(options);
    } else {
      o := null;
    }
  }

  /** Without a size guard, two `moveend` updates for the same map state
      resize the renderer twice with the same size. */
  method UpdateTwice(o: Overlay, m: MapState, proto: PointPrototype, browser: Browser)
    requires o.Valid() && o.container != null && !m.animatingZoom
    modifies o`bounds, o`center, o`zoom, o`shift, o`leafletRound, o`draws
    modifies o.container`leafletPos, o.container`shownOffset, o.container`shownScale, o.container`cssSize
    modifies o.renderer`resizes, proto
    ensures o.bounds.Some?
    ensures o.renderer.resizes == old(o.renderer.resizes) + [o.bounds.value.Size(), o.bounds.value.Size()]
  {
    o.Update(m, proto, browser);
    o.Update(m, proto, browser);
  }
}
