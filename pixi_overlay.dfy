/** `L.PixiOverlay`, version 1.0.0 (L.PixiOverlay.js): a Leaflet layer that
    keeps a PIXI scene registered with the map. The layer's fields are the
    fields of `Overlay`; the map's state at each event is a `MapState` value;
    `L.Point.prototype` is the shared `PointPrototype` object. */
module PixiOverlay {
  import opened Geometry
  import opened Leaflet
  import opened Pixi
  import opened Viewport

  /** `options` after `L.setOptions`; `projectionZoom` keeps its default. */
  datatype Options = Options(padding: real, forceCanvas: bool, resolution: real)

  /** The default options on a retina or an ordinary screen. */
  function DefaultOptions(retina: bool): (o: Options)
    ensures o.padding == 0.1 && !o.forceCanvas
    ensures o.resolution == if retina then 2.0 else 1.0
  {
    Options(0.1, false, if retina then 2.0 else 1.0)
  }

  /** The map events the layer listens to, and the handlers it registers. */
  datatype EventName = ZoomEvent | MoveEnd | ZoomEnd | ZoomAnim
  datatype Handler = OnZoom | Update | ZoomChange | OnAnimZoom

  /** `getEvents()`: `zoomanim` is listened to only on a zoom-animated map. */
  function GetEvents(zoomAnimated: bool): (events: map<EventName, Handler>)
    ensures ZoomAnim in events <==> zoomAnimated
    ensures ZoomEvent in events && MoveEnd in events && ZoomEnd in events
    ensures events[ZoomEvent] == OnZoom && events[MoveEnd] == Update && events[ZoomEnd] == ZoomChange
    ensures zoomAnimated ==> events[ZoomAnim] == OnAnimZoom
  {
    var events := map[ZoomEvent := OnZoom, MoveEnd := Update, ZoomEnd := ZoomChange];
    if zoomAnimated then events[ZoomAnim := OnAnimZoom] else events
  }

  class Overlay {
    const options: Options
    const pixiContainer: SceneRoot
    var container: DomElement?
    var renderer: Renderer?
    var bounds: Option<Bounds>
    var center: LatLng
    var zoom: real
    var scale: real
    var initialZoom: real
    var wgsInitialShift: Point
    var mapInitialZoom: real
    var leafletRound: Option<RoundFn>
    var draws: seq<DrawCall>

    ghost predicate Valid()
      reads this
    {
      && (container == null <==> renderer == null)
      && (renderer != null ==> container != renderer.view)
      && (bounds.Some? ==> container != null)
    }

    /** The objects the layer owns once added. */
    ghost function Parts(): set<object>
      reads this
    {
      (if container == null then {} else {container})
        + (if renderer == null then {} else {renderer, renderer.view})
    }

    /** The state `_update` leaves behind when it runs for the map state `m`
        with `round` installed as `_round`. */
    ghost predicate Drawn(m: MapState, round: RoundFn)
      requires Valid() && container != null
      reads this, container, renderer, pixiContainer
    {
      && bounds == Some(PaddedBounds(m, options.padding, round))
      && center == m.center && zoom == m.zoom
      && container.leafletPos == Some(bounds.value.min)
      && renderer.size == Some(bounds.value.Size())
      && pixiContainer.scale == scale
      && pixiContainer.position == SceneShift(m, NoRounding, wgsInitialShift, scale, bounds.value.min)
      && draws != [] && draws[|draws| - 1] == DrawCall(NoRounding, m.zoom, scale)
    }

    /** Where `L.DomUtil.setPosition(container, bounds.min)` leaves the
        container on screen: at the bounds' top-left corner and, with 3D
        transforms, at scale one, so a zoom animation's CSS scale is gone. */
    ghost predicate ShownAtBounds(browser: Browser)
      reads this, container
    {
      && container != null && bounds.Some?
      && container.shownOffset == bounds.value.min
      && (browser.any3d ==> container.shownScale == 1.0)
    }

    /** `initialize(drawCallback, pixiContainer, options)` */
    constructor (options: Options, pixiContainer: SceneRoot)
      ensures Valid() && this.options == options && this.pixiContainer == pixiContainer
      ensures container == null && renderer == null && bounds == None
      ensures leafletRound == None && draws == []
    {
      this.options, this.pixiContainer := options, pixiContainer;
      container, renderer, bounds := null, null, None;
      center, zoom, scale := Origin, 0.0, 1.0;
      initialZoom, wgsInitialShift, mapInitialZoom := 0.0, Point(0.0, 0.0), 0.0;
      leafletRound, draws := None, [];
    }

    /** `onAdd`: make the container and the renderer on the first add only,
        put the container in the pane, freeze the reference frame and update. */
    method OnAdd(m: MapState, proto: PointPrototype, browser: Browser)
      requires Valid()
      modifies this, Parts(), pixiContainer, proto
      ensures Valid() && container != null && container.inPane && bounds.Some?
      ensures old(container) != null ==> container == old(container) && renderer == old(renderer)
      ensures old(container) == null ==> fresh(container) && fresh(renderer) && fresh(renderer.view)
      ensures initialZoom == ProjectionZoom(m.minZoom, m.maxZoom)
      ensures wgsInitialShift == Project(m.crs, Origin, initialZoom)
      ensures mapInitialZoom == m.zoom
      ensures scale == GetZoomScale(m.crs, m.zoom, initialZoom)
      ensures proto.round == old(proto.round)
      ensures !(m.animatingZoom && old(bounds).Some?) ==> Drawn(m, old(proto.round)) && ShownAtBounds(browser)
    {
      Attach(m, proto);
      Update(m, proto, browser);
    }

    /** The part of `onAdd` before `_update()`. */
    method Attach(m: MapState, proto: PointPrototype)
      requires Valid()
      modifies this, Parts(), proto
      ensures Valid() && container != null && container.inPane
      ensures old(container) != null ==> container == old(container) && renderer == old(renderer)
      ensures old(container) == null ==> fresh(container) && fresh(renderer) && fresh(renderer.view)
      ensures initialZoom == ProjectionZoom(m.minZoom, m.maxZoom)
      ensures wgsInitialShift == Project(m.crs, Origin, initialZoom)
      ensures mapInitialZoom == m.zoom
      ensures scale == GetZoomScale(m.crs, m.zoom, initialZoom)
      ensures proto.round == old(proto.round) && bounds == old(bounds)
    {
      if container == null {
        container := new DomElement();
        renderer := new Renderer();
      }
      container.inPane := true;
      initialZoom := ProjectionZoom(m.minZoom, m.maxZoom);
      DisableLeafletRounding(proto);
      wgsInitialShift := Project(m.crs, Origin, initialZoom);
      EnableLeafletRounding(proto);
      mapInitialZoom := m.zoom;
      scale := GetZoomScale(m.crs, mapInitialZoom, initialZoom);
    }

    /** `onRemove`: take the container out of the pane; the renderer is kept. */
    method OnRemove()
      requires Valid() && container != null
      modifies container`inPane
      ensures !container.inPane
    {
      container.inPane := false;
    }

    /** `_onAnimZoom(ev)` */
    method OnAnimZoomHandler(center: LatLng, zoom: real, m: MapState, browser: Browser)
      requires Valid() && bounds.Some?
      modifies container`leafletPos, container`shownOffset, container`shownScale
      ensures container.shownOffset
              == TopLeftOffset(m, options.padding, this.center, this.zoom, center, zoom, old(container.GetPosition()))
      ensures browser.any3d ==> container.shownScale == GetZoomScale(m.crs, zoom, this.zoom)
      ensures browser.any3d ==> container.leafletPos == old(container.leafletPos)
      ensures !browser.any3d ==> container.leafletPos == Some(container.shownOffset)
      ensures !browser.any3d ==> container.shownScale == old(container.shownScale)
    {
      UpdateTransform(center, zoom, m, browser);
    }

    /** `_onZoom()` */
    method OnZoomHandler(m: MapState, browser: Browser)
      requires Valid() && bounds.Some?
      modifies container`leafletPos, container`shownOffset, container`shownScale
      ensures container.shownOffset
              == TopLeftOffset(m, options.padding, center, zoom, m.center, m.zoom, old(container.GetPosition()))
      ensures browser.any3d ==> container.shownScale == GetZoomScale(m.crs, m.zoom, zoom)
      ensures browser.any3d ==> container.leafletPos == old(container.leafletPos)
      ensures !browser.any3d ==> container.leafletPos == Some(container.shownOffset)
      ensures !browser.any3d ==> container.shownScale == old(container.shownScale)
    {
      UpdateTransform(m.center, m.zoom, m, browser);
    }

    /** `_updateTransform(center, zoom)`: a CSS-only move and scale of the
        container towards the view (`center`, `zoom`). With 3D transforms the
        remembered position is left alone; without them it is overwritten. */
    method UpdateTransform(center: LatLng, zoom: real, m: MapState, browser: Browser)
      requires Valid() && bounds.Some?
      modifies container`leafletPos, container`shownOffset, container`shownScale
      ensures container.shownOffset
              == TopLeftOffset(m, options.padding, this.center, this.zoom, center, zoom, old(container.GetPosition()))
      ensures browser.any3d ==> container.shownScale == GetZoomScale(m.crs, zoom, this.zoom)
      ensures browser.any3d ==> container.leafletPos == old(container.leafletPos)
      ensures !browser.any3d ==> container.leafletPos == Some(container.shownOffset)
      ensures !browser.any3d ==> container.shownScale == old(container.shownScale)
    {
      var scale := GetZoomScale(m.crs, zoom, this.zoom);
      var position := container.GetPosition();
      var topLeftOffset := TopLeftOffset(m, options.padding, this.center, this.zoom, center, zoom, position);
      if browser.any3d {
        container.SetTransform(topLeftOffset, Some(scale));
      } else {
        container.SetPosition(topLeftOffset, browser);
      }
    }

    /** `_update()`: unless a zoom animation runs over an already drawn layer,
        recompute the padded bounds, move the container there, resize the
        renderer only when its recorded size differs, set the scene root's
        scale and shift with rounding off, and call the draw callback. */
    method Update(m: MapState, proto: PointPrototype, browser: Browser)
      requires Valid() && container != null
      modifies this`bounds, this`center, this`zoom, this`leafletRound, this`draws
      modifies container`leafletPos, container`shownOffset, container`shownScale
      modifies renderer`size, renderer`resizes, renderer.view`cssSize, pixiContainer, proto
      ensures Valid() && bounds.Some? && proto.round == old(proto.round)
      ensures m.animatingZoom && old(bounds).Some? ==>
                && unchanged(this, container, renderer, renderer.view, pixiContainer)
      ensures !(m.animatingZoom && old(bounds).Some?) ==>
                var size := bounds.value.Size();
                && Drawn(m, old(proto.round)) && ShownAtBounds(browser)
                && leafletRound == Some(old(proto.round))
                && draws == old(draws) + [DrawCall(NoRounding, m.zoom, scale)]
                && renderer.resizes
                   == old(renderer.resizes) + (if NeedsResize(old(renderer.size), size) then [size] else [])
                && renderer.view.cssSize
                   == (if NeedsResize(old(renderer.size), size) then Some(size) else old(renderer.view.cssSize))
    {
      if m.animatingZoom && bounds.Some? {
        return;
      }
      var p := options.padding;
      var min := RoundWith(proto.round, ContainerPointToLayerPoint(m, m.size.MultiplyBy(-p)));
      var b := BoundsOf(min, RoundWith(proto.round, min.Add(m.size.MultiplyBy(1.0 + p * 2.0))));
      bounds := Some(b);
      center := m.center;
      zoom := m.zoom;
      var size := b.Size();
      container.SetPosition(b.min, browser);
      ResizeRenderer(size);
      Redraw(m, proto, b.min);
    }

    /** The resize step of `_update()`: resize the renderer and restyle its
        canvas only when the padded size differs from the renderer's. */
    method ResizeRenderer(size: Point)
      requires Valid() && renderer != null
      modifies renderer`size, renderer`resizes, renderer.view`cssSize
      ensures renderer.size == Some(size)
      ensures renderer.resizes == old(renderer.resizes) + (if NeedsResize(old(renderer.size), size) then [size] else [])
      ensures renderer.view.cssSize == (if NeedsResize(old(renderer.size), size) then Some(size) else old(renderer.view.cssSize))
    {
      if renderer.size.None? || renderer.size.value.x != size.x || renderer.size.value.y != size.y {
        renderer.Resize(size.x, size.y);
        renderer.view.cssSize := Some(size);
        renderer.size := Some(size);
      }
    }

    /** The drawing step of `_update()`: with Leaflet's rounding off, move the
        scene by the shift from the padded top-left `min`, scale it, and run
        the callback. */
    method Redraw(m: MapState, proto: PointPrototype, min: Point)
      modifies this`leafletRound, this`draws, pixiContainer, proto
      ensures pixiContainer.scale == scale
      ensures pixiContainer.position == SceneShift(m, NoRounding, wgsInitialShift, scale, min)
      ensures draws == old(draws) + [DrawCall(NoRounding, m.zoom, scale)]
      ensures leafletRound == Some(old(proto.round)) && proto.round == old(proto.round)
    {
      DisableLeafletRounding(proto);
      var shift := LatLngToLayerPoint(m, proto.round, Origin)
                     .Subtract(wgsInitialShift.MultiplyBy(scale)).Subtract(min);
      pixiContainer.scale := scale;
      pixiContainer.position := shift;
      draws := draws + [DrawCall(proto.round, m.zoom, scale)];
      EnableLeafletRounding(proto);
    }

    /** `_disableLeafletRounding()`: save `_round` in the layer's one slot and
        install the identity. */
    method DisableLeafletRounding(proto: PointPrototype)
      modifies this`leafletRound, proto
      ensures leafletRound == Some(old(proto.round)) && proto.round == NoRounding
    {
      leafletRound := Some(proto.round);
      proto.round := NoRounding;
    }

    /** `_enableLeafletRounding()`: put back what the slot holds. */
    method EnableLeafletRounding(proto: PointPrototype)
      requires leafletRound.Some?
      modifies proto
      ensures proto.round == leafletRound.value
    {
      proto.round := leafletRound.value;
    }

    /** `_zoomChange()`: the scale from the reference zoom to the map's zoom. */
    method ZoomChangeHandler(m: MapState)
      modifies this`scale
      ensures scale == GetZoomScale(m.crs, m.zoom, initialZoom)
    {
      scale := GetZoomScale(m.crs, m.zoom, initialZoom);
    }

    /** `utils.latLngToLayerPoint(latLng, zoom)`: project at `zoom`, by
        default at the reference zoom. */
    function UtilsLatLngToLayerPoint(m: MapState, ll: LatLng, zoom: Option<real>): Point
      reads this
    {
      Project(m.crs, ll, if zoom.None? then initialZoom else zoom.value)
    }

    /** `utils.layerPointToLatLng(point, zoom)` */
    function UtilsLayerPointToLatLng(m: MapState, p: Point, zoom: Option<real>): LatLng
      reads this
    {
      Unproject(m.crs, p, if zoom.None? then initialZoom else zoom.value)
    }

    /** `utils.getScale(zoom)`: the layer's scale, or the zoom scale from the
        reference zoom to `zoom`. */
    function UtilsGetScale(m: MapState, zoom: Option<real>): (r: real)
      reads this
      ensures zoom.Some? ==> r > 0.0
      ensures zoom == Some(initialZoom) ==> r == 1.0
    {
      if zoom.None? then scale else GetZoomScale(m.crs, zoom.value, initialZoom)
    }
  }

  /** The two `utils` projections undo each other at any zoom. */
  lemma UtilsRoundTrip(o: Overlay, m: MapState, ll: LatLng, zoom: Option<real>)
    requires m.crs.fromPlane(m.crs.toPlane(ll)) == ll
    ensures o.UtilsLayerPointToLatLng(m, o.UtilsLatLngToLayerPoint(m, ll, zoom), zoom) == ll
  {
    UnprojectProject(m.crs, ll, if zoom.None? then o.initialZoom else zoom.value);
  }

  /** After an update, on a layer whose scale is the zoom scale from the
      reference zoom (as `onAdd` and `zoomend` keep it), every point the draw
      callback places at `utils.latLngToLayerPoint(ll)` is drawn exactly on the
      map's own layer point for `ll`. */
  lemma DrawnIsRegistered(o: Overlay, m: MapState, round: RoundFn, ll: LatLng)
    requires o.Valid() && o.container != null && o.Drawn(m, round)
    requires o.wgsInitialShift == Project(m.crs, Origin, o.initialZoom)
    requires o.scale == GetZoomScale(m.crs, m.zoom, o.initialZoom)
    ensures SceneToLayer(o.bounds.value.min, o.pixiContainer.scale, o.pixiContainer.position,
                         o.UtilsLatLngToLayerPoint(m, ll, None))
            == LatLngToLayerPoint(m, NoRounding, ll)
  {
    SceneRegistration(m, o.initialZoom, o.bounds.value.min, ll);
  }

  /** `L.pixiOverlay(drawCallback, pixiContainer, options)`: no layer without
      canvas support. */
  method CreateOverlay(browser: Browser, options: Options, pixiContainer: SceneRoot) returns (o: Overlay?)
    ensures o != null <==> browser.canvas
    ensures o != null ==> fresh(o) && o.Valid() && o.options == options && o.pixiContainer == pixiContainer
    ensures o != null ==> o.container == null && o.bounds == None && o.draws == []
  {
    if browser.canvas {
      o := new Overlay(options, pixiContainer);
    } else {
      o := null;
    }
  }

  /** A disable/enable pair leaves `_round` as it found it. */
  method RoundingToggleRestores(o: Overlay, proto: PointPrototype)
    modifies o`leafletRound, proto
    ensures proto.round == old(proto.round)
  {
    o.DisableLeafletRounding(proto);
    o.EnableLeafletRounding(proto);
  }

  /** The slot holds one value: a second disable before the enable overwrites
      the saved `_round`, and Leaflet's rounding is not restored. */
  method RoundingToggleSingleSlot(o: Overlay, proto: PointPrototype)
    modifies o`leafletRound, proto
    ensures proto.round == NoRounding
  {
    o.DisableLeafletRounding(proto);
    o.DisableLeafletRounding(proto);
    o.EnableLeafletRounding(proto);
  }

  /** Two `moveend` updates for the same map state resize the renderer at
      most once: the second finds the size already recorded. */
  method UpdateTwice(o: Overlay, m: MapState, proto: PointPrototype, browser: Browser)
    requires o.Valid() && o.container != null && !m.animatingZoom
    modifies o`bounds, o`center, o`zoom, o`leafletRound, o`draws
    modifies o.container`leafletPos, o.container`shownOffset, o.container`shownScale
    modifies o.renderer`size, o.renderer`resizes, o.renderer.view`cssSize, o.pixiContainer, proto
    ensures |o.renderer.resizes| <= |old(o.renderer.resizes)| + 1
    ensures o.Drawn(m, old(proto.round)) && o.ShownAtBounds(browser)
  {
    o.Update(m, proto, browser);
    ghost var afterFirst := o.renderer.resizes;
    o.Update(m, proto, browser);
    assert o.renderer.resizes == afterFirst;
  }
}
