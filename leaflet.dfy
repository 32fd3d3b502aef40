/** The parts of the host map library (Leaflet) that the overlay calls. The
    map is a value: each handler receives the map's state at the moment the
    event fires. Leaflet's own code is not part of this model; the functions
    below follow the definitions Leaflet 1.x gives them. */
module Leaflet {
  import opened Geometry

  type PosReal = r: real | r > 0.0 witness 1.0

  /** A coordinate reference system: `latLngToPoint(ll, z)` is the zoom-free
      plane point of `ll` (projection followed by Leaflet's transformation)
      multiplied by `scale(z)`, the pixel density at zoom `z`. */
  datatype Crs = Crs(scale: real -> PosReal, toPlane: LatLng -> Point, fromPlane: Point -> LatLng)

  /** `getMaxZoom()` is `Infinity` when neither the map nor a layer bounds it. */
  datatype ZoomLimit = Finite(value: real) | Infinite

  datatype MapState = MapState(
    crs: Crs,
    zoom: real,             // getZoom()
    center: LatLng,         // getCenter()
    size: Point,            // getSize()
    panePos: Point,         // _getMapPanePos()
    pixelOrigin: Point,     // getPixelOrigin()
    animatingZoom: bool,    // _animatingZoom
    zoomAnimated: bool,     // _zoomAnimated
    minZoom: real,          // getMinZoom()
    maxZoom: ZoomLimit)     // getMaxZoom()

  /** The browser feature flags the overlay reads (`L.Browser`). */
  datatype Browser = Browser(canvas: bool, any3d: bool)

  /** `map.project(latLng, zoom)` */
  function Project(crs: Crs, ll: LatLng, zoom: real): Point {
    crs.toPlane(ll).MultiplyBy(crs.scale(zoom))
  }

  /** `map.unproject(point, zoom)` */
  function Unproject(crs: Crs, p: Point, zoom: real): LatLng {
    crs.fromPlane(p.MultiplyBy(1.0 / crs.scale(zoom)))
  }

  /** `map.getZoomScale(toZoom, fromZoom)` */
  function GetZoomScale(crs: Crs, toZoom: real, fromZoom: real): (r: PosReal)
    ensures toZoom == fromZoom ==> r == 1.0
  {
    var to, from := crs.scale(toZoom), crs.scale(fromZoom);
    assert from / from == 1.0;
    to / from
  }

  /** Projecting at one zoom level and scaling by the zoom scale is projecting
      at the other. */
  lemma ProjectRescaled(crs: Crs, ll: LatLng, toZoom: real, fromZoom: real)
    ensures Project(crs, ll, fromZoom).MultiplyBy(GetZoomScale(crs, toZoom, fromZoom))
         == Project(crs, ll, toZoom)
  {
    var p, s0, s1 := crs.toPlane(ll), crs.scale(fromZoom), crs.scale(toZoom);
    assert s0 * (s1 / s0) == s1;
    assert p.x * s0 * (s1 / s0) == p.x * s1;
    assert p.y * s0 * (s1 / s0) == p.y * s1;
  }

  /** `unproject` undoes `project` whenever the projection itself can be undone. */
  lemma UnprojectProject(crs: Crs, ll: LatLng, zoom: real)
    requires crs.fromPlane(crs.toPlane(ll)) == ll
    ensures Unproject(crs, Project(crs, ll, zoom), zoom) == ll
  {
    var p, s := crs.toPlane(ll), crs.scale(zoom);
    assert s * (1.0 / s) == 1.0;
    assert p.x * s * (1.0 / s) == p.x;
    assert p.y * s * (1.0 / s) == p.y;
    assert Project(crs, ll, zoom).MultiplyBy(1.0 / s) == p;
  }

  /** `map.containerPointToLayerPoint(point)` */
  function ContainerPointToLayerPoint(m: MapState, p: Point): Point {
    p.Subtract(m.panePos)
  }

  /** `map.latLngToLayerPoint(latLng)`: project at the current zoom, `_round()`
      under whatever `_round` is installed, then make it relative to the pixel
      origin. */
  function LatLngToLayerPoint(m: MapState, round: RoundFn, ll: LatLng): Point {
    RoundWith(round, Project(m.crs, ll, m.zoom)).Subtract(m.pixelOrigin)
  }

  /** The single, library-wide slot `L.Point.prototype._round`. */
  class PointPrototype {
    var round: RoundFn

    constructor ()
      ensures round == MathRounding
    {
      round := MathRounding;
    }
  }

  /** A DOM element as `L.DomUtil` sees it: `_leaflet_pos` (what `getPosition`
      reads back), where it is shown and at what CSS scale, its CSS size, and
      whether it sits in a map pane. */
  class DomElement {
    var leafletPos: Option<Point>
    var shownOffset: Point
    var shownScale: real
    var cssSize: Option<Point>
    var inPane: bool

    constructor ()
      ensures leafletPos == None && shownOffset == Point(0.0, 0.0) && shownScale == 1.0
      ensures cssSize == None && !inPane
    {
      leafletPos, shownOffset, shownScale := None, Point(0.0, 0.0), 1.0;
      cssSize, inPane := None, false;
    }

    /** `L.DomUtil.getPosition(el)` */
    function GetPosition(): (p: Point)
      reads this
      ensures leafletPos == None ==> p == Point(0.0, 0.0)
      ensures leafletPos != None ==> p == leafletPos.value
    {
      match leafletPos
      case Some(q) => q
      case None => Point(0.0, 0.0)
    }

    /** `L.DomUtil.setPosition(el, point)` */
    method SetPosition(point: Point, browser: Browser)
      modifies this`leafletPos, this`shownOffset, this`shownScale
      ensures leafletPos == Some(point) && shownOffset == point
      ensures shownScale == if browser.any3d then 1.0 else old(shownScale)
    {
      leafletPos := Some(point);
      if browser.any3d {
        SetTransform(point, None);
      } else {
        shownOffset := point;
      }
    }

    /** `L.DomUtil.setTransform(el, offset, scale)`; it leaves `_leaflet_pos` alone. */
    method SetTransform(offset: Point, scale: Option<real>)
      modifies this`shownOffset, this`shownScale
      ensures shownOffset == offset
      ensures shownScale == if scale.Some? && scale.value != 0.0 then scale.value else 1.0
    {
      shownOffset := offset;
      shownScale := if scale.Some? && scale.value != 0.0 then scale.value else 1.0;
    }
  }
}
