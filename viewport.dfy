/** The viewport arithmetic that both versions of the overlay share: the
    reference zoom, the padded pixel bounds, the resize guard, the shift that
    registers the scene with the map, and the CSS transform applied while a
    zoom animates. */
module Viewport {
  import opened Geometry
  import opened Leaflet

  /** `_wgsOrigin`: the fixed geographic reference point. */
  const Origin := LatLng(0.0, 0.0)

  /** One invocation of the user's draw callback: the `_round` installed while
      it ran, the map zoom and the overlay scale it could observe. */
  datatype DrawCall = DrawCall(rounding: RoundFn, zoom: real, scale: real)

  /** The default `projectionZoom` option of version 1.0.0 as written: the
      midpoint of the zoom range, which is `Infinity` on a map without a
      maximum zoom. */
  function ProjectionZoomAsWritten(minZoom: real, maxZoom: ZoomLimit): ZoomLimit {
    match maxZoom
    case Finite(z) => Finite((z + minZoom) / 2.0)
    case Infinite => Infinite
  }

  /** On an unbounded map the reference zoom as written is not a zoom level. */
  lemma ProjectionZoomAsWrittenUnbounded(minZoom: real)
    ensures ProjectionZoomAsWritten(minZoom, Infinite) == Infinite
  {
  }

  /** The reference zoom the overlay uses: the midpoint of the zoom range, or
      eight levels above the minimum when the range has no maximum. */
  function ProjectionZoom(minZoom: real, maxZoom: ZoomLimit): (z: real)
    ensures maxZoom.Finite? ==> ProjectionZoomAsWritten(minZoom, maxZoom) == Finite(z)
    ensures maxZoom.Finite? ==> z - minZoom == maxZoom.value - z
    ensures maxZoom.Finite? && minZoom <= maxZoom.value ==> minZoom <= z <= maxZoom.value
    ensures maxZoom.Infinite? ==> z == minZoom + 8.0
  {
    match maxZoom
    case Finite(max) => (max + minZoom) / 2.0
    case Infinite => minZoom + 8.0
  }

  /** `_update`'s `_bounds`: the map's container extended by `padding` of its
      size on every side, in layer pixels, each corner rounded by `.round()`
      under the `_round` in effect. */
  function PaddedBounds(m: MapState, padding: real, round: RoundFn): Bounds {
    var min := RoundWith(round, ContainerPointToLayerPoint(m, m.size.MultiplyBy(-padding)));
    BoundsOf(min, RoundWith(round, min.Add(m.size.MultiplyBy(1.0 + padding * 2.0))))
  }

  /** With Leaflet's rounding and a non-negative padded size, the bounds start
      at the rounded top-left corner and their size is the rounded padded map
      size. */
  lemma PaddedBoundsShape(m: MapState, padding: real)
    requires m.size.x >= 0.0 && m.size.y >= 0.0 && padding >= -0.5
    ensures var b := PaddedBounds(m, padding, MathRounding);
            var topLeft := ContainerPointToLayerPoint(m, m.size.MultiplyBy(-padding));
            var factor := 1.0 + padding * 2.0;
            && b.min == RoundWith(MathRounding, topLeft)
            && b.max == RoundWith(MathRounding, b.min.Add(m.size.MultiplyBy(factor)))
            && b.Size() == Point(MathRound(m.size.x * factor) as real, MathRound(m.size.y * factor) as real)
  {
    var factor := 1.0 + padding * 2.0;
    var min := RoundWith(MathRounding, ContainerPointToLayerPoint(m, m.size.MultiplyBy(-padding)));
    var span := m.size.MultiplyBy(factor);
    assert span.x >= 0.0 && span.y >= 0.0;
    MathRoundShift(min.x.Floor, span.x);
    MathRoundShift(min.y.Floor, span.y);
  }

  /** A worked example: a 800x600 map at zoom 10 centred on the reference
      point, whose pane has not moved, padded by 0.1, is drawn on a 960x720
      surface whose top-left corner is the layer pixel (-80, -60). */
  lemma PaddedBoundsExample(crs: Crs)
    ensures var m := MapState(crs, 10.0, Origin, Point(800.0, 600.0), Point(0.0, 0.0),
                              Point(0.0, 0.0), false, true, 0.0, Finite(18.0));
            var b := PaddedBounds(m, 0.1, MathRounding);
            b.min == Point(-80.0, -60.0) && b.Size() == Point(960.0, 720.0)
  {
    RoundIntegralPoint(Point(-80.0, -60.0), -80, -60);
    RoundIntegralPoint(Point(880.0, 660.0), 880, 660);
  }

  lemma RoundIntegralPoint(p: Point, x: int, y: int)
    requires p == Point(x as real, y as real)
    ensures RoundWith(MathRounding, p) == p
  {
    MathRoundUnique(p.x, x);
    MathRoundUnique(p.y, y);
  }

  /** The resize guard of version 1.0.0: resize unless the renderer already
      records exactly this size. */
  function NeedsResize(current: Option<Point>, size: Point): (r: bool)
    ensures r <==> current != Some(size)
  {
    current.None? || current.value.x != size.x || current.value.y != size.y
  }

  /** `_update`'s shift: the reference point in layer pixels, less the
      reference point's projection at the reference zoom scaled to the current
      zoom, less the top-left corner of the bounds. */
  function SceneShift(m: MapState, round: RoundFn, initialShift: Point, scale: real, min: Point): Point {
    LatLngToLayerPoint(m, round, Origin).Subtract(initialShift.MultiplyBy(scale)).Subtract(min)
  }

  /** Where a scene-local point `q` is drawn, in the map's layer pixels: the
      container sits at `min` and the scene root is scaled by `scale` and moved
      by `shift`. */
  function SceneToLayer(min: Point, scale: real, shift: Point, q: Point): Point {
    min.Add(q.MultiplyBy(scale)).Add(shift)
  }

  /** Registration: a point placed in the scene at its projection at the
      reference zoom is drawn exactly where the map puts it at the current zoom,
      provided the scale is the zoom scale and rounding is off. */
  lemma SceneRegistration(m: MapState, initialZoom: real, min: Point, ll: LatLng)
    ensures var scale := GetZoomScale(m.crs, m.zoom, initialZoom);
            var shift := SceneShift(m, NoRounding, Project(m.crs, Origin, initialZoom), scale, min);
            SceneToLayer(min, scale, shift, Project(m.crs, ll, initialZoom))
              == LatLngToLayerPoint(m, NoRounding, ll)
  {
    ProjectRescaled(m.crs, ll, m.zoom, initialZoom);
    ProjectRescaled(m.crs, Origin, m.zoom, initialZoom);
  }

  /** At the reference zoom the scale is exactly one and the shift is exactly
      the top-left corner of the bounds in absolute pixels, negated. */
  lemma ShiftAtProjectionZoom(m: MapState, min: Point)
    ensures var scale := GetZoomScale(m.crs, m.zoom, m.zoom);
            && scale == 1.0
            && SceneShift(m, NoRounding, Project(m.crs, Origin, m.zoom), scale, min)
                 == Point(0.0, 0.0).Subtract(m.pixelOrigin.Add(min))
  {
  }

  /** Computing the shift with Leaflet's rounding left on would move the scene
      by up to half a pixel in each direction. */
  lemma ShiftRoundingError(m: MapState, initialShift: Point, scale: real, min: Point)
    ensures var exact := SceneShift(m, NoRounding, initialShift, scale, min);
            var rounded := SceneShift(m, MathRounding, initialShift, scale, min);
            -0.5 <= rounded.x - exact.x <= 0.5 && -0.5 <= rounded.y - exact.y <= 0.5
  {
  }

  /** `_updateTransform`'s `topLeftOffset` for a view moving from
      (`fromCenter`, `fromZoom`) to (`center`, `zoom`). */
  function TopLeftOffset(m: MapState, padding: real, fromCenter: LatLng, fromZoom: real,
                         center: LatLng, zoom: real, position: Point): Point
  {
    var scale: real := GetZoomScale(m.crs, zoom, fromZoom);
    var viewHalf := m.size.MultiplyBy(0.5 + padding);
    var centerOffset := Project(m.crs, center, zoom).Subtract(Project(m.crs, fromCenter, zoom));
    viewHalf.MultiplyBy(-scale).Add(position).Add(viewHalf).Subtract(centerOffset)
  }

  /** At the view the overlay was last drawn for, the transform is the identity. */
  lemma TopLeftOffsetAtSettledView(m: MapState, padding: real, center: LatLng, zoom: real, position: Point)
    ensures GetZoomScale(m.crs, zoom, zoom) == 1.0
    ensures TopLeftOffset(m, padding, center, zoom, center, zoom, position) == position
  {
  }

  /** The CSS transform scales about the centre of the padded container: that
      pixel stays put except for the shift of the map centre. */
  lemma TopLeftOffsetPivot(m: MapState, padding: real, fromCenter: LatLng, fromZoom: real,
                           center: LatLng, zoom: real, position: Point)
    ensures var scale := GetZoomScale(m.crs, zoom, fromZoom);
            var viewHalf := m.size.MultiplyBy(0.5 + padding);
            var centerOffset := Project(m.crs, center, zoom).Subtract(Project(m.crs, fromCenter, zoom));
            TopLeftOffset(m, padding, fromCenter, fromZoom, center, zoom, position).Add(viewHalf.MultiplyBy(scale))
              == position.Add(viewHalf).Subtract(centerOffset)
  {
  }
}
