/** Leaflet's pixel geometry: points, bounds and the rounding that `L.Point`
    applies through its prototype slot `_round`. Coordinates are exact reals. */
module Geometry {

  datatype Option<+T> = None | Some(value: T)

  /** `L.Point` */
  datatype Point = Point(x: real, y: real) {
    function Add(p: Point): Point { Point(x + p.x, y + p.y) }
    function Subtract(p: Point): Point { Point(x - p.x, y - p.y) }
    function MultiplyBy(k: real): Point { Point(x * k, y * k) }
  }

  /** `L.LatLng` */
  datatype LatLng = LatLng(lat: real, lng: real)

  /** `Math.round`: the nearest integer, halves rounded up. */
  function MathRound(r: real): (n: int)
    ensures r - 0.5 < n as real <= r + 0.5
  {
    (r + 0.5).Floor
  }

  /** Rounding an integer plus a real rounds only the real part. */
  lemma MathRoundShift(n: int, r: real)
    ensures MathRound(n as real + r) == n + MathRound(r)
  {
    var m := MathRound(r);
    assert n as real + r - 0.5 < (n + m) as real <= n as real + r + 0.5;
    MathRoundUnique(n as real + r, n + m);
  }

  /** The two inequalities of `MathRound`'s contract pin the result down. */
  lemma MathRoundUnique(r: real, k: int)
    requires r - 0.5 < k as real <= r + 0.5
    ensures MathRound(r) == k
  {
  }

  /** What `L.Point.prototype._round` currently is: Leaflet's own method
      (`Math.round` on both coordinates) or the identity that the overlay
      installs while it projects. */
  datatype RoundFn = MathRounding | NoRounding

  function IsIntegral(r: real): bool { r == r.Floor as real }

  /** `p.round()` (and `p._round()`) under the given `_round`. */
  function RoundWith(f: RoundFn, p: Point): Point {
    match f
    case MathRounding => Point(MathRound(p.x) as real, MathRound(p.y) as real)
    case NoRounding => p
  }

  /** Leaflet's rounding lands on integers at most half a pixel away in each
      direction; with it switched off the point is left as it is. */
  lemma RoundWithNearby(f: RoundFn, p: Point)
    ensures var q := RoundWith(f, p);
            && (f == NoRounding ==> q == p)
            && (f == MathRounding ==> IsIntegral(q.x) && IsIntegral(q.y))
            && -0.5 <= q.x - p.x <= 0.5 && -0.5 <= q.y - p.y <= 0.5
  {
    if f == MathRounding {
      var q := RoundWith(f, p);
      assert q.x == MathRound(p.x) as real && q.y == MathRound(p.y) as real;
    }
  }

  function Min(a: real, b: real): real { if a <= b then a else b }
  function Max(a: real, b: real): real { if a <= b then b else a }

  /** `L.Bounds` */
  datatype Bounds = Bounds(min: Point, max: Point) {
    /** `getSize()` */
    function Size(): Point { max.Subtract(min) }
  }

  /** `new L.Bounds(a, b)`: the smallest box holding both corners. */
  function BoundsOf(a: Point, b: Point): Bounds {
    Bounds(Point(Min(a.x, b.x), Min(a.y, b.y)), Point(Max(a.x, b.x), Max(a.y, b.y)))
  }

  /** `BoundsOf` is the smallest box holding both corners: each of its
      coordinates is one of the corners' and encloses both. */
  lemma BoundsOfEncloses(a: Point, b: Point)
    ensures var r := BoundsOf(a, b);
            && r.min.x <= r.max.x && r.min.y <= r.max.y
            && (r.min.x == a.x || r.min.x == b.x) && (r.max.x == a.x || r.max.x == b.x)
            && (r.min.y == a.y || r.min.y == b.y) && (r.max.y == a.y || r.max.y == b.y)
            && r.min.x <= a.x && r.min.x <= b.x && r.min.y <= a.y && r.min.y <= b.y
            && a.x <= r.max.x && b.x <= r.max.x && a.y <= r.max.y && b.y <= r.max.y
  {
  }
}
