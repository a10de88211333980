/** Hit testing: is a double-click position inside a building's rectangle?
    Positions are Leaflet `LatLng` values in the simple (image-pixel) CRS with
    the image placed at `[[0, 0], [height, width]]`: `lat` is the vertical
    coordinate counted upward from the image bottom, `lng` the horizontal one. */
module HitTest {

  /** A position on the map image; also each corner of a rectangle. */
  datatype LatLng = LatLng(lat: real, lng: real)

  /** A rectangle given by two opposite corners, `[[lat, lng], [lat, lng]]`,
      in either order. */
  datatype Bounds = Bounds(first: LatLng, second: LatLng)

  /** `Math.min` on two numbers. */
  function Min(a: real, b: real): (m: real)
    ensures m <= a && m <= b
    ensures m == a || m == b
  {
    if a < b then a else b
  }

  /** `Math.max` on two numbers. */
  function Max(a: real, b: real): (m: real)
    ensures a <= m && b <= m
    ensures m == a || m == b
  {
    if a > b then a else b
  }

  /** Order-free reference: `v` lies on the closed segment between `a` and `b`. */
  predicate Between(v: real, a: real, b: real) {
    (a <= v && v <= b) || (b <= v && v <= a)
  }

  /** The rectangle with its two corners exchanged. */
  function SwapCorners(b: Bounds): Bounds {
    Bounds(b.second, b.first)
  }

  /** The rectangle with only the `lat` components of its corners exchanged. */
  function SwapLat(b: Bounds): Bounds {
    Bounds(LatLng(b.second.lat, b.first.lng), LatLng(b.first.lat, b.second.lng))
  }

  /** The rectangle with only the `lng` components of its corners exchanged. */
  function SwapLng(b: Bounds): Bounds {
    Bounds(LatLng(b.first.lat, b.second.lng), LatLng(b.second.lat, b.first.lng))
  }

  /** The hit test: normalise each axis with min/max, then test both closed
      intervals. The result agrees with the order-free `Between` on each axis. */
  function PointInBounds(p: LatLng, b: Bounds): (r: bool)
    ensures r <==> (Between(p.lat, b.first.lat, b.second.lat) &&
                    Between(p.lng, b.first.lng, b.second.lng))
  {
    var y := p.lat;
    var x := p.lng;
    var y1 := Min(b.first.lat, b.second.lat);
    var y2 := Max(b.first.lat, b.second.lat);
    var x1 := Min(b.first.lng, b.second.lng);
    var x2 := Max(b.first.lng, b.second.lng);
    y >= y1 && y <= y2 && x >= x1 && x <= x2
  }

  /** Corner order does not matter, whole corners or one axis at a time. */
  lemma PointInBoundsOrderFree(p: LatLng, b: Bounds)
    ensures PointInBounds(p, SwapCorners(b)) == PointInBounds(p, b)
    ensures PointInBounds(p, SwapLat(b)) == PointInBounds(p, b)
    ensures PointInBounds(p, SwapLng(b)) == PointInBounds(p, b)
  {
  }

  /** The intervals are closed: all four corners of every rectangle are inside. */
  lemma PointInBoundsCorners(b: Bounds)
    ensures PointInBounds(b.first, b) && PointInBounds(b.second, b)
    ensures PointInBounds(LatLng(b.first.lat, b.second.lng), b)
    ensures PointInBounds(LatLng(b.second.lat, b.first.lng), b)
  {
  }

  /** The intervals are closed: a point on a corner's lat within the lng
      range is inside, and so is a point on a corner's lng within the lat range. */
  lemma PointInBoundsInclusive(p: LatLng, b: Bounds)
    ensures ((p.lat == b.first.lat || p.lat == b.second.lat) &&
             Between(p.lng, b.first.lng, b.second.lng)) ==> PointInBounds(p, b)
    ensures ((p.lng == b.first.lng || p.lng == b.second.lng) &&
             Between(p.lat, b.first.lat, b.second.lat)) ==> PointInBounds(p, b)
  {
  }

  /** A point is outside exactly when, on some axis, it is strictly below both
      corners or strictly above both. */
  lemma PointInBoundsExact(p: LatLng, b: Bounds)
    ensures !PointInBounds(p, b) <==>
              ((p.lat < b.first.lat && p.lat < b.second.lat) ||
               (p.lat > b.first.lat && p.lat > b.second.lat) ||
               (p.lng < b.first.lng && p.lng < b.second.lng) ||
               (p.lng > b.first.lng && p.lng > b.second.lng))
  {
  }
}
