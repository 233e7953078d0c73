/** Geographic positions and the transcendental collaborators the planner
    calls. The great-circle distance, square root, atan2, sine and cosine
    are not computed here: every operation that needs one receives it as a
    function parameter, and the few facts the model relies on are stated as
    predicates over that parameter. */
module Geo {

  /** A (latitude, longitude) pair in degrees. */
  datatype Pos = Pos(lat: real, lng: real)

  /** The haversine distance in km, taken as given. */
  type Distance = (Pos, Pos) -> real

  /** What the model assumes of the great-circle distance: it is never
      negative and a point is at distance 0 from itself. */
  ghost predicate IsDistance(hav: Distance)
  {
    && (forall p: Pos, q: Pos :: hav(p, q) >= 0.0)
    && (forall p: Pos :: hav(p, p) == 0.0)
  }

  /** What the model assumes of math.sqrt on non-negative arguments. */
  ghost predicate IsSqrt(sqrt: real -> real)
  {
    forall x: real :: x >= 0.0 ==> sqrt(x) >= 0.0 && sqrt(x) * sqrt(x) == x
  }

  /** The plane distance sqrt(dlat^2 + dlng^2) in degrees that the terrain
      rules use for circles and segments. */
  function PlaneDistance(sqrt: real -> real, a: Pos, b: Pos): real
  {
    sqrt(SquaredDistance(a, b))
  }

  /** x^2. */
  function Sq(x: real): real
  {
    x * x
  }

  lemma SqNonNegative(x: real)
    ensures Sq(x) >= 0.0
  {
  }

  lemma ZeroProduct(a: real, b: real)
    requires a * b == 0.0
    ensures a == 0.0 || b == 0.0
  {
  }

  /** Only zero squares to zero. */
  lemma SqZero(x: real)
    ensures Sq(x) == 0.0 ==> x == 0.0
  {
    if Sq(x) == 0.0 {
      ZeroProduct(x, x);
    }
  }

  /** dlat^2 + dlng^2, never negative. */
  function SquaredDistance(a: Pos, b: Pos): (r: real)
    ensures r >= 0.0
  {
    SqNonNegative(a.lat - b.lat);
    SqNonNegative(a.lng - b.lng);
    Sq(a.lat - b.lat) + Sq(a.lng - b.lng)
  }

  /** The squared distance vanishes exactly between equal positions. */
  lemma SquaredDistanceZero(a: Pos, b: Pos)
    ensures SquaredDistance(a, b) == 0.0 <==> a == b
  {
    SqNonNegative(a.lat - b.lat);
    SqNonNegative(a.lng - b.lng);
    SqZero(a.lat - b.lat);
    SqZero(a.lng - b.lng);
  }

  /** For non-negative a and b, squaring preserves strict order. */
  lemma SquareStrictlyMonotone(a: real, b: real)
    requires a >= 0.0 && b >= 0.0
    ensures a > b ==> a * a > b * b
  {
    if a > b {
      var d := a - b;
      assert d > 0.0;
      assert a * a == (b + d) * (b + d) == b * b + 2.0 * b * d + d * d;
      assert d * d > 0.0;
      assert b * d >= 0.0;
    }
  }

  /** A comparison `sqrt(x) <= r` is the comparison of squares, so circle
      tests are exact without knowing the root. */
  lemma SqrtAtMost(sqrt: real -> real, x: real, r: real)
    requires IsSqrt(sqrt) && x >= 0.0
    ensures sqrt(x) <= r <==> (r >= 0.0 && x <= r * r)
  {
    var s := sqrt(x);
    assert s >= 0.0 && s * s == x;
    if r >= 0.0 {
      SquareStrictlyMonotone(s, r);
      SquareStrictlyMonotone(r, s);
    }
  }

  /** The square root is monotone. */
  lemma SqrtMonotone(sqrt: real -> real, x: real, y: real)
    requires IsSqrt(sqrt) && 0.0 <= x <= y
    ensures sqrt(x) <= sqrt(y)
  {
    assert sqrt(x) >= 0.0 && sqrt(x) * sqrt(x) == x;
    assert sqrt(y) >= 0.0 && sqrt(y) * sqrt(y) == y;
    SquareStrictlyMonotone(sqrt(x), sqrt(y));
  }
}
