/** route_planner/terrain.py: the terrain rules (circle and segment
    feature lookups, slope, soil, difficulty, accessibility, position
    validity, the float range) as pure functions, and TerrainAnalyzer, which
    answers each query through a cache keyed by the formatted coordinates
    and the kind of query. */
module Terrain {
  import opened Base
  import opened Geo

  // ---------------------------------------------------------------
  // Map data

  /** A circular feature: centre, radius in degrees and its factor
      (impact factor of a protected area, restriction factor of a
      settlement). */
  datatype Area = Area(center: Pos, radius: real, factor: real)

  datatype River = River(points: seq<Pos>, width: real, crossingDifficulty: real)

  datatype Road = Road(points: seq<Pos>, width: real, accessibilityBonus: real)

  /** A value in [0, 1]. */
  type Unit = x: real | 0.0 <= x <= 1.0

  /** One draw of random.uniform(-50, 50). */
  type NoiseDraw = x: real | -50.0 <= x <= 50.0 witness 0.0

  /** What the analyzer knows of the region. The trigonometric elevation
      relief and the sine-based soil value are given, not computed. */
  datatype World = World(
    protectedAreas: seq<Area>,
    rivers: seq<River>,
    roads: seq<Road>,
    settlements: seq<Area>,
    relief: Pos -> real,
    soilValue: Pos -> Unit,
    sqrt: real -> real)

  /** The (found, factor) pair the feature queries return. */
  datatype Feature = Feature(found: bool, factor: real)

  const NoFeature := Feature(false, 0.0)

  // ---------------------------------------------------------------
  // Circles

  predicate InCircle(sqrt: real -> real, p: Pos, center: Pos, radius: real)
  {
    PlaneDistance(sqrt, p, center) <= radius
  }

  /** The radius is inclusive, and the test agrees with comparing squares. */
  lemma InCircleSquared(sqrt: real -> real, p: Pos, center: Pos, radius: real)
    requires IsSqrt(sqrt)
    ensures InCircle(sqrt, p, center, radius) <==>
      radius >= 0.0 &&
      (p.lat - center.lat) * (p.lat - center.lat) + (p.lng - center.lng) * (p.lng - center.lng) <= radius * radius
  {
    SqrtAtMost(sqrt, SquaredDistance(p, center), radius);
  }

  /** The first area in list order whose circle holds p, with its factor. */
  function FirstArea(sqrt: real -> real, areas: seq<Area>, p: Pos): Feature
  {
    if areas == [] then NoFeature
    else if InCircle(sqrt, p, areas[0].center, areas[0].radius) then Feature(true, areas[0].factor)
    else FirstArea(sqrt, areas[1..], p)
  }

  predicate InArea(sqrt: real -> real, a: Area, p: Pos)
  {
    InCircle(sqrt, p, a.center, a.radius)
  }

  /** First match: a feature is found iff some circle holds p, and then the
      factor is that of the first such area in list order. */
  lemma {:induction false} FirstAreaFirstMatch(sqrt: real -> real, areas: seq<Area>, p: Pos)
    ensures !FirstArea(sqrt, areas, p).found ==>
      FirstArea(sqrt, areas, p) == NoFeature && forall i :: 0 <= i < |areas| ==> !InArea(sqrt, areas[i], p)
    ensures FirstArea(sqrt, areas, p).found ==>
      exists i :: 0 <= i < |areas| && InArea(sqrt, areas[i], p) &&
        FirstArea(sqrt, areas, p).factor == areas[i].factor &&
        forall j :: 0 <= j < i ==> !InArea(sqrt, areas[j], p)
  {
    if areas != [] && !InArea(sqrt, areas[0], p) {
      FirstAreaFirstMatch(sqrt, areas[1..], p);
      if FirstArea(sqrt, areas, p).found {
        var i :| 0 <= i < |areas[1..]| && InArea(sqrt, areas[1..][i], p) &&
          FirstArea(sqrt, areas[1..], p).factor == areas[1..][i].factor &&
          forall j :: 0 <= j < i ==> !InArea(sqrt, areas[1..][j], p);
        assert InArea(sqrt, areas[i + 1], p);
        forall j | 0 <= j < i + 1 ensures !InArea(sqrt, areas[j], p) {
          if j > 0 { assert areas[j] == areas[1..][j - 1]; }
        }
      } else {
        forall i | 0 <= i < |areas| ensures !InArea(sqrt, areas[i], p) {
          if i > 0 { assert areas[i] == areas[1..][i - 1]; }
        }
      }
    }
  }

  /** is_protected_area without the cache. */
  function ProtectedAreaAt(w: World, p: Pos): Feature
  {
    FirstArea(w.sqrt, w.protectedAreas, p)
  }

  /** near_settlement without the cache. */
  function NearSettlementAt(w: World, p: Pos): Feature
  {
    FirstArea(w.sqrt, w.settlements, p)
  }

  // ---------------------------------------------------------------
  // Segments

  /** a + s (b - a). */
  function Along(a: Pos, b: Pos, s: real): Pos
  {
    Pos(a.lat + s * (b.lat - a.lat), a.lng + s * (b.lng - a.lng))
  }

  /** (p - a) . (b - a). */
  function Dot(p: Pos, a: Pos, b: Pos): real
  {
    (p.lat - a.lat) * (b.lat - a.lat) + (p.lng - a.lng) * (b.lng - a.lng)
  }

  /** The parameter t of the projection of p on the line through a and b,
      ((p - a) . (b - a)) / |b - a|^2. */
  function Projection(p: Pos, a: Pos, b: Pos): real
    requires a != b
  {
    SquaredDistanceZero(b, a);
    Dot(p, a, b) / SquaredDistance(b, a)
  }

  lemma RatioBounds(n: real, d: real)
    requires d > 0.0
    ensures n / d < 0.0 <==> n < 0.0
    ensures n / d > 1.0 <==> n > d
    ensures (n / d) * d == n
  {
    assert (n / d) * d == n;
  }

  /** The projection falls before a exactly when the angle at a is obtuse,
      and beyond b exactly when (p - a) . (b - a) exceeds |b - a|^2. */
  lemma ProjectionBounds(p: Pos, a: Pos, b: Pos)
    requires a != b
    ensures Projection(p, a, b) < 0.0 <==> Dot(p, a, b) < 0.0
    ensures Projection(p, a, b) > 1.0 <==> Dot(p, a, b) > SquaredDistance(b, a)
    ensures Projection(p, a, b) * SquaredDistance(b, a) == Dot(p, a, b)
  {
    SquaredDistanceZero(b, a);
    RatioBounds(Dot(p, a, b), SquaredDistance(b, a));
  }

  /** _point_to_line_distance: the distance from p to the segment [a, b],
      through the projection parameter clamped at the segment's ends. */
  function PointToLineDistance(sqrt: real -> real, p: Pos, a: Pos, b: Pos): real
  {
    if a == b then PlaneDistance(sqrt, p, a)
    else
      var t := Projection(p, a, b);
      if t < 0.0 then PlaneDistance(sqrt, p, a)
      else if t > 1.0 then PlaneDistance(sqrt, p, b)
      else PlaneDistance(sqrt, p, Along(a, b, t))
  }

  /** The segment point PointToLineDistance measures to. */
  function ClosestParameter(p: Pos, a: Pos, b: Pos): (s: real)
    ensures 0.0 <= s <= 1.0
  {
    if a == b then 0.0 else Clamp(Projection(p, a, b), 0.0, 1.0)
  }

  /** w - 2 x wd + x^2 dd: the squared distance to a point moving along a
      line, as a function of its parameter x. */
  function Quadratic(w: real, wd: real, dd: real, x: real): real
  {
    w - 2.0 * x * wd + x * x * dd
  }

  /** (u - s v)^2 = u^2 - 2 s (u v) + s^2 v^2. */
  lemma SqAlong(u: real, v: real, s: real)
    ensures Sq(u - s * v) == Quadratic(Sq(u), u * v, Sq(v), s)
  {
  }

  /** One coordinate of SquaredDistanceAlong. */
  lemma SqAlongCoordinate(pc: real, ac: real, bc: real, s: real)
    ensures Sq(pc - (ac + s * (bc - ac))) == Quadratic(Sq(pc - ac), (pc - ac) * (bc - ac), Sq(bc - ac), s)
  {
    assert pc - (ac + s * (bc - ac)) == (pc - ac) - s * (bc - ac);
    SqAlong(pc - ac, bc - ac, s);
  }

  /** The squared distance from p to a + s (b - a) as a quadratic in s:
      |p - a|^2 - 2 s (p - a) . (b - a) + s^2 |b - a|^2. */
  lemma SquaredDistanceAlong(p: Pos, a: Pos, b: Pos, s: real)
    ensures SquaredDistance(p, Along(a, b, s)) == Quadratic(SquaredDistance(p, a), Dot(p, a, b), SquaredDistance(b, a), s)
  {
    SqAlongCoordinate(p.lat, a.lat, b.lat, s);
    SqAlongCoordinate(p.lng, a.lng, b.lng, s);
    SquaredDistanceToAlong(p, a, b, s);
    SumOfQuadratics(SquaredDistance(p, Along(a, b, s)), SquaredDistance(p, a), Dot(p, a, b), SquaredDistance(b, a),
                    Sq(p.lat - (a.lat + s * (b.lat - a.lat))), Sq(p.lng - (a.lng + s * (b.lng - a.lng))),
                    Sq(p.lat - a.lat), Sq(p.lng - a.lng),
                    (p.lat - a.lat) * (b.lat - a.lat), (p.lng - a.lng) * (b.lng - a.lng),
                    Sq(b.lat - a.lat), Sq(b.lng - a.lng), s);
  }

  lemma SquaredDistanceToAlong(p: Pos, a: Pos, b: Pos, s: real)
    ensures SquaredDistance(p, Along(a, b, s))
         == Sq(p.lat - (a.lat + s * (b.lat - a.lat))) + Sq(p.lng - (a.lng + s * (b.lng - a.lng)))
  {
  }

  /** Two coordinates' quadratics add up to the quadratic of the sums. */
  lemma SumOfQuadratics(e: real, w: real, x: real, d: real,
                        e1: real, e2: real, w1: real, w2: real, x1: real, x2: real, d1: real, d2: real, s: real)
    requires e == e1 + e2 && w == w1 + w2 && x == x1 + x2 && d == d1 + d2
    requires e1 == Quadratic(w1, x1, d1, s) && e2 == Quadratic(w2, x2, d2, s)
    ensures e == Quadratic(w, x, d, s)
  {
  }

  /** The difference of the quadratic w - 2 x wd + x^2 dd at s and at c. */
  lemma QuadraticGap(w: real, wd: real, dd: real, s: real, c: real)
    ensures Quadratic(w, wd, dd, s) - Quadratic(w, wd, dd, c) == (s - c) * ((s + c) * dd - 2.0 * wd)
  {
  }

  lemma ProductNonNegative(x: real, y: real)
    requires x >= 0.0 && y >= 0.0
    ensures x * y >= 0.0
  {
  }

  /** On [0, 1] the quadratic with minimum at t is smallest at t clamped to
      [0, 1]. */
  lemma ClampedMinimum(t: real, dd: real, s: real)
    requires dd > 0.0 && 0.0 <= s <= 1.0
    ensures (s - Clamp(t, 0.0, 1.0)) * ((s + Clamp(t, 0.0, 1.0)) * dd - 2.0 * (t * dd)) >= 0.0
  {
    var c := Clamp(t, 0.0, 1.0);
    if t < 0.0 {
      assert c == 0.0;
      ProductNonNegative(s - 2.0 * t, dd);
      ProductNonNegative(s, (s - 2.0 * t) * dd);
      assert (s - c) * ((s + c) * dd - 2.0 * (t * dd)) == s * ((s - 2.0 * t) * dd);
    } else if t > 1.0 {
      assert c == 1.0;
      ProductNonNegative(2.0 * t - s - 1.0, dd);
      ProductNonNegative(1.0 - s, (2.0 * t - s - 1.0) * dd);
      assert (s - c) * ((s + c) * dd - 2.0 * (t * dd)) == (1.0 - s) * ((2.0 * t - s - 1.0) * dd);
    } else {
      assert c == t;
      SqNonNegative(s - t);
      ProductNonNegative(Sq(s - t), dd);
      assert (s - c) * ((s + c) * dd - 2.0 * (t * dd)) == Sq(s - t) * dd;
    }
  }

  /** The quadratic w - 2 x wd + x^2 dd with dd > 0 and minimum at t = wd / dd
      takes its least value on [0, 1] at c, t clamped to [0, 1]. */
  lemma NearestOnQuadratic(w: real, wd: real, dd: real, t: real, c: real, s: real)
    requires dd > 0.0 && t * dd == wd && c == Clamp(t, 0.0, 1.0) && 0.0 <= s <= 1.0
    ensures Quadratic(w, wd, dd, c) <= Quadratic(w, wd, dd, s)
  {
    QuadraticGap(w, wd, dd, s, c);
    ClampedMinimum(t, dd, s);
  }

  /** The clamped projection is the segment point nearest to p (in squared
      distance). */
  lemma ClosestIsNearest(p: Pos, a: Pos, b: Pos, s: real)
    requires 0.0 <= s <= 1.0
    ensures SquaredDistance(p, Along(a, b, ClosestParameter(p, a, b))) <= SquaredDistance(p, Along(a, b, s))
  {
    if a == b {
      assert Along(a, b, ClosestParameter(p, a, b)) == a == Along(a, b, s);
    } else {
      SquaredDistanceZero(b, a);
      ProjectionBounds(p, a, b);
      NearestAlong(p, a, b, Projection(p, a, b), ClosestParameter(p, a, b), s);
    }
  }

  lemma NearestAlong(p: Pos, a: Pos, b: Pos, t: real, c: real, s: real)
    requires SquaredDistance(b, a) > 0.0 && t * SquaredDistance(b, a) == Dot(p, a, b)
    requires c == Clamp(t, 0.0, 1.0) && 0.0 <= s <= 1.0
    ensures SquaredDistance(p, Along(a, b, c)) <= SquaredDistance(p, Along(a, b, s))
  {
    SquaredDistanceAlong(p, a, b, s);
    SquaredDistanceAlong(p, a, b, c);
    NearestOnQuadratic(SquaredDistance(p, a), Dot(p, a, b), SquaredDistance(b, a), t, c, s);
  }

  /** PointToLineDistance is the distance to the closest point of the
      segment: it is attained at ClosestParameter and no point of the
      segment is nearer. With the square root taken as given, it is never
      negative. */
  lemma PointToLineDistanceIsSegmentDistance(sqrt: real -> real, p: Pos, a: Pos, b: Pos)
    requires IsSqrt(sqrt)
    ensures PointToLineDistance(sqrt, p, a, b) == PlaneDistance(sqrt, p, Along(a, b, ClosestParameter(p, a, b)))
    ensures PointToLineDistance(sqrt, p, a, b) >= 0.0
    ensures forall s :: 0.0 <= s <= 1.0 ==>
      PointToLineDistance(sqrt, p, a, b) <= PlaneDistance(sqrt, p, Along(a, b, s))
  {
    var c := ClosestParameter(p, a, b);
    if a == b {
      assert Along(a, b, c) == a;
    } else {
      var t := Projection(p, a, b);
      if t < 0.0 {
        assert Along(a, b, 0.0) == a;
      } else if t > 1.0 {
        assert Along(a, b, 1.0) == b;
      }
    }
    forall s | 0.0 <= s <= 1.0
      ensures PointToLineDistance(sqrt, p, a, b) <= PlaneDistance(sqrt, p, Along(a, b, s))
    {
      ClosestIsNearest(p, a, b, s);
      SqrtMonotone(sqrt, SquaredDistance(p, Along(a, b, c)), SquaredDistance(p, Along(a, b, s)));
    }
  }

  /** Some segment of the polyline lies within `reach` of p. */
  predicate NearPolyline(sqrt: real -> real, points: seq<Pos>, p: Pos, reach: real)
    decreases |points|
  {
    |points| >= 2 &&
    (PointToLineDistance(sqrt, p, points[0], points[1]) <= reach || NearPolyline(sqrt, points[1..], p, reach))
  }

  /** is_water_crossing without the cache: the first river with a segment
      within its width decides. */
  function WaterScan(sqrt: real -> real, rivers: seq<River>, p: Pos): Feature
  {
    if rivers == [] then NoFeature
    else if NearPolyline(sqrt, rivers[0].points, p, rivers[0].width) then Feature(true, rivers[0].crossingDifficulty)
    else WaterScan(sqrt, rivers[1..], p)
  }

  function WaterCrossingAt(w: World, p: Pos): Feature
  {
    WaterScan(w.sqrt, w.rivers, p)
  }

  /** A water crossing is found iff some river passes within its width, and
      the difficulty reported is then that of a river listed before every
      other such river. */
  lemma {:induction false} WaterScanFirstMatch(sqrt: real -> real, rivers: seq<River>, p: Pos)
    ensures WaterScan(sqrt, rivers, p).found <==>
      exists i :: 0 <= i < |rivers| && NearPolyline(sqrt, rivers[i].points, p, rivers[i].width)
    ensures !WaterScan(sqrt, rivers, p).found ==> WaterScan(sqrt, rivers, p) == NoFeature
    ensures WaterScan(sqrt, rivers, p).found ==>
      exists i :: 0 <= i < |rivers| && NearPolyline(sqrt, rivers[i].points, p, rivers[i].width) &&
        WaterScan(sqrt, rivers, p).factor == rivers[i].crossingDifficulty &&
        forall j :: 0 <= j < i ==> !NearPolyline(sqrt, rivers[j].points, p, rivers[j].width)
  {
    if rivers != [] && !NearPolyline(sqrt, rivers[0].points, p, rivers[0].width) {
      WaterScanFirstMatch(sqrt, rivers[1..], p);
      if WaterScan(sqrt, rivers, p).found {
        var i :| 0 <= i < |rivers[1..]| && NearPolyline(sqrt, rivers[1..][i].points, p, rivers[1..][i].width) &&
          WaterScan(sqrt, rivers[1..], p).factor == rivers[1..][i].crossingDifficulty &&
          forall j :: 0 <= j < i ==> !NearPolyline(sqrt, rivers[1..][j].points, p, rivers[1..][j].width);
        assert rivers[i + 1] == rivers[1..][i];
        forall j | 0 <= j < i + 1 ensures !NearPolyline(sqrt, rivers[j].points, p, rivers[j].width) {
          if j > 0 { assert rivers[j] == rivers[1..][j - 1]; }
        }
      } else {
        forall i | 0 <= i < |rivers| ensures !NearPolyline(sqrt, rivers[i].points, p, rivers[i].width) {
          if i > 0 { assert rivers[i] == rivers[1..][i - 1]; }
        }
      }
    }
  }

  // ---------------------------------------------------------------
  // Roads

  /** 1 - |dist - 2w| / (3w): 1 at twice the road width, falling off on
      both sides. */
  function ProximityFactor(dist: real, width: real): real
    requires width > 0.0
  {
    1.0 - Abs(dist - width * 2.0) / (width * 3.0)
  }

  /** Between one and five road widths the factor lies in [0, 1], and it
      reaches 1 exactly at twice the width. */
  lemma ProximityFactorRange(dist: real, width: real)
    requires width > 0.0 && width < dist <= width * 5.0
    ensures 0.0 <= ProximityFactor(dist, width) <= 1.0
    ensures ProximityFactor(dist, width) == 1.0 <==> dist == width * 2.0
  {
    var q := Abs(dist - width * 2.0) / (width * 3.0);
    assert Abs(dist - width * 2.0) <= width * 3.0;
    assert q <= 1.0;
    assert q >= 0.0;
    assert q == 0.0 <==> Abs(dist - width * 2.0) == 0.0;
  }

  /** x * share. */
  function Portion(x: real, share: real): real
  {
    x * share
  }

  /** A share in [0, 1] of a non-negative amount lies between 0 and it. */
  lemma PortionWithin(x: real, share: real)
    requires x >= 0.0 && 0.0 <= share <= 1.0
    ensures 0.0 <= Portion(x, share) <= x
  {
  }

  /** What one segment of a road decides: on the road, in the access band
      with a bonus, or nothing (scan on). */
  function RoadSegment(dist: real, road: Road): Option<Feature>
  {
    if dist <= road.width then Some(Feature(true, -0.2))
    else if dist <= road.width * 5.0 then
      Some(Feature(true, Portion(road.accessibilityBonus, ProximityFactor(dist, road.width))))
    else None
  }

  /** The first segment of the polyline that decides, if any. */
  function RoadScanSegments(sqrt: real -> real, points: seq<Pos>, road: Road, p: Pos): Option<Feature>
    decreases |points|
  {
    if |points| < 2 then None
    else match RoadSegment(PointToLineDistance(sqrt, p, points[0], points[1]), road)
      case Some(f) => Some(f)
      case None => RoadScanSegments(sqrt, points[1..], road, p)
  }

  function RoadScan(sqrt: real -> real, roads: seq<Road>, p: Pos): Feature
  {
    if roads == [] then NoFeature
    else match RoadScanSegments(sqrt, roads[0].points, roads[0], p)
      case Some(f) => f
      case None => RoadScan(sqrt, roads[1..], p)
  }

  /** near_road without the cache. */
  function NearRoadAt(w: World, p: Pos): Feature
  {
    RoadScan(w.sqrt, w.roads, p)
  }

  /** The point-to-segment distance is never negative. */
  lemma PointToLineDistanceNonNegative(sqrt: real -> real, p: Pos, a: Pos, b: Pos)
    requires IsSqrt(sqrt)
    ensures PointToLineDistance(sqrt, p, a, b) >= 0.0
  {
    PointToLineDistanceIsSegmentDistance(sqrt, p, a, b);
  }

  /** A road's polyline decides iff one of its segments lies within five
      road widths. */
  lemma {:induction false} RoadScanSegmentsSpec(sqrt: real -> real, points: seq<Pos>, road: Road, p: Pos)
    requires IsSqrt(sqrt)
    ensures RoadScanSegments(sqrt, points, road, p).Some? <==> NearPolyline(sqrt, points, p, road.width * 5.0)
    decreases |points|
  {
    if |points| >= 2 {
      var d := PointToLineDistance(sqrt, p, points[0], points[1]);
      PointToLineDistanceNonNegative(sqrt, p, points[0], points[1]);
      RoadScanSegmentsSpec(sqrt, points[1..], road, p);
      if d <= road.width {
        assert d <= road.width * 5.0 by { assert road.width >= 0.0; }
      }
    }
  }

  /** A decision of a road's polyline always reports the road as found. */
  lemma {:induction false} RoadScanSegmentsFound(sqrt: real -> real, points: seq<Pos>, road: Road, p: Pos)
    ensures RoadScanSegments(sqrt, points, road, p).Some? ==> RoadScanSegments(sqrt, points, road, p).value.found
    decreases |points|
  {
    if |points| >= 2 {
      RoadScanSegmentsFound(sqrt, points[1..], road, p);
    }
  }

  /** The segment that decides reports -0.2 on the road, else a bonus
      between 0 and the road's. */
  lemma {:induction false} RoadScanSegmentsFactor(sqrt: real -> real, points: seq<Pos>, road: Road, p: Pos)
    requires road.accessibilityBonus >= 0.0
    ensures RoadScanSegments(sqrt, points, road, p).Some? ==>
      var f := RoadScanSegments(sqrt, points, road, p).value;
      f.factor == -0.2 || 0.0 <= f.factor <= road.accessibilityBonus
    decreases |points|
  {
    if |points| >= 2 {
      var d := PointToLineDistance(sqrt, p, points[0], points[1]);
      RoadScanSegmentsFactor(sqrt, points[1..], road, p);
      if road.width < d <= road.width * 5.0 {
        assert road.width > 0.0;
        ProximityFactorRange(d, road.width);
        PortionWithin(road.accessibilityBonus, ProximityFactor(d, road.width));
      }
    }
  }

  /** The road scan reports a road iff the polyline of some road decides;
      with no road deciding, the answer is (False, 0.0). */
  lemma {:induction false} RoadScanDecides(sqrt: real -> real, roads: seq<Road>, p: Pos)
    ensures RoadScan(sqrt, roads, p).found <==>
      exists i :: 0 <= i < |roads| && RoadScanSegments(sqrt, roads[i].points, roads[i], p).Some?
    ensures !RoadScan(sqrt, roads, p).found ==> RoadScan(sqrt, roads, p) == NoFeature
  {
    if roads != [] {
      RoadScanSegmentsFound(sqrt, roads[0].points, roads[0], p);
      RoadScanDecides(sqrt, roads[1..], p);
      var rest := roads[1..];
      if RoadScanSegments(sqrt, roads[0].points, roads[0], p).None? {
        assert RoadScan(sqrt, roads, p) == RoadScan(sqrt, rest, p);
        if RoadScan(sqrt, rest, p).found {
          var i :| 0 <= i < |rest| && RoadScanSegments(sqrt, rest[i].points, rest[i], p).Some?;
          assert roads[i + 1] == rest[i];
        } else {
          forall i | 0 <= i < |roads| ensures RoadScanSegments(sqrt, roads[i].points, roads[i], p).None? {
            if i > 0 { assert roads[i] == rest[i - 1]; }
          }
        }
      }
    }
  }

  /** near_road: a road is reported iff some road passes within five of its
      widths; with no road near, the answer is (False, 0.0). */
  lemma RoadScanSpec(sqrt: real -> real, roads: seq<Road>, p: Pos)
    requires IsSqrt(sqrt)
    ensures RoadScan(sqrt, roads, p).found <==>
      exists i :: 0 <= i < |roads| && NearPolyline(sqrt, roads[i].points, p, roads[i].width * 5.0)
    ensures !RoadScan(sqrt, roads, p).found ==> RoadScan(sqrt, roads, p) == NoFeature
  {
    RoadScanDecides(sqrt, roads, p);
    forall i | 0 <= i < |roads|
      ensures RoadScanSegments(sqrt, roads[i].points, roads[i], p).Some? <==>
        NearPolyline(sqrt, roads[i].points, p, roads[i].width * 5.0)
    {
      RoadScanSegmentsSpec(sqrt, roads[i].points, roads[i], p);
    }
  }

  /** near_road: the bonus is -0.2 directly on a road and otherwise lies
      between 0 and the bonus of some road. */
  lemma {:induction false} RoadScanBonus(sqrt: real -> real, roads: seq<Road>, p: Pos)
    requires forall i :: 0 <= i < |roads| ==> roads[i].accessibilityBonus >= 0.0
    ensures RoadScan(sqrt, roads, p).found ==>
      RoadScan(sqrt, roads, p).factor == -0.2 ||
      exists i :: 0 <= i < |roads| && 0.0 <= RoadScan(sqrt, roads, p).factor <= roads[i].accessibilityBonus
  {
    if roads != [] {
      RoadScanSegmentsFactor(sqrt, roads[0].points, roads[0], p);
      RoadScanBonus(sqrt, roads[1..], p);
      if RoadScanSegments(sqrt, roads[0].points, roads[0], p).None? &&
         RoadScan(sqrt, roads, p).found && RoadScan(sqrt, roads, p).factor != -0.2 {
        var k :| 0 <= k < |roads[1..]| && 0.0 <= RoadScan(sqrt, roads[1..], p).factor <= roads[1..][k].accessibilityBonus;
        assert roads[k + 1] == roads[1..][k];
      }
    }
  }

  // ---------------------------------------------------------------
  // Slope, soil, difficulty, accessibility

  /** get_elevation on a cache miss: base 500 m, the relief, one noise draw. */
  function ElevationOf(w: World, p: Pos, noise: NoiseDraw): real
  {
    500.0 + w.relief(p) + noise
  }

  /** get_slope from the three elevations: the steeper of the northward and
      eastward rise, each per 100 m of height difference and capped at 1. */
  function SlopeOf(center: real, north: real, east: real): (s: real)
  {
    Max(Min(Abs(north - center) / 100.0, 1.0), Min(Abs(east - center) / 100.0, 1.0))
  }

  /** The slope lies in [0, 1]; it is 0 exactly on flat ground, and 1 as
      soon as either rise reaches 100 m. */
  lemma SlopeRange(center: real, north: real, east: real)
    ensures 0.0 <= SlopeOf(center, north, east) <= 1.0
    ensures SlopeOf(center, north, east) == 0.0 <==> north == center && east == center
    ensures Abs(north - center) >= 100.0 || Abs(east - center) >= 100.0 ==> SlopeOf(center, north, east) == 1.0
  {
  }

  datatype SoilType = Clay | Loam | Sand | Rock | Peat

  const SoilTypes: seq<SoilType> := [Clay, Loam, Sand, Rock, Peat]

  /** min(int(value * 5), 4). */
  function SoilIndex(value: Unit): (i: int)
  {
    if Trunc(value * 5.0) < 4 then Trunc(value * 5.0) else 4
  }

  /** The index is in [0, 4]: the value's fifth, with the value 1 folded
      into the last type. */
  lemma SoilIndexRange(value: Unit)
    ensures 0 <= SoilIndex(value) <= 4
    ensures value < 1.0 ==> SoilIndex(value) as real <= value * 5.0 < SoilIndex(value) as real + 1.0
    ensures value == 1.0 ==> SoilIndex(value) == 4
  {
  }

  /** get_soil_type without the cache. */
  function SoilAt(w: World, p: Pos): SoilType
  {
    SoilIndexRange(w.soilValue(p));
    SoilTypes[SoilIndex(w.soilValue(p))]
  }

  function SoilFactor(soil: SoilType): real
  {
    match soil
    case Clay => 0.4
    case Loam => 0.2
    case Sand => 0.3
    case Rock => 0.8
    case Peat => 0.6
  }

  /** The part a feature adds when it fires. */
  function IfFound(f: Feature, weight: real): real
  {
    if f.found then weight * f.factor else 0.0
  }

  function RawDifficulty(slope: real, soil: SoilType, protection: Feature, water: Feature, settlement: Feature): real
  {
    0.3 * slope + 0.2 * SoilFactor(soil) + IfFound(water, 0.25) + IfFound(protection, 0.15) + IfFound(settlement, 0.1)
  }

  /** get_terrain_difficulty from its components. */
  function DifficultyOf(slope: real, soil: SoilType, protection: Feature, water: Feature, settlement: Feature): (d: real)
    ensures 0.0 <= d <= 1.0
  {
    Clamp(RawDifficulty(slope, soil, protection, water, settlement), 0.0, 1.0)
  }

  /** With components in range the weights cannot reach the clamp: the
      difficulty is the weighted sum itself, between 0.04 and 0.96. */
  lemma DifficultyUnclamped(slope: real, soil: SoilType, protection: Feature, water: Feature, settlement: Feature)
    requires 0.0 <= slope <= 1.0
    requires 0.0 <= protection.factor <= 1.0 && 0.0 <= water.factor <= 1.0 && 0.0 <= settlement.factor <= 1.0
    ensures DifficultyOf(slope, soil, protection, water, settlement) == RawDifficulty(slope, soil, protection, water, settlement)
    ensures 0.04 <= DifficultyOf(slope, soil, protection, water, settlement) <= 0.96
  {
  }

  /** A feature that fires with a non-negative factor never makes terrain
      easier, and a steeper slope never does either. */
  lemma DifficultyMonotone(s1: real, s2: real, soil: SoilType, protection: Feature, water: Feature, settlement: Feature)
    requires s1 <= s2 && protection.factor >= 0.0 && water.factor >= 0.0 && settlement.factor >= 0.0
    ensures DifficultyOf(s1, soil, protection, water, settlement) <= DifficultyOf(s2, soil, protection, water, settlement)
    ensures DifficultyOf(s1, soil, NoFeature, water, settlement) <= DifficultyOf(s1, soil, protection, water, settlement)
    ensures DifficultyOf(s1, soil, protection, NoFeature, settlement) <= DifficultyOf(s1, soil, protection, water, settlement)
    ensures DifficultyOf(s1, soil, protection, water, NoFeature) <= DifficultyOf(s1, soil, protection, water, settlement)
  {
    ClampMonotone(RawDifficulty(s1, soil, protection, water, settlement), RawDifficulty(s2, soil, protection, water, settlement), 0.0, 1.0);
    ClampMonotone(RawDifficulty(s1, soil, NoFeature, water, settlement), RawDifficulty(s1, soil, protection, water, settlement), 0.0, 1.0);
    ClampMonotone(RawDifficulty(s1, soil, protection, NoFeature, settlement), RawDifficulty(s1, soil, protection, water, settlement), 0.0, 1.0);
    ClampMonotone(RawDifficulty(s1, soil, protection, water, NoFeature), RawDifficulty(s1, soil, protection, water, settlement), 0.0, 1.0);
  }

  function RawAccessibility(difficulty: real, road: Feature): real
  {
    1.0 - difficulty * 0.6 + IfFound(road, 0.4)
  }

  /** get_accessibility from the difficulty and the road answer. */
  function AccessibilityOf(difficulty: real, road: Feature): (a: real)
    ensures 0.0 <= a <= 1.0
  {
    Clamp(RawAccessibility(difficulty, road), 0.0, 1.0)
  }

  /** Away from roads accessibility is 1 - 0.6 td, in [0.4, 1]; directly on
      a road it drops by 0.08; harder terrain is never more accessible. */
  lemma AccessibilityShape(t1: real, t2: real, road: Feature)
    requires 0.0 <= t1 <= t2 <= 1.0
    ensures AccessibilityOf(t1, NoFeature) == 1.0 - t1 * 0.6
    ensures 0.4 <= AccessibilityOf(t1, NoFeature) <= 1.0
    ensures AccessibilityOf(t1, Feature(true, -0.2)) == 1.0 - t1 * 0.6 - 0.08
    ensures AccessibilityOf(t2, road) <= AccessibilityOf(t1, road)
  {
    ClampMonotone(RawAccessibility(t2, road), RawAccessibility(t1, road), 0.0, 1.0);
  }

  // ---------------------------------------------------------------
  // is_valid_position

  datatype Circle = Circle(center: Pos, radius: real)

  /** The cities is_valid_position never routes through. */
  const RestrictedCities: seq<Circle> := [
    Circle(Pos(52.3, 104.3), 0.12),
    Circle(Pos(52.5, 103.9), 0.08),
    Circle(Pos(52.2, 104.08), 0.04),
    Circle(Pos(52.75, 103.65), 0.05)]

  /** The nature reserves is_valid_position never routes through. */
  const ForbiddenReserves: seq<Circle> := [
    Circle(Pos(53.2, 107.35), 0.35),
    Circle(Pos(53.9, 108.0), 0.40),
    Circle(Pos(51.5, 105.0), 0.30)]

  predicate InBounds(p: Pos)
  {
    !(p.lat < -90.0 || p.lat > 90.0 || p.lng < -180.0 || p.lng > 180.0)
  }

  predicate InAnyCircle(sqrt: real -> real, circles: seq<Circle>, p: Pos)
  {
    exists i :: 0 <= i < |circles| && InCircle(sqrt, p, circles[i].center, circles[i].radius)
  }

  /** The part of is_valid_position that reads no cache. */
  predicate PassesFixedChecks(sqrt: real -> real, p: Pos)
  {
    InBounds(p) && !InAnyCircle(sqrt, RestrictedCities, p) && !InAnyCircle(sqrt, ForbiddenReserves, p)
  }

  /** A protected-area or settlement answer that forbids the position. */
  predicate Extreme(f: Feature)
  {
    f.found && f.factor > 0.95
  }

  /** is_valid_position given the protected-area and settlement answers. */
  predicate ValidWith(sqrt: real -> real, p: Pos, protection: Feature, settlement: Feature)
  {
    PassesFixedChecks(sqrt, p) && !Extreme(protection) && !Extreme(settlement)
  }

  /** is_valid_position without the cache. */
  predicate IsValidAt(w: World, p: Pos)
  {
    ValidWith(w.sqrt, p, ProtectedAreaAt(w, p), NearSettlementAt(w, p))
  }

  /** A valid position is within the coordinate bounds and outside every
      city and reserve circle (radius inclusive); the 1.2-radius warning
      band around cities forbids nothing. */
  lemma ValidPositionRules(w: World, p: Pos)
    ensures IsValidAt(w, p) ==> InBounds(p)
    ensures IsValidAt(w, p) ==> forall i :: 0 <= i < |RestrictedCities| ==>
      !InCircle(w.sqrt, p, RestrictedCities[i].center, RestrictedCities[i].radius)
    ensures IsValidAt(w, p) ==> forall i :: 0 <= i < |ForbiddenReserves| ==>
      !InCircle(w.sqrt, p, ForbiddenReserves[i].center, ForbiddenReserves[i].radius)
    ensures IsValidAt(w, p) <==>
      PassesFixedChecks(w.sqrt, p) && !Extreme(ProtectedAreaAt(w, p)) && !Extreme(NearSettlementAt(w, p))
  {
  }

  /** If every factor is at most 0.95 the extreme checks never fire: the
      strict comparison lets even a 0.95 area through. */
  lemma {:induction false} ExtremeNeedsFactorAbove95(sqrt: real -> real, areas: seq<Area>, p: Pos)
    requires forall i :: 0 <= i < |areas| ==> areas[i].factor <= 0.95
    ensures !Extreme(FirstArea(sqrt, areas, p))
  {
    FirstAreaFirstMatch(sqrt, areas, p);
  }

  /** The protected areas and settlements the analyzer loads. */
  const LoadedProtectedAreas: seq<Area> := [
    Area(Pos(52.0, 105.5), 0.5, 0.9),
    Area(Pos(53.5, 107.8), 0.4, 0.95)]

  const LoadedSettlements: seq<Area> := [
    Area(Pos(52.3, 104.3), 0.1, 0.8),
    Area(Pos(52.5, 103.9), 0.07, 0.7)]

  /** With the loaded data the largest factors are 0.95 and 0.8, so validity
      is decided by the bounds, city and reserve checks alone. */
  lemma LoadedDataValidity(w: World, p: Pos)
    requires w.protectedAreas == LoadedProtectedAreas && w.settlements == LoadedSettlements
    ensures IsValidAt(w, p) <==> PassesFixedChecks(w.sqrt, p)
  {
    ExtremeNeedsFactorAbove95(w.sqrt, w.protectedAreas, p);
    ExtremeNeedsFactorAbove95(w.sqrt, w.settlements, p);
  }

  // ---------------------------------------------------------------
  // _frange

  /** _frange: start, start + step, ... while the value is at most stop.
      The loop ends only when step > 0 or the range is empty from the
      start. Values are exact reals here. */
  method Frange(start: real, stop: real, step: real) returns (r: seq<real>)
    requires step > 0.0 || start > stop
    ensures forall i :: 0 <= i < |r| ==> r[i] == start + (i as real) * step
    ensures forall i :: 0 <= i < |r| ==> r[i] <= stop
    ensures start + (|r| as real) * step > stop
    ensures start > stop <==> r == []
  {
    r := [];
    var current := start;
    while current <= stop
      invariant current == start + (|r| as real) * step
      invariant forall i :: 0 <= i < |r| ==> r[i] == start + (i as real) * step && r[i] <= stop
      invariant r == [] || step > 0.0
      invariant start > stop ==> r == []
      decreases if current <= stop then ((stop - current) / step).Floor + 1 else 0
    {
      assert step > 0.0;
      ghost var m := (stop - current) / step;
      assert m >= 0.0;
      DivisionShift(stop - current, step);
      r := r + [current];
      current := current + step;
      assert (stop - current) / step == m - 1.0;
      assert (m - 1.0).Floor == m.Floor - 1;
    }
  }

  lemma DivisionShift(x: real, step: real)
    requires step > 0.0
    ensures (x - step) / step == x / step - 1.0
  {
    assert (x - step) / step == x / step - step / step;
  }

  // ---------------------------------------------------------------
  // The analyzer and its cache

  /** The query kinds; each has its own suffix in the cache key. */
  datatype Kind = Elevation | Slope | Soil | Protected | Water | NearRoad | Settlement | Difficulty | Access

  /** f"{lat:.5f}_{lng:.5f}_{kind}" as its three parts. */
  datatype CacheKey = CacheKey(lat: string, lng: string, kind: Kind)

  datatype CacheValue = Scalar(x: real) | SoilEntry(soil: SoilType) | FeatureEntry(feature: Feature)

  /** The key of the same cell for another kind. */
  function Sibling(k: CacheKey, kind: Kind): CacheKey
  {
    CacheKey(k.lat, k.lng, kind)
  }

  /** What each kind stores: the value of its query, in its range. */
  predicate WellKinded(kind: Kind, v: CacheValue)
  {
    match kind
    case Elevation => v.Scalar?
    case Slope => v.Scalar? && 0.0 <= v.x <= 1.0
    case Soil => v.SoilEntry?
    case Protected => v.FeatureEntry?
    case Water => v.FeatureEntry?
    case NearRoad => v.FeatureEntry?
    case Settlement => v.FeatureEntry?
    case Difficulty => v.Scalar? && 0.0 <= v.x <= 1.0
    case Access => v.Scalar? && 0.0 <= v.x <= 1.0
  }

  type Cache = map<CacheKey, CacheValue>

  /** Entries are written once and never changed. */
  predicate Extends(older: Cache, newer: Cache)
  {
    forall k :: k in older ==> k in newer && newer[k] == older[k]
  }

  /** A cached difficulty agrees with the components cached in its cell,
      and a cached accessibility with the cell's difficulty and road entry. */
  predicate CellCoherent(c: Cache, k: CacheKey)
    requires k in c
  {
    (k.kind == Difficulty ==>
      && Sibling(k, Slope) in c && c[Sibling(k, Slope)].Scalar?
      && Sibling(k, Soil) in c && c[Sibling(k, Soil)].SoilEntry?
      && Sibling(k, Protected) in c && c[Sibling(k, Protected)].FeatureEntry?
      && Sibling(k, Water) in c && c[Sibling(k, Water)].FeatureEntry?
      && Sibling(k, Settlement) in c && c[Sibling(k, Settlement)].FeatureEntry?
      && c[k] == Scalar(DifficultyOf(c[Sibling(k, Slope)].x, c[Sibling(k, Soil)].soil,
                                     c[Sibling(k, Protected)].feature, c[Sibling(k, Water)].feature,
                                     c[Sibling(k, Settlement)].feature))) &&
    (k.kind == Access ==>
      && Sibling(k, Difficulty) in c && c[Sibling(k, Difficulty)].Scalar?
      && Sibling(k, NearRoad) in c && c[Sibling(k, NearRoad)].FeatureEntry?
      && c[k] == Scalar(AccessibilityOf(c[Sibling(k, Difficulty)].x, c[Sibling(k, NearRoad)].feature)))
  }

  /** Every entry has its kind's shape, and every cell is coherent. The
      coherence quantifier fires only on an explicit CellCoherent term, so
      the sibling keys it mentions do not set off further instances. */
  predicate CacheValid(c: Cache)
  {
    && (forall k :: k in c ==> WellKinded(k.kind, c[k]))
    && (forall k {:trigger CellCoherent(c, k)} :: k in c ==> CellCoherent(c, k))
  }

  /** Adding an entry under a fresh key keeps older cells coherent. */
  lemma ExtendFresh(c: Cache, k: CacheKey, v: CacheValue)
    requires CacheValid(c) && k !in c && WellKinded(k.kind, v)
    requires CellCoherent(c[k := v], k)
    ensures CacheValid(c[k := v]) && Extends(c, c[k := v])
  {
    var c' := c[k := v];
    forall j | j in c' ensures WellKinded(j.kind, c'[j]) && CellCoherent(c', j) {
      if j != k {
        assert CellCoherent(c, j);
      }
    }
  }

  lemma ExtendsTransitive(a: Cache, b: Cache, c: Cache)
    requires Extends(a, b) && Extends(b, c)
    ensures Extends(a, c)
  {
  }

  /** Three steps that each add keys from a given set add only keys from
      their union. */
  lemma KeysWithin(c0: Cache, c1: Cache, c2: Cache, c3: Cache, f1: set<CacheKey>, f2: set<CacheKey>, f3: set<CacheKey>)
    requires c1.Keys <= c0.Keys + f1 && c2.Keys <= c1.Keys + f2 && c3.Keys <= c2.Keys + f3
    ensures c3.Keys <= c0.Keys + f1 + f2 + f3
  {
  }

  /** Four steps that each add at most one given key. */
  lemma KeysWithinFour(c0: Cache, c1: Cache, c2: Cache, c3: Cache, c4: Cache, a: CacheKey, b: CacheKey, c: CacheKey, d: CacheKey)
    requires c1.Keys <= c0.Keys + {a} && c2.Keys <= c1.Keys + {b}
    requires c3.Keys <= c2.Keys + {c} && c4.Keys <= c3.Keys + {d}
    ensures c4.Keys <= c0.Keys + {a, b, c, d}
  {
  }

  /** Storing a difficulty computed from the entries of its own cell keeps
      the cache valid. */
  lemma StoreDifficulty(c: Cache, k: CacheKey, d: real)
    requires CacheValid(c) && k.kind == Difficulty && k !in c
    requires Sibling(k, Slope) in c && Sibling(k, Soil) in c && Sibling(k, Protected) in c
    requires Sibling(k, Water) in c && Sibling(k, Settlement) in c
    requires d == DifficultyOf(c[Sibling(k, Slope)].x, c[Sibling(k, Soil)].soil,
                               c[Sibling(k, Protected)].feature, c[Sibling(k, Water)].feature,
                               c[Sibling(k, Settlement)].feature)
    ensures CacheValid(c[k := Scalar(d)]) && Extends(c, c[k := Scalar(d)])
  {
    assert WellKinded(Slope, c[Sibling(k, Slope)]) && WellKinded(Soil, c[Sibling(k, Soil)]);
    assert WellKinded(Protected, c[Sibling(k, Protected)]) && WellKinded(Water, c[Sibling(k, Water)]);
    assert WellKinded(Settlement, c[Sibling(k, Settlement)]);
    ExtendFresh(c, k, Scalar(d));
  }

  /** Storing an accessibility computed from the entries of its own cell
      keeps the cache valid. */
  lemma StoreAccessibility(c: Cache, k: CacheKey, a: real)
    requires CacheValid(c) && k.kind == Access && k !in c
    requires Sibling(k, Difficulty) in c && Sibling(k, NearRoad) in c
    requires a == AccessibilityOf(c[Sibling(k, Difficulty)].x, c[Sibling(k, NearRoad)].feature)
    ensures CacheValid(c[k := Scalar(a)]) && Extends(c, c[k := Scalar(a)])
  {
    assert WellKinded(Difficulty, c[Sibling(k, Difficulty)]) && WellKinded(NearRoad, c[Sibling(k, NearRoad)]);
    ExtendFresh(c, k, Scalar(a));
  }

  lemma RememberGrows(c: Cache, k: CacheKey, v: CacheValue)
    ensures Extends(c, Remember(c, k, v))
    ensures Remember(c, k, v).Keys == c.Keys + {k}
  {
  }

  /** The cache after an answer at key k: the old entry is kept when there
      is one, otherwise the computed value is stored. */
  function Remember(c: Cache, k: CacheKey, v: CacheValue): Cache
  {
    if k in c then c else c[k := v]
  }

  class TerrainAnalyzer {
    var cache: Cache
    /** How many values random.uniform has produced so far. */
    var draws: nat
    const world: World
    /** f"{x:.5f}", taken as given. */
    const format5: real -> string
    /** The successive values random.uniform(-50, 50) produces. */
    const noise: nat -> NoiseDraw

    ghost predicate Valid()
      reads this
    {
      CacheValid(cache)
    }

    function Key(p: Pos, kind: Kind): CacheKey
    {
      CacheKey(format5(p.lat), format5(p.lng), kind)
    }

    constructor(world: World, format5: real -> string, noise: nat -> NoiseDraw)
      ensures Valid()
      ensures this.world == world && this.format5 == format5 && this.noise == noise
      ensures cache == map[] && draws == 0
    {
      this.world := world;
      this.format5 := format5;
      this.noise := noise;
      cache := map[];
      draws := 0;
    }

    /** get_elevation. */
    method GetElevation(p: Pos) returns (e: real)
      requires Valid()
      modifies this
      ensures Valid() && Extends(old(cache), cache)
      ensures Key(p, Elevation) in cache && cache[Key(p, Elevation)] == Scalar(e)
      ensures cache.Keys <= old(cache).Keys + {Key(p, Elevation)}
      ensures Key(p, Elevation) in old(cache) ==> cache == old(cache) && draws == old(draws)
      ensures Key(p, Elevation) !in old(cache) ==>
        e == ElevationOf(world, p, noise(old(draws))) &&
        cache == old(cache)[Key(p, Elevation) := Scalar(e)] && draws == old(draws) + 1
    {
      var k := Key(p, Elevation);
      if k in cache {
        return cache[k].x;
      }
      e := ElevationOf(world, p, noise(draws));
      draws := draws + 1;
      ExtendFresh(cache, k, Scalar(e));
      cache := cache[k := Scalar(e)];
    }

    /** get_slope: on a miss, the slope of the elevations at p and 0.001
        degrees north and east of it, as they stand in the cache afterwards. */
    method GetSlope(p: Pos) returns (s: real)
      requires Valid()
      modifies this
      ensures Valid() && Extends(old(cache), cache)
      ensures 0.0 <= s <= 1.0
      ensures Key(p, Slope) in cache && cache[Key(p, Slope)] == Scalar(s)
      ensures Key(p, Slope) in old(cache) ==> cache == old(cache) && draws == old(draws)
      ensures Key(p, Slope) !in old(cache) ==>
        var north := Pos(p.lat + 0.001, p.lng);
        var east := Pos(p.lat, p.lng + 0.001);
        && Key(p, Elevation) in cache && Key(north, Elevation) in cache && Key(east, Elevation) in cache
        && s == SlopeOf(cache[Key(p, Elevation)].x, cache[Key(north, Elevation)].x, cache[Key(east, Elevation)].x)
      ensures cache.Keys <= old(cache).Keys + SlopeFootprint(p)
    {
      var k := Key(p, Slope);
      if k in cache {
        return cache[k].x;
      }
      var c0 := cache;
      var north := Pos(p.lat + 0.001, p.lng);
      var east := Pos(p.lat, p.lng + 0.001);
      var center := GetElevation(p);
      var c1 := cache;
      var elevNorth := GetElevation(north);
      var c2 := cache;
      var elevEast := GetElevation(east);
      var c3 := cache;
      ExtendsTransitive(c0, c1, c2);
      ExtendsTransitive(c0, c2, cache);
      assert cache[Key(p, Elevation)] == Scalar(center) && cache[Key(north, Elevation)] == Scalar(elevNorth);
      SlopeRange(center, elevNorth, elevEast);
      s := SlopeOf(center, elevNorth, elevEast);
      assert k !in cache;
      ExtendFresh(cache, k, Scalar(s));
      cache := cache[k := Scalar(s)];
      KeysWithinFour(c0, c1, c2, c3, cache, Key(p, Elevation), Key(north, Elevation), Key(east, Elevation), k);
      assert {Key(p, Elevation), Key(north, Elevation), Key(east, Elevation), k} == SlopeFootprint(p);
    }

    /** get_soil_type. */
    method GetSoilType(p: Pos) returns (soil: SoilType)
      requires Valid()
      modifies this
      ensures Valid() && draws == old(draws)
      ensures cache == Remember(old(cache), Key(p, Soil), SoilEntry(SoilAt(world, p)))
      ensures cache[Key(p, Soil)] == SoilEntry(soil)
    {
      var k := Key(p, Soil);
      if k in cache {
        return cache[k].soil;
      }
      soil := SoilAt(world, p);
      ExtendFresh(cache, k, SoilEntry(soil));
      cache := cache[k := SoilEntry(soil)];
    }

    /** The shared shape of the four feature queries: a hit returns the
        stored pair, a miss stores and returns the computed one. */
    method QueryFeature(k: CacheKey, computed: Feature) returns (f: Feature)
      requires Valid() && k.kind in {Protected, Water, NearRoad, Settlement}
      modifies this
      ensures Valid() && draws == old(draws)
      ensures cache == Remember(old(cache), k, FeatureEntry(computed))
      ensures cache[k] == FeatureEntry(f)
    {
      if k in cache {
        return cache[k].feature;
      }
      f := computed;
      ExtendFresh(cache, k, FeatureEntry(f));
      cache := cache[k := FeatureEntry(f)];
    }

    /** is_protected_area. */
    method IsProtectedArea(p: Pos) returns (f: Feature)
      requires Valid()
      modifies this
      ensures Valid() && draws == old(draws)
      ensures cache == Remember(old(cache), Key(p, Protected), FeatureEntry(ProtectedAreaAt(world, p)))
      ensures cache[Key(p, Protected)] == FeatureEntry(f)
    {
      f := QueryFeature(Key(p, Protected), ProtectedAreaAt(world, p));
    }

    /** is_water_crossing. */
    method IsWaterCrossing(p: Pos) returns (f: Feature)
      requires Valid()
      modifies this
      ensures Valid() && draws == old(draws)
      ensures cache == Remember(old(cache), Key(p, Water), FeatureEntry(WaterCrossingAt(world, p)))
      ensures cache[Key(p, Water)] == FeatureEntry(f)
    {
      f := QueryFeature(Key(p, Water), WaterCrossingAt(world, p));
    }

    /** near_road. */
    method NearRoadQuery(p: Pos) returns (f: Feature)
      requires Valid()
      modifies this
      ensures Valid() && draws == old(draws)
      ensures cache == Remember(old(cache), Key(p, NearRoad), FeatureEntry(NearRoadAt(world, p)))
      ensures cache[Key(p, NearRoad)] == FeatureEntry(f)
    {
      f := QueryFeature(Key(p, NearRoad), NearRoadAt(world, p));
    }

    /** near_settlement. */
    method NearSettlement(p: Pos) returns (f: Feature)
      requires Valid()
      modifies this
      ensures Valid() && draws == old(draws)
      ensures cache == Remember(old(cache), Key(p, Settlement), FeatureEntry(NearSettlementAt(world, p)))
      ensures cache[Key(p, Settlement)] == FeatureEntry(f)
    {
      f := QueryFeature(Key(p, Settlement), NearSettlementAt(world, p));
    }

    /** The slope key and the keys the elevation lookups of get_slope use. */
    function SlopeFootprint(p: Pos): set<CacheKey>
    {
      {Key(p, Elevation), Key(Pos(p.lat + 0.001, p.lng), Elevation),
       Key(Pos(p.lat, p.lng + 0.001), Elevation), Key(p, Slope)}
    }

    /** The keys the three feature queries of get_terrain_difficulty use. */
    function FeatureFootprint(p: Pos): set<CacheKey>
    {
      {Key(p, Protected), Key(p, Water), Key(p, Settlement)}
    }

    /** Every key get_terrain_difficulty may add. */
    function DifficultyFootprint(p: Pos): set<CacheKey>
    {
      SlopeFootprint(p) + {Key(p, Soil)} + FeatureFootprint(p) + {Key(p, Difficulty)}
    }

    /** The accessibility and road keys of a cell are not among those
        get_terrain_difficulty adds. */
    lemma OutsideDifficultyFootprint(p: Pos)
      ensures Key(p, Access) !in DifficultyFootprint(p) && Key(p, NearRoad) !in DifficultyFootprint(p)
    {
    }

    /** The difficulty key is not among those its inputs add. */
    lemma OutsideInputsFootprint(p: Pos)
      ensures Key(p, Difficulty) !in SlopeFootprint(p) + {Key(p, Soil)} + FeatureFootprint(p)
    {
    }

    /** The five answers get_terrain_difficulty combines, each fetched
        through its own cached query. */
    method DifficultyInputs(p: Pos) returns (slope: real, soil: SoilType, protection: Feature, water: Feature, settlement: Feature)
      requires Valid()
      modifies this
      ensures Valid() && Extends(old(cache), cache)
      ensures cache.Keys <= old(cache).Keys + SlopeFootprint(p) + {Key(p, Soil)} + FeatureFootprint(p)
      ensures Key(p, Slope) in cache && cache[Key(p, Slope)] == Scalar(slope)
      ensures Key(p, Soil) in cache && cache[Key(p, Soil)] == SoilEntry(soil)
      ensures Key(p, Protected) in cache && cache[Key(p, Protected)] == FeatureEntry(protection)
      ensures Key(p, Water) in cache && cache[Key(p, Water)] == FeatureEntry(water)
      ensures Key(p, Settlement) in cache && cache[Key(p, Settlement)] == FeatureEntry(settlement)
      ensures cache[Key(p, Soil)] == Remember(old(cache), Key(p, Soil), SoilEntry(SoilAt(world, p)))[Key(p, Soil)]
      ensures cache[Key(p, Protected)] == Remember(old(cache), Key(p, Protected), FeatureEntry(ProtectedAreaAt(world, p)))[Key(p, Protected)]
      ensures cache[Key(p, Water)] == Remember(old(cache), Key(p, Water), FeatureEntry(WaterCrossingAt(world, p)))[Key(p, Water)]
      ensures cache[Key(p, Settlement)] == Remember(old(cache), Key(p, Settlement), FeatureEntry(NearSettlementAt(world, p)))[Key(p, Settlement)]
    {
      var c0 := cache;
      slope := GetSlope(p);
      var c1 := cache;
      assert Key(p, Soil) in c1 <==> Key(p, Soil) in c0;
      assert Key(p, Protected) in c1 <==> Key(p, Protected) in c0;
      assert Key(p, Water) in c1 <==> Key(p, Water) in c0;
      assert Key(p, Settlement) in c1 <==> Key(p, Settlement) in c0;
      soil := GetSoilType(p);
      var c2 := cache;
      RememberGrows(c1, Key(p, Soil), SoilEntry(SoilAt(world, p)));
      ExtendsTransitive(c0, c1, c2);
      protection, water, settlement := FeatureInputs(p);
      ExtendsTransitive(c0, c2, cache);
      KeysWithin(c0, c1, c2, cache, SlopeFootprint(p), {Key(p, Soil)}, FeatureFootprint(p));
    }

    /** The three feature answers get_terrain_difficulty combines. */
    method FeatureInputs(p: Pos) returns (protection: Feature, water: Feature, settlement: Feature)
      requires Valid()
      modifies this
      ensures Valid() && draws == old(draws) && Extends(old(cache), cache)
      ensures cache.Keys <= old(cache).Keys + FeatureFootprint(p)
      ensures Key(p, Protected) in cache && cache[Key(p, Protected)] == FeatureEntry(protection)
      ensures Key(p, Water) in cache && cache[Key(p, Water)] == FeatureEntry(water)
      ensures Key(p, Settlement) in cache && cache[Key(p, Settlement)] == FeatureEntry(settlement)
      ensures cache[Key(p, Protected)] == Remember(old(cache), Key(p, Protected), FeatureEntry(ProtectedAreaAt(world, p)))[Key(p, Protected)]
      ensures cache[Key(p, Water)] == Remember(old(cache), Key(p, Water), FeatureEntry(WaterCrossingAt(world, p)))[Key(p, Water)]
      ensures cache[Key(p, Settlement)] == Remember(old(cache), Key(p, Settlement), FeatureEntry(NearSettlementAt(world, p)))[Key(p, Settlement)]
    {
      var c0 := cache;
      protection := IsProtectedArea(p);
      var c1 := cache;
      water := IsWaterCrossing(p);
      var c2 := cache;
      settlement := NearSettlement(p);
      RememberGrows(c0, Key(p, Protected), FeatureEntry(ProtectedAreaAt(world, p)));
      RememberGrows(c1, Key(p, Water), FeatureEntry(WaterCrossingAt(world, p)));
      RememberGrows(c2, Key(p, Settlement), FeatureEntry(NearSettlementAt(world, p)));
      ExtendsTransitive(c0, c1, c2);
      ExtendsTransitive(c0, c2, cache);
      KeysWithin(c0, c1, c2, cache, {Key(p, Protected)}, {Key(p, Water)}, {Key(p, Settlement)});
    }

    /** get_terrain_difficulty: on a miss, the difficulty of the slope,
        soil, protected-area, water and settlement answers, which all stand
        in the cache afterwards. */
    method GetTerrainDifficulty(p: Pos) returns (d: real)
      requires Valid()
      modifies this
      ensures Valid() && Extends(old(cache), cache)
      ensures 0.0 <= d <= 1.0
      ensures Key(p, Difficulty) in cache && cache[Key(p, Difficulty)] == Scalar(d)
      ensures CellCoherent(cache, Key(p, Difficulty))
      ensures cache.Keys <= old(cache).Keys + DifficultyFootprint(p)
      ensures Key(p, Difficulty) in old(cache) ==> cache == old(cache) && draws == old(draws)
      ensures Key(p, Difficulty) !in old(cache) ==>
        && Key(p, Soil) in cache && Key(p, Protected) in cache && Key(p, Water) in cache && Key(p, Settlement) in cache
        && cache[Key(p, Soil)] == Remember(old(cache), Key(p, Soil), SoilEntry(SoilAt(world, p)))[Key(p, Soil)]
        && cache[Key(p, Protected)] == Remember(old(cache), Key(p, Protected), FeatureEntry(ProtectedAreaAt(world, p)))[Key(p, Protected)]
        && cache[Key(p, Water)] == Remember(old(cache), Key(p, Water), FeatureEntry(WaterCrossingAt(world, p)))[Key(p, Water)]
        && cache[Key(p, Settlement)] == Remember(old(cache), Key(p, Settlement), FeatureEntry(NearSettlementAt(world, p)))[Key(p, Settlement)]
    {
      var k := Key(p, Difficulty);
      if k in cache {
        assert CellCoherent(cache, k);
        return cache[k].x;
      }
      var slope, soil, protection, water, settlement := DifficultyInputs(p);
      d := DifficultyOf(slope, soil, protection, water, settlement);
      OutsideInputsFootprint(p);
      StoreDifficulty(cache, k, d);
      cache := cache[k := Scalar(d)];
    }

    /** get_accessibility: on a miss, the accessibility of the difficulty
        and road answers, which stand in the cache afterwards. */
    method GetAccessibility(p: Pos) returns (a: real)
      requires Valid()
      modifies this
      ensures Valid() && Extends(old(cache), cache)
      ensures 0.0 <= a <= 1.0
      ensures Key(p, Access) in cache && cache[Key(p, Access)] == Scalar(a)
      ensures CellCoherent(cache, Key(p, Access))
      ensures Key(p, Access) in old(cache) ==> cache == old(cache) && draws == old(draws)
      ensures Key(p, Access) !in old(cache) ==>
        && Key(p, Difficulty) in cache && Key(p, NearRoad) in cache
        && cache[Key(p, NearRoad)] == Remember(old(cache), Key(p, NearRoad), FeatureEntry(NearRoadAt(world, p)))[Key(p, NearRoad)]
        && a == AccessibilityOf(cache[Key(p, Difficulty)].x, cache[Key(p, NearRoad)].feature)
    {
      var k := Key(p, Access);
      if k in cache {
        return cache[k].x;
      }
      var c0 := cache;
      var difficulty := GetTerrainDifficulty(p);
      var c1 := cache;
      OutsideDifficultyFootprint(p);
      assert k !in c1 && (Key(p, NearRoad) in c1 <==> Key(p, NearRoad) in c0);
      var road := NearRoadQuery(p);
      ExtendsTransitive(c0, c1, cache);
      assert cache[Key(p, Difficulty)] == Scalar(difficulty);
      a := AccessibilityOf(difficulty, road);
      StoreAccessibility(cache, k, a);
      cache := cache[k := Scalar(a)];
    }

    /** is_valid_position: the fixed checks first, touching no cache; then
        the protected-area query, and the settlement query only if the
        protected area is not extreme. */
    method IsValidPosition(p: Pos) returns (ok: bool)
      requires Valid()
      modifies this
      ensures Valid() && draws == old(draws)
      ensures !PassesFixedChecks(world.sqrt, p) ==> !ok && cache == old(cache)
      ensures PassesFixedChecks(world.sqrt, p) ==>
        var c1 := Remember(old(cache), Key(p, Protected), FeatureEntry(ProtectedAreaAt(world, p)));
        var protection := c1[Key(p, Protected)].feature;
        if Extreme(protection) then !ok && cache == c1
        else
          var c2 := Remember(c1, Key(p, Settlement), FeatureEntry(NearSettlementAt(world, p)));
          cache == c2 && ok == ValidWith(world.sqrt, p, protection, c2[Key(p, Settlement)].feature)
      ensures Key(p, Protected) !in old(cache) && Key(p, Settlement) !in old(cache) ==> ok == IsValidAt(world, p)
    {
      if !PassesFixedChecks(world.sqrt, p) {
        return false;
      }
      var protection := IsProtectedArea(p);
      if Extreme(protection) {
        return false;
      }
      var settlement := NearSettlement(p);
      ok := !Extreme(settlement);
    }
  }
}
