/**
 Off-route deviation of a patrol track (`internal/domain/track.go`). Planar coordinates are
 real numbers and distances are kept squared, so no square root is needed; the great-circle
 distance and the cosine are parameters.
 */
module Tracks {
  import opened Common
  import opened Sorting

  datatype Point = Point(lat: real, lng: real)

  datatype TrackPoint = TrackPoint(at: Point, recordedAt: Time)

  datatype Planar = Planar(x: real, y: real)

  const EARTH_RADIUS: real := 6371000.0

  /** `radian` is one degree in radians. */
  datatype Geometry = Geometry(radian: real, cosine: real -> real, haversine: (Point, Point) -> real) {
    ghost predicate Valid() {
      radian > 0.0 && forall p, q :: haversine(p, q) >= 0.0
    }

    function Project(p: Point, lat0: real): Planar {
      Planar(radian * p.lng * cosine(lat0) * EARTH_RADIUS, radian * p.lat * EARTH_RADIUS)
    }

    function MidLatitude(a: Point, b: Point): real {
      radian * ((a.lat + b.lat) / 2.0)
    }
  }

  function Squared(x: real): real {
    x * x
  }

  function SumSquares(x: real, y: real): real {
    x * x + y * y
  }

  /** The square of the distance between two points. */
  function Square(u: Planar, v: Planar): real {
    SumSquares(u.x - v.x, u.y - v.y)
  }

  /** The point that divides the segment a-b in the ratio t : 1 - t. */
  function Between(a: Planar, b: Planar, t: real): Planar {
    Planar(a.x + t * (b.x - a.x), a.y + t * (b.y - a.y))
  }

  /** Squared distance from `p` to the point of the segment a-b at `t`. */
  function SquareAt(g: Geometry, p: Point, a: Point, b: Point, t: real): real {
    var lat0 := g.MidLatitude(a, b);
    if a == b then g.haversine(p, a) * g.haversine(p, a)
    else Square(g.Project(p, lat0), Between(g.Project(a, lat0), g.Project(b, lat0), t))
  }

  /** `d` is the least squared distance from `p` to the segment a-b, and some point attains it. */
  ghost predicate IsSegmentDistance(g: Geometry, p: Point, a: Point, b: Point, d: real) {
    && (exists t :: 0.0 <= t <= 1.0 && SquareAt(g, p, a, b, t) == d)
    && (forall t :: 0.0 <= t <= 1.0 ==> d <= SquareAt(g, p, a, b, t))
  }

  lemma ProductNonNegative(x: real, y: real)
    requires (x >= 0.0 && y >= 0.0) || (x <= 0.0 && y <= 0.0)
    ensures x * y >= 0.0
  {
  }

  lemma ProductPositive(x: real, y: real)
    requires (x > 0.0 && y > 0.0) || (x < 0.0 && y < 0.0)
    ensures x * y > 0.0
  {
  }

  lemma SquarePositive(x: real, y: real)
    ensures SumSquares(x, y) >= 0.0
    ensures x != 0.0 || y != 0.0 ==> SumSquares(x, y) > 0.0
  {
    var xx, yy := x * x, y * y;
    OwnProduct(x, xx);
    OwnProduct(y, yy);
    assert SumSquares(x, y) == xx + yy;
  }

  lemma OwnProduct(x: real, xx: real)
    requires xx == x * x
    ensures xx >= 0.0 && (x != 0.0 ==> xx > 0.0)
  {
    if x != 0.0 {
      NamedProduct(x, x, xx);
    }
  }

  lemma NamedProduct(x: real, y: real, z: real)
    requires z == x * y && ((x > 0.0 && y > 0.0) || (x < 0.0 && y < 0.0))
    ensures z > 0.0
  {
    ProductPositive(x, y);
  }

  lemma SquareNonNegative(p: Planar, q: Planar)
    ensures Square(p, q) >= 0.0
  {
    SquarePositive(p.x - q.x, p.y - q.y);
  }

  lemma Apart(a: Planar, b: Planar)
    requires a != b
    ensures Square(b, a) > 0.0
  {
    assert a == Planar(a.x, a.y) && b == Planar(b.x, b.y);
    SquarePositive(b.x - a.x, b.y - a.y);
  }

  function Clamp(r: real): real {
    if r < 0.0 then 0.0 else if r > 1.0 then 1.0 else r
  }

  function Parabola(c: real, len: real, r: real, t: real): real {
    c - 2.0 * t * (r * len) + t * t * len
  }

  /** On [0, 1] a parabola with its lowest point at r is least at the clamped r. */
  lemma ParabolaClamp(c: real, len: real, r: real, t: real)
    requires len >= 0.0 && 0.0 <= t <= 1.0
    ensures Parabola(c, len, r, Clamp(r)) <= Parabola(c, len, r, t)
  {
    var s := Clamp(r);
    var k := (t - s) * (t + s - 2.0 * r);
    ProductNonNegative(t - s, t + s - 2.0 * r);
    ProductNonNegative(k, len);
    ParabolaDifference(c, len, r, s, t);
  }

  lemma ParabolaDifference(c: real, len: real, r: real, s: real, t: real)
    ensures Parabola(c, len, r, t) - Parabola(c, len, r, s) == ((t - s) * (t + s - 2.0 * r)) * len
  {
  }

  function Inner(ux: real, uy: real, vx: real, vy: real): real {
    ux * vx + uy * vy
  }

  function Dot(p: Planar, a: Planar, b: Planar): real {
    Inner(p.x - a.x, p.y - a.y, b.x - a.x, b.y - a.y)
  }

  /** The square of u - t v, by the squares of u and v and their product. */
  function Quadratic(uu: real, uv: real, vv: real, t: real): real {
    uu - 2.0 * t * uv + t * t * vv
  }

  lemma SumSquaresExpands(ux: real, uy: real, vx: real, vy: real, t: real)
    ensures SumSquares(ux - t * vx, uy - t * vy) == Quadratic(SumSquares(ux, uy), Inner(ux, uy, vx, vy), SumSquares(vx, vy), t)
  {
  }

  lemma SquareBetween(p: Planar, a: Planar, b: Planar, t: real)
    ensures Square(p, Between(a, b, t)) == SumSquares(p.x - a.x - t * (b.x - a.x), p.y - a.y - t * (b.y - a.y))
  {
    var c := Between(a, b, t);
    assert p.x - c.x == p.x - a.x - t * (b.x - a.x) && p.y - c.y == p.y - a.y - t * (b.y - a.y);
  }

  lemma SquareExpands(p: Planar, a: Planar, b: Planar, t: real)
    ensures Square(p, Between(a, b, t)) == Quadratic(Square(p, a), Dot(p, a, b), Square(b, a), t)
  {
    SquareBetween(p, a, b, t);
    SumSquaresExpands(p.x - a.x, p.y - a.y, b.x - a.x, b.y - a.y, t);
  }

  lemma ParabolaFrom(c: real, inner: real, len: real, r: real, t: real)
    requires inner == r * len
    ensures Quadratic(c, inner, len, t) == Parabola(c, len, r, t)
  {
  }

  /** Along the line through a and b, the distance from `p` is a parabola in the parameter. */
  lemma BetweenIsParabola(p: Planar, a: Planar, b: Planar, r: real, t: real)
    requires Dot(p, a, b) == r * Square(b, a)
    ensures Square(p, Between(a, b, t)) == Parabola(Square(p, a), Square(b, a), r, t)
  {
    SquareExpands(p, a, b, t);
    ParabolaFrom(Square(p, a), Dot(p, a, b), Square(b, a), r, t);
  }

  lemma DivideBack(x: real, y: real)
    requires y != 0.0
    ensures x == (x / y) * y
  {
  }

  /**
   Where the foot of the perpendicular from `p` lies on the line through a and b. If the
   projection puts both ends in one place, any point will do.
   */
  function FootAt(p: Planar, a: Planar, b: Planar): real {
    if a == b then 0.0
    else
      Apart(a, b);
      Dot(p, a, b) / Square(b, a)
  }

  /** The clamped foot is the point of the segment nearest to `p`. */
  lemma NearestOnSegment(p: Planar, a: Planar, b: Planar, t: real)
    requires 0.0 <= t <= 1.0
    ensures Square(p, Between(a, b, Clamp(FootAt(p, a, b)))) <= Square(p, Between(a, b, t))
  {
    if a == b {
      assert Between(a, b, t) == a == Between(a, b, 0.0);
    } else {
      Apart(a, b);
      var r := FootAt(p, a, b);
      DivideBack(Dot(p, a, b), Square(b, a));
      BetweenIsParabola(p, a, b, r, Clamp(r));
      BetweenIsParabola(p, a, b, r, t);
      ParabolaClamp(Square(p, a), Square(b, a), r, t);
    }
  }

  /** The planar part of `pointToSegmentMeters`, squared. */
  method PlanarToSegment(p: Planar, a: Planar, b: Planar) returns (d: real, ghost at: real)
    ensures d >= 0.0 && 0.0 <= at <= 1.0 && d == Square(p, Between(a, b, at))
    ensures forall t :: 0.0 <= t <= 1.0 ==> d <= Square(p, Between(a, b, t))
  {
    var t := FootAt(p, a, b);
    if t < 0.0 {
      t := 0.0;
    } else if t > 1.0 {
      t := 1.0;
    }
    d := Square(p, Between(a, b, t));
    at := t;
    SquareNonNegative(p, Between(a, b, t));
    forall u | 0.0 <= u <= 1.0 ensures d <= Square(p, Between(a, b, u)) {
      NearestOnSegment(p, a, b, u);
    }
  }

  /** Squared form of `pointToSegmentMeters`. */
  method PointToSegment(g: Geometry, p: Point, a: Point, b: Point) returns (d: real)
    requires g.Valid()
    ensures d >= 0.0 && IsSegmentDistance(g, p, a, b, d)
  {
    if a.lat == b.lat && a.lng == b.lng {
      d := g.haversine(p, a) * g.haversine(p, a);
      assert SquareAt(g, p, a, b, 0.0) == d;
      SquarePositive(g.haversine(p, a), 0.0);
      return;
    }
    var lat0 := g.MidLatitude(a, b);
    ghost var at;
    d, at := PlanarToSegment(g.Project(p, lat0), g.Project(a, lat0), g.Project(b, lat0));
    assert SquareAt(g, p, a, b, at) == d;
  }

  datatype Distance = Infinite | Finite(square: real)

  /** Every point of the segment a-b is farther from `p` than the square root of `limit`. */
  ghost predicate SegmentBeyond(g: Geometry, p: Point, a: Point, b: Point, limit: real) {
    forall t :: 0.0 <= t <= 1.0 ==> SquareAt(g, p, a, b, t) > limit
  }

  /** The same for the first `n` segments of the route. */
  ghost predicate SegmentsBeyond(g: Geometry, p: Point, route: seq<Point>, n: nat, limit: real)
    requires n < |route|
  {
    forall i :: 0 <= i < n ==> SegmentBeyond(g, p, route[i], route[i + 1], limit)
  }

  /** `p` is farther than the square root of `limit` from every point of the planned route. */
  ghost predicate Strays(g: Geometry, p: Point, route: seq<Point>, limit: real)
    requires route != []
  {
    if |route| == 1 then g.haversine(p, route[0]) * g.haversine(p, route[0]) > limit
    else SegmentsBeyond(g, p, route, |route| - 1, limit)
  }

  lemma NearestDecides(g: Geometry, p: Point, a: Point, b: Point, d: real, limit: real)
    requires IsSegmentDistance(g, p, a, b, d)
    ensures SegmentBeyond(g, p, a, b, limit) <==> d > limit
  {
    var t :| 0.0 <= t <= 1.0 && SquareAt(g, p, a, b, t) == d;
  }

  /** Squared form of `distanceToRouteMeters`: its comparison with any limit tells whether `p` strays. */
  method DistanceToRoute(g: Geometry, p: Point, route: seq<Point>) returns (d: Distance)
    requires g.Valid()
    ensures d.Infinite? <==> route == []
    ensures d.Finite? ==> d.square >= 0.0 && forall limit :: d.square > limit <==> Strays(g, p, route, limit)
  {
    if |route| == 0 {
      return Infinite;
    }
    if |route| == 1 {
      SquarePositive(g.haversine(p, route[0]), 0.0);
      return Finite(g.haversine(p, route[0]) * g.haversine(p, route[0]));
    }
    d := Infinite;
    for i := 0 to |route| - 1
      invariant d.Infinite? <==> i == 0
      invariant d.Finite? ==> d.square >= 0.0 && forall limit :: d.square > limit <==> SegmentsBeyond(g, p, route, i, limit)
    {
      var di := PointToSegment(g, p, route[i], route[i + 1]);
      ghost var before, n := d, i + 1;
      if d.Infinite? || di < d.square {
        d := Finite(di);
      }
      forall limit ensures d.square > limit <==> SegmentsBeyond(g, p, route, n, limit) {
        NearestDecides(g, p, route[i], route[i + 1], di, limit);
        assert SegmentsBeyond(g, p, route, n, limit) <==>
               SegmentsBeyond(g, p, route, i, limit) && SegmentBeyond(g, p, route[i], route[i + 1], limit);
        assert before.Finite? ==> (before.square > limit <==> SegmentsBeyond(g, p, route, i, limit));
      }
    }
  }

  predicate Earlier(a: TrackPoint, b: TrackPoint) {
    a.recordedAt < b.recordedAt
  }

  /** Some fix strays; the order of the fixes plays no part in this. */
  ghost predicate SomeStrays(g: Geometry, fixes: seq<TrackPoint>, route: seq<Point>, limit: real)
    requires route != []
  {
    exists f :: f in fixes && Strays(g, f.at, route, limit)
  }

  lemma SomeStraysMore(g: Geometry, fixes: seq<TrackPoint>, f: TrackPoint, route: seq<Point>, limit: real)
    requires route != []
    ensures SomeStrays(g, fixes + [f], route, limit) <==> SomeStrays(g, fixes, route, limit) || Strays(g, f.at, route, limit)
  {
    assert forall x :: x in fixes + [f] <==> x in fixes || x == f;
  }

  /** `m` is the greatest squared distance of a fix from the route, told by the limits that it exceeds. */
  ghost predicate IsMaxSquare(g: Geometry, fixes: seq<TrackPoint>, route: seq<Point>, m: real)
    requires route != []
  {
    m >= 0.0 && forall limit :: limit >= 0.0 ==> (SomeStrays(g, fixes, route, limit) <==> m > limit)
  }

  lemma MaxSquareUnique(g: Geometry, fixes: seq<TrackPoint>, route: seq<Point>, m: real, m': real)
    requires route != [] && IsMaxSquare(g, fixes, route, m) && IsMaxSquare(g, fixes, route, m')
    ensures m == m'
  {
    assert SomeStrays(g, fixes, route, m) <==> m' > m;
    assert SomeStrays(g, fixes, route, m') <==> m > m';
  }

  lemma SegmentDistanceExists(g: Geometry, p: Point, a: Point, b: Point) returns (d: real)
    requires g.Valid()
    ensures d >= 0.0 && IsSegmentDistance(g, p, a, b, d)
  {
    if a == b {
      d := g.haversine(p, a) * g.haversine(p, a);
      assert SquareAt(g, p, a, b, 0.0) == d;
      SquarePositive(g.haversine(p, a), 0.0);
    } else {
      var lat0 := g.MidLatitude(a, b);
      var q, u, v := g.Project(p, lat0), g.Project(a, lat0), g.Project(b, lat0);
      var at := Clamp(FootAt(q, u, v));
      d := Square(q, Between(u, v, at));
      assert SquareAt(g, p, a, b, at) == d;
      SquareNonNegative(q, Between(u, v, at));
      forall t | 0.0 <= t <= 1.0 ensures d <= SquareAt(g, p, a, b, t) {
        NearestOnSegment(q, u, v, t);
      }
    }
  }

  lemma {:induction false} RouteSquareExists(g: Geometry, p: Point, route: seq<Point>, n: nat) returns (d: real)
    requires g.Valid() && 0 < n < |route|
    ensures d >= 0.0 && forall limit :: d > limit <==> SegmentsBeyond(g, p, route, n, limit)
  {
    var last := SegmentDistanceExists(g, p, route[n - 1], route[n]);
    var front := last;
    if n > 1 {
      front := RouteSquareExists(g, p, route, n - 1);
    }
    d := if last < front then last else front;
    forall limit ensures d > limit <==> SegmentsBeyond(g, p, route, n, limit) {
      NearestDecides(g, p, route[n - 1], route[n], last, limit);
      assert SegmentsBeyond(g, p, route, n, limit)
             <==> SegmentsBeyond(g, p, route, n - 1, limit) && SegmentBeyond(g, p, route[n - 1], route[n], limit);
    }
  }

  lemma StraySquareExists(g: Geometry, p: Point, route: seq<Point>) returns (d: real)
    requires g.Valid() && route != []
    ensures d >= 0.0 && forall limit :: d > limit <==> Strays(g, p, route, limit)
  {
    if |route| == 1 {
      d := g.haversine(p, route[0]) * g.haversine(p, route[0]);
      SquarePositive(g.haversine(p, route[0]), 0.0);
    } else {
      d := RouteSquareExists(g, p, route, |route| - 1);
    }
  }

  /** There always is a greatest squared distance. */
  lemma {:induction false} MaxSquareExists(g: Geometry, fixes: seq<TrackPoint>, route: seq<Point>) returns (m: real)
    requires g.Valid() && route != []
    ensures IsMaxSquare(g, fixes, route, m)
  {
    if fixes == [] {
      m := 0.0;
    } else {
      var front, last := fixes[..|fixes| - 1], fixes[|fixes| - 1];
      var d := StraySquareExists(g, last.at, route);
      m := MaxSquareExists(g, front, route);
      assert fixes == front + [last];
      m := if d > m then d else m;
      forall limit | limit >= 0.0 ensures SomeStrays(g, fixes, route, limit) <==> m > limit {
        SomeStraysMore(g, front, last, route, limit);
        assert d > limit <==> Strays(g, last.at, route, limit);
      }
    }
  }

  class PatrolTrack {
    const points: seq<TrackPoint>
    var deviation: bool
    var maxDeviation: real  // squared

    constructor (points: seq<TrackPoint>)
      ensures this.points == points && !deviation && maxDeviation == 0.0
    {
      this.points := points;
      deviation, maxDeviation := false, 0.0;
    }

    /** Flags the track exactly when some fix strays beyond the threshold. */
    method Evaluate(g: Geometry, route: seq<Point>, threshold: real)
      requires g.Valid()
      modifies this
      ensures points == [] || route == [] ==> deviation == old(deviation) && maxDeviation == old(maxDeviation)
      ensures points != [] && route != [] ==>
                (deviation <==> threshold < 0.0 || SomeStrays(g, points, route, Squared(threshold)))
      ensures points != [] && route != [] ==> IsMaxSquare(g, points, route, maxDeviation)
    {
      if |points| == 0 || |route| == 0 {
        return;
      }
      var ordered := StableSort(points, Earlier);
      var maxDev := 0.0;
      for i := 0 to |ordered|
        invariant maxDev >= 0.0
        invariant forall limit :: limit >= 0.0 ==> (SomeStrays(g, ordered[..i], route, limit) <==> maxDev > limit)
      {
        ghost var before, seen := maxDev, ordered[..i + 1];
        var d := DistanceToRoute(g, ordered[i].at, route);
        if d.square > maxDev {
          maxDev := d.square;
        }
        forall limit | limit >= 0.0
          ensures SomeStrays(g, seen, route, limit) <==> maxDev > limit
        {
          assert seen == ordered[..i] + [ordered[i]];
          SomeStraysMore(g, ordered[..i], ordered[i], route, limit);
          assert SomeStrays(g, ordered[..i], route, limit) <==> before > limit;
          assert d.square > limit <==> Strays(g, ordered[i].at, route, limit);
        }
      }
      assert ordered[..|ordered|] == ordered;
      StableSortMembers(points, Earlier);
      forall limit ensures SomeStrays(g, ordered, route, limit) <==> SomeStrays(g, points, route, limit) {
      }
      SquarePositive(threshold, 0.0);
      maxDeviation := maxDev;
      deviation := threshold < 0.0 || maxDev > threshold * threshold;
    }
  }

  /** Distances and squared distances compare alike, which the squared form relies on. */
  lemma SquaresCompareAlike(d: real, threshold: real)
    requires d >= 0.0
    ensures d > threshold <==> threshold < 0.0 || d * d > threshold * threshold
  {
    if threshold >= 0.0 {
      if d > threshold {
        ProductPositive(d - threshold, d + threshold);
        assert d * d - threshold * threshold == (d - threshold) * (d + threshold);
      } else {
        ProductNonNegative(threshold - d, d + threshold);
        assert threshold * threshold - d * d == (threshold - d) * (d + threshold);
      }
    }
  }
}
