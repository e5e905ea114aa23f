/** Headings, points and the point-against-trail collision test shared by every vehicle. */
module Geometry {

  datatype Option<T> = None | Some(value: T)

  /** The four headings, numbered as the game numbers them (UP=0 .. LEFT=3). */
  datatype Direction = Up | Right | Down | Left

  function Code(d: Direction): int {
    match d
    case Up => 0
    case Right => 1
    case Down => 2
    case Left => 3
  }

  function Reverse(d: Direction): Direction {
    match d
    case Up => Down
    case Right => Left
    case Down => Up
    case Left => Right
  }

  function AbsInt(n: int): nat {
    if n < 0 then -n else n
  }

  function Abs(r: real): real {
    if r < 0.0 then -r else r
  }

  function Min(a: real, b: real): real {
    if a <= b then a else b
  }

  /** The game's reversal test: the two headings' numbers differ by exactly 2. */
  predicate IsOpposite(a: Direction, b: Direction) {
    AbsInt(Code(a) - Code(b)) == 2
  }

  lemma OppositeIsReverse(a: Direction, b: Direction)
    ensures IsOpposite(a, b) <==> b == Reverse(a)
  {
  }

  /** The heading a vehicle ends up with when `requested` is asked for: a reversal is refused. */
  function Steer(current: Direction, requested: Direction): (r: Direction)
    ensures r != Reverse(current)
    ensures requested != Reverse(current) ==> r == requested
    ensures requested == Reverse(current) ==> r == current
  {
    if IsOpposite(current, requested) then current else requested
  }

  datatype Point = Point(x: real, y: real)

  datatype Bounds = Bounds(width: real, height: real)

  /** A distance function between points; the game's is Euclidean (see `Euclidean`). */
  type Metric = (Point, Point) -> real

  /** Moves `p` by `dist` along the heading's axis; UP decreases y, as on screen. */
  function Displace(p: Point, d: Direction, dist: real): Point {
    match d
    case Up => Point(p.x, p.y - dist)
    case Right => Point(p.x + dist, p.y)
    case Down => Point(p.x, p.y + dist)
    case Left => Point(p.x - dist, p.y)
  }

  function Sq(r: real): real {
    r * r
  }

  function SqDist(p: Point, q: Point): real {
    Sq(q.x - p.x) + Sq(q.y - p.y)
  }

  /** `dist` is the square root of the squared distance: the only non-negative root there is. */
  ghost predicate Euclidean(dist: Metric) {
    forall p: Point, q: Point :: 0.0 <= dist(p, q) && Sq(dist(p, q)) == SqDist(p, q)
  }

  lemma DisplaceMovesAlongAxis(p: Point, d: Direction, dist: real)
    ensures SqDist(p, Displace(p, d, dist)) == Sq(dist)
    ensures (Displace(p, d, dist).x == p.x) <==> (d == Up || d == Down || dist == 0.0)
    ensures Displace(p, d, dist) != p <==> dist != 0.0
  {
  }

  lemma DisplaceAdds(p: Point, d: Direction, a: real, b: real)
    ensures Displace(Displace(p, d, a), d, b) == Displace(p, d, a + b)
  {
  }

  lemma DisplaceUndone(p: Point, d: Direction, a: real)
    ensures Displace(Displace(p, d, a), Reverse(d), a) == p
  {
  }

  /** `sqrt(SqDist(p, q)) < tolerance`, written without the root. */
  predicate Within(p: Point, q: Point, tolerance: real) {
    0.0 < tolerance && SqDist(p, q) < Sq(tolerance)
  }

  lemma SquareGrows(a: real, b: real)
    requires 0.0 <= a < b
    ensures Sq(a) < Sq(b)
  {
    var gap := b - a;
    assert b * b == a * a + gap * (a + b);
    assert gap * (a + b) > 0.0;
  }

  lemma WithinIsDistanceBelow(dist: Metric, p: Point, q: Point, tolerance: real)
    requires Euclidean(dist)
    ensures Within(p, q, tolerance) <==> dist(p, q) < tolerance
  {
    var d := dist(p, q);
    assert 0.0 <= d && Sq(d) == SqDist(p, q);
    if 0.0 < tolerance {
      if d < tolerance {
        SquareGrows(d, tolerance);
      } else if tolerance < d {
        SquareGrows(tolerance, d);
      }
    }
  }

  /** The point a fraction `u` of the way from `a` to `b`. */
  function Lerp(a: Point, b: Point, u: real): Point {
    Point(a.x + u * (b.x - a.x), a.y + u * (b.y - a.y))
  }

  /**
   * The game's segment test: project `pos` onto the line through `a` and `b`; when the projection
   * falls before `a` or after `b` use that endpoint, otherwise the foot of the perpendicular, and
   * compare the distance strictly against the tolerance. A zero-length segment never hits, and
   * `posEnd` is not used.
   */
  predicate NearSegment(pos: Point, posEnd: Point, a: Point, b: Point, tolerance: real) {
    if SqDist(a, b) == 0.0 then false
    else
      var t := Fraction(pos, a, b);
      if t < 0.0 then Within(pos, a, tolerance)
      else if t > 1.0 then Within(pos, b, tolerance)
      else Within(pos, Lerp(a, b, t), tolerance)
  }

  /** Dot product of `pos - a` with `b - a`. */
  function Dot(pos: Point, a: Point, b: Point): real {
    (pos.x - a.x) * (b.x - a.x) + (pos.y - a.y) * (b.y - a.y)
  }

  /** Where the projection of `pos` falls along the segment from `a` to `b`, as a fraction of its length. */
  function Fraction(pos: Point, a: Point, b: Point): real
    requires SqDist(a, b) != 0.0
  {
    Dot(pos, a, b) / SqDist(a, b)
  }

  /** Reference meaning: some point of the closed segment lies within the tolerance. */
  ghost predicate TouchesSegment(pos: Point, a: Point, b: Point, tolerance: real) {
    exists u: real :: 0.0 <= u <= 1.0 && Within(pos, Lerp(a, b, u), tolerance)
  }

  lemma SquareOfDifference(w: real, v: real, u: real)
    ensures Sq(u * v - w) == Sq(w) - 2.0 * (u * (w * v)) + (u * u) * Sq(v)
  {
  }

  lemma Distribute(a: real, b: real, c: real)
    ensures a * (b + c) == a * b + a * c
  {
  }

  lemma LerpOffset(pos: Point, a: Point, b: Point, u: real)
    ensures SqDist(pos, Lerp(a, b, u))
         == Sq(u * (b.x - a.x) - (pos.x - a.x)) + Sq(u * (b.y - a.y) - (pos.y - a.y))
  {
    var q := Lerp(a, b, u);
    assert q.x - pos.x == u * (b.x - a.x) - (pos.x - a.x);
    assert q.y - pos.y == u * (b.y - a.y) - (pos.y - a.y);
  }

  /** Squared distance from `pos` to the point at fraction `u`, as a quadratic in `u`. */
  lemma SqDistAlong(pos: Point, a: Point, b: Point, u: real)
    ensures SqDist(pos, Lerp(a, b, u)) == SqDist(a, pos) - 2.0 * (u * Dot(pos, a, b)) + (u * u) * SqDist(a, b)
  {
    LerpOffset(pos, a, b, u);
    SquareOfDifference(pos.x - a.x, b.x - a.x, u);
    SquareOfDifference(pos.y - a.y, b.y - a.y, u);
    Distribute(u, (pos.x - a.x) * (b.x - a.x), (pos.y - a.y) * (b.y - a.y));
    Distribute(u * u, Sq(b.x - a.x), Sq(b.y - a.y));
  }

  lemma SqDistNonNegative(p: Point, q: Point)
    ensures SqDist(p, q) >= 0.0
  {
  }

  lemma LerpEnds(a: Point, b: Point)
    ensures Lerp(a, b, 0.0) == a && Lerp(a, b, 1.0) == b
  {
  }

  /** On [0, 1], the quadratic `-2uk + u*u*len` is smallest at the clamp `c` of `k / len`. */
  lemma QuadraticAboveClamp(u: real, c: real, k: real, len: real)
    requires len > 0.0 && 0.0 <= u <= 1.0
    requires c == (if k / len < 0.0 then 0.0 else if k / len > 1.0 then 1.0 else k / len)
    ensures -2.0 * (c * k) + (c * c) * len <= -2.0 * (u * k) + (u * u) * len
  {
    var t := k / len;
    assert k == t * len;
    var gap := (u - c) * ((u + c) * len - 2.0 * k);
    assert -2.0 * (u * k) + (u * u) * len - (-2.0 * (c * k) + (c * c) * len) == gap;
    if t < 0.0 {
      assert k < 0.0;
      var m := u * len - 2.0 * k;
      assert u * len >= 0.0;
      assert m > 0.0;
      assert u * m >= 0.0;
    } else if t > 1.0 {
      assert k - len == (t - 1.0) * len;
      assert (t - 1.0) * len > 0.0;
      var m := (u + 1.0) * len - 2.0 * k;
      assert (u + 1.0) * len <= 2.0 * len;
      assert m < 0.0;
      var n := u - 1.0;
      assert n * m >= 0.0;
    } else {
      var n := u - c;
      assert (u + c) * len - 2.0 * k == n * len;
      assert n * n >= 0.0;
      assert n * (n * len) == (n * n) * len;
    }
  }

  /** The fraction of the point the game compares against. */
  function ClampedFraction(pos: Point, a: Point, b: Point): real
    requires SqDist(a, b) != 0.0
  {
    var t := Fraction(pos, a, b);
    if t < 0.0 then 0.0 else if t > 1.0 then 1.0 else t
  }

  lemma NearSegmentUsesClamp(pos: Point, posEnd: Point, a: Point, b: Point, tolerance: real)
    requires SqDist(a, b) != 0.0
    ensures NearSegment(pos, posEnd, a, b, tolerance)
        <==> Within(pos, Lerp(a, b, ClampedFraction(pos, a, b)), tolerance)
  {
    LerpEnds(a, b);
  }

  /** The clamped minimiser beats every fraction in [0, 1], whatever the common offset. */
  lemma ClampBeats(base: real, du: real, dc: real, u: real, c: real, k: real, len: real)
    requires len > 0.0 && 0.0 <= u <= 1.0
    requires c == (if k / len < 0.0 then 0.0 else if k / len > 1.0 then 1.0 else k / len)
    requires du == base - 2.0 * (u * k) + (u * u) * len
    requires dc == base - 2.0 * (c * k) + (c * c) * len
    ensures dc <= du
  {
    QuadraticAboveClamp(u, c, k, len);
  }

  lemma ClampIsClosest(pos: Point, a: Point, b: Point, u: real)
    requires SqDist(a, b) != 0.0 && 0.0 <= u <= 1.0
    ensures SqDist(pos, Lerp(a, b, ClampedFraction(pos, a, b))) <= SqDist(pos, Lerp(a, b, u))
  {
    var c := ClampedFraction(pos, a, b);
    SqDistNonNegative(a, b);
    SqDistAlong(pos, a, b, u);
    SqDistAlong(pos, a, b, c);
    ClampBeats(SqDist(a, pos), SqDist(pos, Lerp(a, b, u)), SqDist(pos, Lerp(a, b, c)),
               u, c, Dot(pos, a, b), SqDist(a, b));
  }

  /** The game's test agrees with the reference on every segment of positive length. */
  lemma NearSegmentMeansTouching(pos: Point, posEnd: Point, a: Point, b: Point, tolerance: real)
    requires SqDist(a, b) != 0.0
    ensures NearSegment(pos, posEnd, a, b, tolerance) <==> TouchesSegment(pos, a, b, tolerance)
  {
    NearSegmentUsesClamp(pos, posEnd, a, b, tolerance);
    var c := ClampedFraction(pos, a, b);
    if TouchesSegment(pos, a, b, tolerance) {
      var u :| 0.0 <= u <= 1.0 && Within(pos, Lerp(a, b, u), tolerance);
      ClampIsClosest(pos, a, b, u);
    }
  }

  /** The newest trail points the collision test skips. */
  const RecentPoints: nat := 10

  /** Collision tolerance in pixels. */
  const Tolerance: real := 5.0

  /** Segment `i` of the trail (from point i to point i+1) passes within the tolerance of `p`. */
  predicate SegmentHit(trail: seq<Point>, i: int, p: Point)
    requires 0 <= i < |trail| - 1
  {
    NearSegment(p, Point(p.x + Tolerance, p.y + Tolerance), trail[i], trail[i + 1], Tolerance)
  }

  /**
   * `checkCollisionWithPoint`: a trail of fewer than 12 points never hits; otherwise the segments
   * starting before index |trail| - 11 are tested, so the 10 newest points are ignored.
   */
  predicate TrailHit(trail: seq<Point>, p: Point) {
    |trail| >= RecentPoints + 2
    && exists i :: 0 <= i < |trail| - RecentPoints - 1 && SegmentHit(trail, i, p)
  }

  /** `checkCollisionWithPoint`'s loop: test the segments in order and stop at the first hit. */
  method ScanTrail(trail: seq<Point>, point: Point) returns (hit: bool)
    ensures hit == TrailHit(trail, point)
  {
    if |trail| < RecentPoints + 2 {
      return false;
    }
    var i := 0;
    while i < |trail| - RecentPoints - 1
      invariant 0 <= i <= |trail| - RecentPoints - 1
      invariant forall j :: 0 <= j < i ==> !SegmentHit(trail, j, point)
    {
      if SegmentHit(trail, i, point) {
        return true;
      }
      i := i + 1;
    }
    return false;
  }

  /** The newest points never decide a hit: two trails that agree except there give the same verdict. */
  lemma RecentPointsIgnored(t1: seq<Point>, t2: seq<Point>, p: Point)
    requires |t1| == |t2| >= RecentPoints
    requires t1[..|t1| - RecentPoints] == t2[..|t2| - RecentPoints]
    ensures TrailHit(t1, p) == TrailHit(t2, p)
  {
    forall i | 0 <= i < |t1| - RecentPoints - 1
      ensures SegmentHit(t1, i, p) == SegmentHit(t2, i, p)
    {
      assert t1[i] == t1[..|t1| - RecentPoints][i];
      assert t1[i + 1] == t1[..|t1| - RecentPoints][i + 1];
      assert t2[i] == t2[..|t2| - RecentPoints][i];
      assert t2[i + 1] == t2[..|t2| - RecentPoints][i + 1];
    }
    if TrailHit(t1, p) {
      var i :| 0 <= i < |t1| - RecentPoints - 1 && SegmentHit(t1, i, p);
      assert SegmentHit(t2, i, p);
    }
    if TrailHit(t2, p) {
      var i :| 0 <= i < |t2| - RecentPoints - 1 && SegmentHit(t2, i, p);
      assert SegmentHit(t1, i, p);
    }
  }

  /** A trail only grows, so a point that hits it keeps hitting it. */
  lemma HitSurvivesGrowth(trail: seq<Point>, q: Point, p: Point)
    requires TrailHit(trail, p)
    ensures TrailHit(trail + [q], p)
  {
    var i :| 0 <= i < |trail| - RecentPoints - 1 && SegmentHit(trail, i, p);
    var longer := trail + [q];
    assert longer[i] == trail[i] && longer[i + 1] == trail[i + 1];
    assert SegmentHit(longer, i, p);
  }
}
