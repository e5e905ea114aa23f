/**
 * The steering machinery the computer opponents share: the three headings a cycle may take, the
 * straight-line probes that look for walls and trails, the distance measures, and the weighted
 * score of a heading from which the highest-scoring one is picked.
 */
module Steering {
  import opened Geometry

  /** The random draw (in [0, 1)) each heading's evaluation takes from the random source. */
  type Draws = Direction -> real

  /** The headings in the order the game's enumeration lists them. */
  const AllDirections: seq<Direction> := [Up, Right, Down, Left]

  // ---------------------------------------------------------------- candidate headings

  /** The headings a cycle may turn to: every heading except the reverse, in enumeration order. */
  function Candidates(current: Direction): (c: seq<Direction>)
    ensures |c| == 3
    ensures forall d :: d in c <==> d != Reverse(current)
    ensures forall i, j :: 0 <= i < j < |c| ==> Code(c[i]) < Code(c[j])
  {
    match current
    case Up => assert forall d :: d in [Up, Right, Left] <==> d != Down; [Up, Right, Left]
    case Right => assert forall d :: d in [Up, Right, Down] <==> d != Left; [Up, Right, Down]
    case Down => assert forall d :: d in [Right, Down, Left] <==> d != Up; [Right, Down, Left]
    case Left => assert forall d :: d in [Up, Down, Left] <==> d != Right; [Up, Down, Left]
  }

  // ---------------------------------------------------------------- walls, trails and probes

  /** Distance to the nearest of the four walls; negative once the point is past a wall. */
  function DistanceToWall(p: Point, b: Bounds): real {
    Min(Min(Min(p.x, b.width - p.x), p.y), b.height - p.y)
  }

  /** The wall distance is the least of the four distances to the left, right, top and bottom walls. */
  lemma NearestWall(p: Point, b: Bounds)
    ensures var r := DistanceToWall(p, b);
            r <= p.x && r <= b.width - p.x && r <= p.y && r <= b.height - p.y
            && (r == p.x || r == b.width - p.x || r == p.y || r == b.height - p.y)
  {
  }

  /** Outside the arena: left of or above the origin, or at or beyond the far edges. */
  predicate OffArena(p: Point, b: Bounds) {
    p.x < 0.0 || p.x >= b.width || p.y < 0.0 || p.y >= b.height
  }

  /** A point in the arena has room to every wall, and a point with room to every wall is in it. */
  lemma InsideMeansRoom(p: Point, b: Bounds)
    ensures !OffArena(p, b) ==> 0.0 <= DistanceToWall(p, b)
    ensures 0.0 < DistanceToWall(p, b) ==> !OffArena(p, b)
    ensures 0.0 <= DistanceToWall(p, b) <==> 0.0 <= p.x <= b.width && 0.0 <= p.y <= b.height
  {
  }

  /** What a straight probe runs into: the arena's walls and the prober's own trail. */
  datatype Scene = Scene(bounds: Bounds, trail: seq<Point>)

  predicate Blocked(s: Scene, p: Point) {
    OffArena(p, s.bounds) || TrailHit(s.trail, p)
  }

  /** A wall or own-trail test of one point (`wouldCollideImmediate` and the inline tests). */
  method Probe(s: Scene, p: Point) returns (blocked: bool)
    ensures blocked == Blocked(s, p)
  {
    if OffArena(p, s.bounds) {
      return true;
    }
    blocked := ScanTrail(s.trail, p);
  }

  /** The position `k` ticks ahead along heading `d` (`getFuturePosition` with `steps`). */
  function Ahead(p: Point, d: Direction, speed: real, k: nat): Point {
    Displace(p, d, speed * k as real)
  }

  /** The first of the ticks `from..horizon` whose position is blocked, if any. */
  function FirstBlocked(s: Scene, p: Point, d: Direction, speed: real, from: nat, horizon: nat): (r: Option<nat>)
    ensures r.Some? ==> from <= r.value <= horizon && Blocked(s, Ahead(p, d, speed, r.value))
    ensures r.Some? ==> forall k: nat :: from <= k < r.value ==> !Blocked(s, Ahead(p, d, speed, k))
    ensures r.None? ==> forall k: nat :: from <= k <= horizon ==> !Blocked(s, Ahead(p, d, speed, k))
    decreases horizon + 1 - from
  {
    if from > horizon then None
    else if Blocked(s, Ahead(p, d, speed, from)) then Some(from)
    else FirstBlocked(s, p, d, speed, from + 1, horizon)
  }

  /** The look-ahead loop: probe ticks 1, 2, ... up to the horizon and stop at the first blocked one. */
  method LookAhead(s: Scene, p: Point, d: Direction, speed: real, horizon: nat) returns (r: Option<nat>)
    ensures r == FirstBlocked(s, p, d, speed, 1, horizon)
  {
    var step := 1;
    while step <= horizon
      invariant 1 <= step <= horizon + 1
      invariant FirstBlocked(s, p, d, speed, step, horizon) == FirstBlocked(s, p, d, speed, 1, horizon)
    {
      var blocked := Probe(s, Ahead(p, d, speed, step));
      if blocked {
        return Some(step);
      }
      step := step + 1;
    }
    return None;
  }

  /** Free ticks along a ray from `q`, one `speed` at a time, counting steps `step..cap - 1`. */
  function Ray(s: Scene, q: Point, d: Direction, speed: real, step: nat, cap: nat): (n: nat)
    ensures step < cap ==> n <= cap - step
    ensures cap <= step ==> n == 0
    decreases cap - step
  {
    if step >= cap then 0
    else
      var next := Displace(q, d, speed);
      if Blocked(s, next) then 0 else 1 + Ray(s, next, d, speed, step + 1, cap)
  }

  lemma AheadNext(q: Point, d: Direction, speed: real, k: nat)
    ensures Ahead(Displace(q, d, speed), d, speed, k) == Ahead(q, d, speed, k + 1)
  {
    DisplaceAdds(q, d, speed, speed * k as real);
    assert speed + speed * k as real == speed * (k + 1) as real;
  }

  /**
   * A ray counts exactly the free run: each of its first `n` ticks is clear and, unless the cap cut
   * it short, the tick after them is blocked.
   */
  lemma {:induction false} RayIsFreeRun(s: Scene, q: Point, d: Direction, speed: real, step: nat, cap: nat)
    ensures forall k: nat :: 1 <= k <= Ray(s, q, d, speed, step, cap) ==> !Blocked(s, Ahead(q, d, speed, k))
    ensures step + Ray(s, q, d, speed, step, cap) < cap ==>
              Blocked(s, Ahead(q, d, speed, Ray(s, q, d, speed, step, cap) + 1))
    decreases cap - step
  {
    if step < cap {
      var next := Displace(q, d, speed);
      assert Ahead(q, d, speed, 1) == next;
      if !Blocked(s, next) {
        var rest := Ray(s, next, d, speed, step + 1, cap);
        RayIsFreeRun(s, next, d, speed, step + 1, cap);
        forall k: nat | 1 <= k <= 1 + rest
          ensures !Blocked(s, Ahead(q, d, speed, k))
        {
          if k > 1 {
            AheadNext(q, d, speed, k - 1);
          }
        }
        AheadNext(q, d, speed, rest + 1);
      }
    }
  }

  /** Free ticks along a list of rays from `p`, the first tick being step 1. */
  function RaySum(s: Scene, p: Point, speed: real, cap: nat, dirs: seq<Direction>): nat {
    if dirs == [] then 0
    else RaySum(s, p, speed, cap, dirs[..|dirs| - 1]) + Ray(s, p, dirs[|dirs| - 1], speed, 1, cap)
  }

  /** The open-space measure: free ticks along the four rays from `p`. */
  function SpaceScore(s: Scene, p: Point, speed: real, cap: nat): nat {
    RaySum(s, p, speed, cap, AllDirections)
  }

  /** The open-space measure is the sum of the four rays, so it counts at most `cap - 1` ticks per ray. */
  lemma SpaceIsFourRays(s: Scene, p: Point, speed: real, cap: nat)
    ensures SpaceScore(s, p, speed, cap)
         == Ray(s, p, Up, speed, 1, cap) + Ray(s, p, Right, speed, 1, cap)
            + Ray(s, p, Down, speed, 1, cap) + Ray(s, p, Left, speed, 1, cap)
    ensures 1 <= cap ==> SpaceScore(s, p, speed, cap) <= 4 * (cap - 1)
  {
    assert RaySum(s, p, speed, cap, [Up]) == Ray(s, p, Up, speed, 1, cap) by {
      assert [Up][..0] == [];
    }
    assert RaySum(s, p, speed, cap, [Up, Right]) == RaySum(s, p, speed, cap, [Up]) + Ray(s, p, Right, speed, 1, cap) by {
      assert [Up, Right][..1] == [Up];
    }
    assert RaySum(s, p, speed, cap, [Up, Right, Down])
        == RaySum(s, p, speed, cap, [Up, Right]) + Ray(s, p, Down, speed, 1, cap) by {
      assert [Up, Right, Down][..2] == [Up, Right];
    }
    assert AllDirections[..3] == [Up, Right, Down];
  }

  /** `calculateSpaceScore`: walk each of the four rays until blocked or until the cap. */
  method SpaceScan(s: Scene, p: Point, speed: real, cap: nat) returns (total: nat)
    ensures total == SpaceScore(s, p, speed, cap)
  {
    total := 0;
    for i := 0 to 4
      invariant total == RaySum(s, p, speed, cap, AllDirections[..i])
    {
      var dir := AllDirections[i];
      var run := 0;
      var testPos := p;
      var step := 1;
      while step < cap
        invariant 1 <= step
        invariant run + Ray(s, testPos, dir, speed, step, cap) == Ray(s, p, dir, speed, 1, cap)
        decreases cap - step
      {
        testPos := Displace(testPos, dir, speed);
        var blocked := Probe(s, testPos);
        if blocked {
          break;
        }
        run := run + 1;
        step := step + 1;
      }
      assert AllDirections[..i + 1][..i] == AllDirections[..i];
      total := total + run;
    }
    assert AllDirections[..4] == AllDirections;
  }

  /** Nearest distance from `p` to a point of a non-empty trail. */
  function Nearest(p: Point, trail: seq<Point>, dist: Metric): (r: real)
    requires trail != []
    ensures exists i :: 0 <= i < |trail| && r == dist(p, trail[i])
    ensures forall i :: 0 <= i < |trail| ==> r <= dist(p, trail[i])
  {
    if |trail| == 1 then dist(p, trail[0])
    else
      var rest := Nearest(p, trail[..|trail| - 1], dist);
      assert forall i :: 0 <= i < |trail| - 1 ==> trail[..|trail| - 1][i] == trail[i];
      Min(rest, dist(p, trail[|trail| - 1]))
  }

  /** `getDistanceToTrail`: the nearest trail point's distance, 1000 for an empty trail. */
  function TrailDistance(p: Point, trail: seq<Point>, dist: Metric): (r: real)
    ensures trail == [] ==> r == 1000.0
    ensures trail != [] ==> forall i :: 0 <= i < |trail| ==> r <= dist(p, trail[i])
    ensures trail != [] ==> exists i :: 0 <= i < |trail| && r == dist(p, trail[i])
  {
    if trail == [] then 1000.0 else Nearest(p, trail, dist)
  }

  /** The distance-to-trail loop, keeping the smallest distance seen (none yet standing for infinity). */
  method MeasureTrailDistance(p: Point, trail: seq<Point>, dist: Metric) returns (r: real)
    ensures r == TrailDistance(p, trail, dist)
  {
    if |trail| == 0 {
      return 1000.0;
    }
    var best: Option<real> := None;
    for i := 0 to |trail|
      invariant i == 0 ==> best == None
      invariant 0 < i ==> best == Some(Nearest(p, trail[..i], dist))
    {
      var d := dist(p, trail[i]);
      assert trail[..i + 1][..i] == trail[..i];
      best := if best.None? then Some(d) else Some(Min(best.value, d));
    }
    assert trail[..|trail|] == trail;
    r := best.value;
  }

  // ---------------------------------------------------------------- scoring a heading

  /**
   * A distance band: closer than `near` costs `(near - d) * nearWeight`, closer than `far` costs
   * `(far - d) * farWeight`, anything further earns `d * bonus`.
   */
  datatype Band = Band(near: real, nearWeight: real, far: real, farWeight: real, bonus: real)

  function BandTerm(b: Band, d: real): real {
    if d < b.near then -(b.near - d) * b.nearWeight
    else if d < b.far then -(b.far - d) * b.farWeight
    else d * b.bonus
  }

  predicate NonNegativeBand(b: Band) {
    0.0 <= b.near && 0.0 <= b.nearWeight && 0.0 <= b.far && 0.0 <= b.farWeight && 0.0 <= b.bonus
  }

  /** The most a band can cost at a non-negative distance. */
  function WorstOf(b: Band): real {
    b.near * b.nearWeight + b.far * b.farWeight
  }

  lemma ScaleMonotone(a: real, b: real, w: real)
    requires a <= b && 0.0 <= w
    ensures a * w <= b * w
  {
    var gap := b - a;
    assert b * w == a * w + gap * w;
    assert 0.0 <= gap * w;
  }

  lemma ProductNonNegative(a: real, b: real)
    requires 0.0 <= a && 0.0 <= b
    ensures 0.0 <= a * b
  {
  }

  /** No band costs more than its worst at a non-negative distance. */
  lemma BandFloor(b: Band, d: real)
    requires NonNegativeBand(b) && 0.0 <= d
    ensures -WorstOf(b) <= BandTerm(b, d)
  {
    ProductNonNegative(b.near, b.nearWeight);
    ProductNonNegative(b.far, b.farWeight);
    if d < b.near {
      ScaleMonotone(b.near - d, b.near, b.nearWeight);
    } else if d < b.far {
      ScaleMonotone(b.far - d, b.far, b.farWeight);
    } else {
      ProductNonNegative(d, b.bonus);
    }
  }

  /**
   * The weights of one opponent's heading evaluation: the score of a blocked next position, the
   * look-ahead horizon and its penalties, the distance bands, the centre, open-space and
   * aggression weights, the random jitter, and the number of ticks an open-space ray may run.
   */
  datatype Tuning = Tuning(
    sentinel: real,
    horizon: nat,
    aheadBase: real,
    aheadStep: real,
    wall: Band,
    alarmWall: Band,
    ownTrail: Band,
    rivalTrail: Band,
    centreWeight: real,
    spaceWeight: real,
    rayCap: nat,
    safeWall: real,
    safeTrail: real,
    closerBonus: real,
    furtherPenalty: real,
    jitter: real)

  /**
   * What an evaluation looks at: the cycle's position and speed, the arena, the trail its own
   * collision test uses, the trail it keeps its distance from as its own, and the opponent's
   * position and trail.
   */
  datatype View = View(
    pos: Point,
    speed: real,
    bounds: Bounds,
    selfTrail: seq<Point>,
    ownTrail: seq<Point>,
    rivalPos: Point,
    rivalTrail: seq<Point>)

  function SelfScene(v: View): Scene {
    Scene(v.bounds, v.selfTrail)
  }

  /** The heading's very next position is off the arena or on the cycle's own trail. */
  predicate Disqualified(v: View, d: Direction) {
    Blocked(SelfScene(v), Displace(v.pos, d, v.speed))
  }

  /** The score of a heading whose path is blocked `k` ticks ahead. */
  function AheadPenalty(t: Tuning, k: nat): real {
    t.aheadBase - (t.horizon - k) as real * t.aheadStep
  }

  function CentreTerm(b: Bounds, next: Point, dist: Metric, weight: real): real {
    var centre := Point(b.width / 2.0, b.height / 2.0);
    (dist(Point(0.0, 0.0), centre) - dist(next, centre)) * weight
  }

  /** With the opponent placed and the cycle clear of walls and its trail: reward closing in. */
  function AggressionTerm(t: Tuning, v: View, next: Point, wallDistance: real, own: real, dist: Metric): real {
    if v.rivalPos.x != 0.0 || v.rivalPos.y != 0.0 then
      if wallDistance > t.safeWall && own > t.safeTrail then
        if dist(next, v.rivalPos) < dist(v.pos, v.rivalPos) then t.closerBonus else -t.furtherPenalty
      else 0.0
    else 0.0
  }

  /** The weighted sum for a clear heading, given its trail distances and open space. */
  function Weighted(t: Tuning, v: View, next: Point, alarm: bool, draw: real, dist: Metric,
                    own: real, rival: real, space: nat): real
  {
    var wallDistance := DistanceToWall(next, v.bounds);
    BandTerm(if alarm then t.alarmWall else t.wall, wallDistance)
    + BandTerm(t.ownTrail, own)
    + BandTerm(t.rivalTrail, rival)
    + CentreTerm(v.bounds, next, dist, t.centreWeight)
    + space as real * t.spaceWeight
    + AggressionTerm(t, v, next, wallDistance, own, dist)
    + (draw - 0.5) * t.jitter
  }

  /** The score of a heading whose look-ahead found nothing. */
  function ClearScore(t: Tuning, v: View, next: Point, alarm: bool, draw: real, dist: Metric): real {
    Weighted(t, v, next, alarm, draw, dist,
             TrailDistance(next, v.ownTrail, dist),
             TrailDistance(next, v.rivalTrail, dist),
             SpaceScore(SelfScene(v), next, v.speed, t.rayCap))
  }

  /**
   * The score of heading `d`: the sentinel when its next position is blocked, the look-ahead
   * penalty when the path is blocked within the horizon, the weighted sum otherwise. `alarm`
   * selects the panic or emergency wall band.
   */
  function Evaluate(t: Tuning, v: View, d: Direction, alarm: bool, draw: real, dist: Metric): real {
    var next := Displace(v.pos, d, v.speed);
    if Blocked(SelfScene(v), next) then t.sentinel
    else match FirstBlocked(SelfScene(v), v.pos, d, v.speed, 1, t.horizon)
      case Some(k) => AheadPenalty(t, k)
      case None => ClearScore(t, v, next, alarm, draw, dist)
  }

  /** `evaluateDirection`, with its look-ahead, distance and open-space loops. */
  method EvaluateHeading(t: Tuning, v: View, d: Direction, alarm: bool, draw: real, dist: Metric)
    returns (score: real)
    ensures score == Evaluate(t, v, d, alarm, draw, dist)
  {
    var next := Displace(v.pos, d, v.speed);
    var blocked := Probe(SelfScene(v), next);
    if blocked {
      return t.sentinel;
    }
    var ahead := LookAhead(SelfScene(v), v.pos, d, v.speed, t.horizon);
    if ahead.Some? {
      return AheadPenalty(t, ahead.value);
    }
    var own := MeasureTrailDistance(next, v.ownTrail, dist);
    var rival := MeasureTrailDistance(next, v.rivalTrail, dist);
    var space := SpaceScan(SelfScene(v), next, v.speed, t.rayCap);
    score := Weighted(t, v, next, alarm, draw, dist, own, rival, space);
  }

  /** The closer the look-ahead finds an obstacle, the lower the score. */
  lemma SoonerIsWorse(t: Tuning, j: nat, k: nat)
    requires 0.0 <= t.aheadStep && j <= k
    ensures AheadPenalty(t, j) <= AheadPenalty(t, k)
  {
    ScaleMonotone((t.horizon - k) as real, (t.horizon - j) as real, t.aheadStep);
  }

  // ---------------------------------------------------------------- picking the best heading

  /** Neither index is excluded, or there is an index besides the excluded one. */
  predicate HasOther(n: nat, skip: int) {
    n > (if 0 <= skip < n then 1 else 0)
  }

  /**
   * The index of the first largest score among the indices other than `skip`: where a stable
   * sort by descending score puts it first (with `skip` the first pick, it puts this one second).
   */
  function Leader(s: seq<real>, skip: int): (r: nat)
    requires HasOther(|s|, skip)
    ensures r < |s| && r != skip
    ensures forall j :: 0 <= j < |s| && j != skip ==> s[j] <= s[r]
    ensures forall j :: 0 <= j < r && j != skip ==> s[j] < s[r]
    decreases |s|
  {
    var n := |s| - 1;
    if !HasOther(n, skip) then n
    else
      var i := Leader(s[..n], skip);
      if n != skip && s[n] > s[i] then n else i
  }

  /** The head of the descending sort. */
  function TopIndex(s: seq<real>): (r: nat)
    requires s != []
    ensures r < |s| && forall j :: 0 <= j < |s| ==> s[j] <= s[r]
    ensures forall j :: 0 <= j < r ==> s[j] < s[r]
  {
    Leader(s, -1)
  }

  /** The second entry of the descending sort. */
  function SecondIndex(s: seq<real>): (r: nat)
    requires |s| >= 2
    ensures r < |s| && r != TopIndex(s)
    ensures forall j :: 0 <= j < |s| && j != TopIndex(s) ==> s[j] <= s[r]
    ensures forall j :: 0 <= j < r && j != TopIndex(s) ==> s[j] < s[r]
  {
    Leader(s, TopIndex(s))
  }

  function Scores(t: Tuning, v: View, c: seq<Direction>, alarm: bool, draws: Draws, dist: Metric): (s: seq<real>)
    ensures |s| == |c|
    ensures forall i :: 0 <= i < |c| ==> s[i] == Evaluate(t, v, c[i], alarm, draws(c[i]), dist)
  {
    if c == [] then [] else [Evaluate(t, v, c[0], alarm, draws(c[0]), dist)] + Scores(t, v, c[1..], alarm, draws, dist)
  }

  function IndexOf(c: seq<Direction>, d: Direction): (i: nat)
    requires d in c
    ensures i < |c| && c[i] == d
  {
    if c[0] == d then 0 else 1 + IndexOf(c[1..], d)
  }

  /** The head of the sorted candidates scores at least as well as every candidate. */
  lemma TopIsBest(t: Tuning, v: View, current: Direction, alarm: bool, draws: Draws, dist: Metric)
    ensures forall d :: d != Reverse(current) ==>
              Evaluate(t, v, d, alarm, draws(d), dist) <= Score(t, v, current, alarm, draws, dist)
    ensures forall d :: d != Reverse(current) && Code(d) < Code(Top(t, v, current, alarm, draws, dist)) ==>
              Evaluate(t, v, d, alarm, draws(d), dist) < Score(t, v, current, alarm, draws, dist)
  {
    var c := Candidates(current);
    var s := Scores(t, v, c, alarm, draws, dist);
    var top := TopIndex(s);
    forall d | d != Reverse(current)
      ensures Evaluate(t, v, d, alarm, draws(d), dist) <= s[top]
      ensures Code(d) < Code(c[top]) ==> Evaluate(t, v, d, alarm, draws(d), dist) < s[top]
    {
      var i := IndexOf(c, d);
      assert s[i] == Evaluate(t, v, d, alarm, draws(d), dist);
      if Code(d) < Code(c[top]) {
        assert i < top;
      }
    }
  }

  /** The head of the descending sort of the candidates and its score. */
  function Top(t: Tuning, v: View, current: Direction, alarm: bool, draws: Draws, dist: Metric): Direction {
    var c := Candidates(current);
    c[TopIndex(Scores(t, v, c, alarm, draws, dist))]
  }

  function Score(t: Tuning, v: View, current: Direction, alarm: bool, draws: Draws, dist: Metric): real {
    var c := Candidates(current);
    var s := Scores(t, v, c, alarm, draws, dist);
    s[TopIndex(s)]
  }

  /**
   * The heading `calculateBestDirection` is meant to return: the head of the candidates sorted by
   * descending score (see `BestHeadingIsBest`).
   */
  function BestHeading(t: Tuning, v: View, current: Direction, alarm: bool, draws: Draws, dist: Metric)
    : (r: Direction)
    ensures r != Reverse(current)
  {
    Top(t, v, current, alarm, draws, dist)
  }

  /**
   * The best heading is a candidate with the highest score, and the earliest in enumeration order
   * among those with that score.
   */
  lemma BestHeadingIsBest(t: Tuning, v: View, current: Direction, alarm: bool, draws: Draws, dist: Metric)
    ensures var r := BestHeading(t, v, current, alarm, draws, dist);
            forall d :: d != Reverse(current) ==>
              Evaluate(t, v, d, alarm, draws(d), dist) <= Evaluate(t, v, r, alarm, draws(r), dist)
    ensures var r := BestHeading(t, v, current, alarm, draws, dist);
            forall d :: d != Reverse(current) && Code(d) < Code(r) ==>
              Evaluate(t, v, d, alarm, draws(d), dist) < Evaluate(t, v, r, alarm, draws(r), dist)
  {
    TopIsBest(t, v, current, alarm, draws, dist);
  }

  /**
   * The heading `calculateBestDirection` returns as written: the sorted head, or the current
   * heading when the head is the falsy UP (numbered 0).
   */
  function BestHeadingAsWritten(t: Tuning, v: View, current: Direction, alarm: bool, draws: Draws, dist: Metric)
    : (r: Direction)
    ensures BestHeading(t, v, current, alarm, draws, dist) != Up ==> r == BestHeading(t, v, current, alarm, draws, dist)
    ensures BestHeading(t, v, current, alarm, draws, dist) == Up ==> r == current
  {
    var top := BestHeading(t, v, current, alarm, draws, dist);
    if Code(top) == 0 then current else top
  }

  /**
   * The corrected `calculateBestDirection`: score every candidate, then take the head of the
   * descending sort, with no fallback for the falsy UP.
   */
  method ChooseHeading(t: Tuning, v: View, current: Direction, alarm: bool, draws: Draws, dist: Metric)
    returns (r: Direction)
    ensures r == BestHeading(t, v, current, alarm, draws, dist)
  {
    var c := Candidates(current);
    var scores: seq<real> := [];
    for i := 0 to |c|
      invariant |scores| == i
      invariant forall j :: 0 <= j < i ==> scores[j] == Evaluate(t, v, c[j], alarm, draws(c[j]), dist)
    {
      var score := EvaluateHeading(t, v, c[i], alarm, draws(c[i]), dist);
      scores := scores + [score];
    }
    assert scores == Scores(t, v, c, alarm, draws, dist);
    r := c[TopIndex(scores)];
  }

  /** `calculateBestDirection` as written: the head of the sort, or the current heading for UP. */
  method ChooseHeadingAsWritten(t: Tuning, v: View, current: Direction, alarm: bool, draws: Draws, dist: Metric)
    returns (r: Direction)
    ensures r == BestHeadingAsWritten(t, v, current, alarm, draws, dist)
  {
    r := ChooseHeading(t, v, current, alarm, draws, dist);
    if Code(r) == 0 {
      r := current;
    }
  }

  // ---------------------------------------------------------------- a blocked heading is never preferred

  function Max(a: real, b: real): real {
    if a <= b then b else a
  }

  /** The lowest a weighted sum can fall to at a position inside the arena. */
  function WorstCase(t: Tuning): real {
    Max(WorstOf(t.wall), WorstOf(t.alarmWall)) + WorstOf(t.ownTrail) + WorstOf(t.rivalTrail)
    + t.furtherPenalty + t.jitter / 2.0
  }

  /**
   * Weights under which the sentinel is below every other score: the look-ahead penalties and the
   * worst weighted sum all stay above it.
   */
  predicate Sound(t: Tuning) {
    1 <= t.horizon && 0.0 <= t.aheadStep
    && NonNegativeBand(t.wall) && NonNegativeBand(t.alarmWall)
    && NonNegativeBand(t.ownTrail) && NonNegativeBand(t.rivalTrail)
    && 0.0 <= t.centreWeight && 0.0 <= t.spaceWeight
    && 0.0 <= t.closerBonus && 0.0 <= t.furtherPenalty && 0.0 <= t.jitter
    && t.sentinel < AheadPenalty(t, 1)
    && t.sentinel < -WorstCase(t)
  }

  lemma HalfwaySquare(x: real, w: real)
    requires 0.0 <= x <= w
    ensures Sq(w / 2.0 - x) <= Sq(w / 2.0 - 0.0)
  {
    var a := w / 2.0;
    assert Sq(a - x) == Sq(a) - x * (w - x);
    ProductNonNegative(x, w - x);
  }

  /** No point of the arena is further from its centre than the corner at the origin. */
  lemma CentreTermNonNegative(b: Bounds, next: Point, dist: Metric, weight: real)
    requires Euclidean(dist) && 0.0 <= weight
    requires 0.0 <= next.x <= b.width && 0.0 <= next.y <= b.height
    ensures 0.0 <= CentreTerm(b, next, dist, weight)
  {
    var centre := Point(b.width / 2.0, b.height / 2.0);
    var origin := Point(0.0, 0.0);
    HalfwaySquare(next.x, b.width);
    HalfwaySquare(next.y, b.height);
    var near := dist(next, centre);
    var far := dist(origin, centre);
    assert near <= far by {
      assert 0.0 <= near && Sq(near) == SqDist(next, centre);
      assert 0.0 <= far && Sq(far) == SqDist(origin, centre);
      if far < near {
        SquareGrows(far, near);
      }
    }
    ProductNonNegative(far - near, weight);
  }

  lemma TrailDistanceNonNegative(p: Point, trail: seq<Point>, dist: Metric)
    requires Euclidean(dist)
    ensures 0.0 <= TrailDistance(p, trail, dist)
  {
    if trail != [] {
      var i :| 0 <= i < |trail| && TrailDistance(p, trail, dist) == dist(p, trail[i]);
    }
  }

  /** A sum of seven terms is at least the sum of their floors. */
  lemma SumFloor(wall: real, own: real, rival: real, centre: real, space: real, aggression: real, jitter: real,
                 wallFloor: real, ownFloor: real, rivalFloor: real, aggressionFloor: real, jitterFloor: real)
    requires -wallFloor <= wall && -ownFloor <= own && -rivalFloor <= rival
    requires 0.0 <= centre && 0.0 <= space && -aggressionFloor <= aggression && -jitterFloor <= jitter
    ensures -(wallFloor + ownFloor + rivalFloor + aggressionFloor + jitterFloor)
            <= wall + own + rival + centre + space + aggression + jitter
  {
  }

  lemma WeightedFloor(t: Tuning, v: View, next: Point, alarm: bool, draw: real, dist: Metric,
                      own: real, rival: real, space: nat)
    requires Sound(t) && Euclidean(dist) && 0.0 <= draw && 0.0 <= own && 0.0 <= rival
    requires !OffArena(next, v.bounds)
    ensures -WorstCase(t) <= Weighted(t, v, next, alarm, draw, dist, own, rival, space)
  {
    var wallDistance := DistanceToWall(next, v.bounds);
    InsideMeansRoom(next, v.bounds);
    var wallBand := if alarm then t.alarmWall else t.wall;
    BandFloor(wallBand, wallDistance);
    BandFloor(t.ownTrail, own);
    BandFloor(t.rivalTrail, rival);
    CentreTermNonNegative(v.bounds, next, dist, t.centreWeight);
    ProductNonNegative(space as real, t.spaceWeight);
    ScaleMonotone(-0.5, draw - 0.5, t.jitter);
    SumFloor(BandTerm(wallBand, wallDistance), BandTerm(t.ownTrail, own), BandTerm(t.rivalTrail, rival),
             CentreTerm(v.bounds, next, dist, t.centreWeight), space as real * t.spaceWeight,
             AggressionTerm(t, v, next, wallDistance, own, dist), (draw - 0.5) * t.jitter,
             Max(WorstOf(t.wall), WorstOf(t.alarmWall)), WorstOf(t.ownTrail), WorstOf(t.rivalTrail),
             t.furtherPenalty, t.jitter / 2.0);
  }

  /** Under sound weights a heading whose next position is free scores above the sentinel. */
  lemma FreeHeadingBeatsSentinel(t: Tuning, v: View, d: Direction, alarm: bool, draw: real, dist: Metric)
    requires Sound(t) && Euclidean(dist) && 0.0 <= draw
    requires !Disqualified(v, d)
    ensures t.sentinel < Evaluate(t, v, d, alarm, draw, dist)
  {
    var next := Displace(v.pos, d, v.speed);
    match FirstBlocked(SelfScene(v), v.pos, d, v.speed, 1, t.horizon)
    case Some(k) =>
      SoonerIsWorse(t, 1, k);
    case None =>
      TrailDistanceNonNegative(next, v.ownTrail, dist);
      TrailDistanceNonNegative(next, v.rivalTrail, dist);
      WeightedFloor(t, v, next, alarm, draw, dist,
                    TrailDistance(next, v.ownTrail, dist), TrailDistance(next, v.rivalTrail, dist),
                    SpaceScore(SelfScene(v), next, v.speed, t.rayCap));
  }

  /**
   * Survival first: under sound weights and draws in [0, 1), whenever some candidate's next
   * position is free, the best heading's next position is free too.
   */
  lemma EscapeIsTaken(t: Tuning, v: View, current: Direction, alarm: bool, draws: Draws, dist: Metric, escape: Direction)
    requires Sound(t) && Euclidean(dist)
    requires forall d :: 0.0 <= draws(d)
    requires escape != Reverse(current) && !Disqualified(v, escape)
    ensures !Disqualified(v, BestHeading(t, v, current, alarm, draws, dist))
  {
    BestHeadingIsBest(t, v, current, alarm, draws, dist);
    FreeHeadingBeatsSentinel(t, v, escape, alarm, draws(escape), dist);
  }

  /**
   * The choice as written keeps the escape promise whenever the falsy UP does not bite: the best
   * heading is not UP, or the cycle already heads UP.
   */
  lemma AsWrittenEscapesUnlessUp(t: Tuning, v: View, current: Direction, alarm: bool, draws: Draws, dist: Metric, escape: Direction)
    requires Sound(t) && Euclidean(dist)
    requires forall d :: 0.0 <= draws(d)
    requires escape != Reverse(current) && !Disqualified(v, escape)
    ensures BestHeading(t, v, current, alarm, draws, dist) != Up || current == Up
            ==> !Disqualified(v, BestHeadingAsWritten(t, v, current, alarm, draws, dist))
  {
    EscapeIsTaken(t, v, current, alarm, draws, dist, escape);
  }

  // ---------------------------------------------------------------- the emergency turn

  /** Room to the nearest wall after one tick along `d`. */
  function WallAfter(p: Point, d: Direction, speed: real, b: Bounds): real {
    DistanceToWall(Displace(p, d, speed), b)
  }

  /**
   * The emergency pick: the first candidate with the most room to the walls after one tick, if
   * that room is positive; otherwise `fallback` with room 0.
   */
  function Widest(p: Point, speed: real, b: Bounds, cands: seq<Direction>, fallback: Direction)
    : (r: (Direction, real))
    ensures 0.0 <= r.1
    ensures forall i :: 0 <= i < |cands| ==> WallAfter(p, cands[i], speed, b) <= r.1
    ensures (r.0 == fallback && r.1 == 0.0) || (r.0 in cands && 0.0 < r.1 == WallAfter(p, r.0, speed, b))
    decreases |cands|
  {
    if cands == [] then (fallback, 0.0)
    else
      var prev := Widest(p, speed, b, cands[..|cands| - 1], fallback);
      var d := cands[|cands| - 1];
      var room := WallAfter(p, d, speed, b);
      assert forall i :: 0 <= i < |cands| - 1 ==> cands[..|cands| - 1][i] == cands[i];
      if room > prev.1 then (d, room) else prev
  }

  /** The emergency loop: keep the candidate with the most room, strictly more than any before. */
  method SafestHeading(p: Point, current: Direction, speed: real, b: Bounds) returns (best: Direction, room: real)
    ensures (best, room) == Widest(p, speed, b, Candidates(current), current)
  {
    var c := Candidates(current);
    best, room := current, 0.0;
    for i := 0 to |c|
      invariant (best, room) == Widest(p, speed, b, c[..i], current)
    {
      var d := c[i];
      var futureRoom := WallAfter(p, d, speed, b);
      assert c[..i + 1][..i] == c[..i];
      if futureRoom > room {
        best, room := d, futureRoom;
      }
    }
    assert c[..|c|] == c;
  }

  /** The heading the emergency loop settles on. */
  function EmergencyTurn(p: Point, current: Direction, speed: real, b: Bounds): Direction {
    Widest(p, speed, b, Candidates(current), current).0
  }

  /**
   * The emergency turn never reverses, so the vehicle takes it, and no candidate leaves more room
   * to the walls after one tick.
   */
  lemma EmergencyTurnIsWidest(p: Point, current: Direction, speed: real, b: Bounds)
    ensures EmergencyTurn(p, current, speed, b) != Reverse(current)
    ensures Steer(current, EmergencyTurn(p, current, speed, b)) == EmergencyTurn(p, current, speed, b)
    ensures forall d :: d != Reverse(current) ==>
              WallAfter(p, d, speed, b) <= Widest(p, speed, b, Candidates(current), current).1
  {
    var c := Candidates(current);
    var w := Widest(p, speed, b, c, current);
    assert Reverse(current) != current;
    forall d | d != Reverse(current)
      ensures WallAfter(p, d, speed, b) <= w.1
    {
      var i := IndexOf(c, d);
    }
  }

  /**
   * The damping rule of `makeDecision`: a best heading is taken only when it differs from both the
   * current heading and the last decision.
   */
  predicate Adopts(best: Direction, current: Direction, lastDecision: Option<Direction>) {
    best != current && lastDecision != Some(best)
  }

  /** The heading and last decision after the damping rule has been applied to `best`. */
  function Damped(best: Direction, current: Direction, lastDecision: Option<Direction>): (Direction, Option<Direction>) {
    if Adopts(best, current, lastDecision) then (best, Some(best)) else (current, lastDecision)
  }

  /** The three difficulty levels a computer opponent can be set to. */
  datatype Difficulty = Easy | Medium | Hard

  /** The milliseconds between decisions an opponent uses at each difficulty. */
  datatype Pace = Pace(easy: real, medium: real, hard: real)

  /** `setDifficulty`: the interval of the chosen level. */
  function Interval(pace: Pace, level: Difficulty): real {
    match level
    case Easy => pace.easy
    case Medium => pace.medium
    case Hard => pace.hard
  }

  /** With positive intervals, slowest at easy and fastest at hard, every level's interval lies between. */
  lemma IntervalInRange(pace: Pace, level: Difficulty)
    requires 0.0 < pace.hard <= pace.medium <= pace.easy
    ensures 0.0 < pace.hard <= Interval(pace, level) <= pace.easy
  {
  }
}
