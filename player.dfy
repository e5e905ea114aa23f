/** A light cycle: its position, heading, trail and the single-player distance score. */
module Vehicle {
  import opened Geometry

  /** Pixels of travel per score award. */
  const ScoreStride: real := 50.0

  /** Points per award. */
  const ScoreBonus: int := 5

  /**
   * Length of an axis-parallel move, which is what the game's square root computes for a step
   * of a vehicle: the result is the non-negative root of the squared distance.
   */
  function AxisDistance(p: Point, q: Point): (r: real)
    requires p.x == q.x || p.y == q.y
    ensures 0.0 <= r && Sq(r) == SqDist(p, q)
  {
    var r := Abs(q.x - p.x) + Abs(q.y - p.y);
    assert Sq(Abs(q.x - p.x)) == Sq(q.x - p.x) && Sq(Abs(q.y - p.y)) == Sq(q.y - p.y);
    r
  }

  /** How many whole strides of 50 pixels a total covers. */
  function Strides(total: real): int {
    (total / ScoreStride).Floor
  }

  /** The award test: did the running total, after adding `distance`, pass a multiple of 50? */
  predicate Milestone(total: real, distance: real) {
    Strides(total) > Strides(total - distance)
  }

  /** The running distance total after `n` ticks of `step` pixels. */
  function Travelled(n: nat, step: real): real {
    if n == 0 then 0.0 else Travelled(n - 1, step) + step
  }

  /** Points earned by `n` ticks of `step` pixels from a zero total. */
  function Earned(n: nat, step: real): int {
    if n == 0 then 0
    else Earned(n - 1, step) + (if Milestone(Travelled(n, step), step) then ScoreBonus else 0)
  }

  lemma StridesAdvanceByAtMostOne(total: real, step: real)
    requires 0.0 < step <= ScoreStride
    ensures Strides(total - step) <= Strides(total) <= Strides(total - step) + 1
  {
    var before := (total - step) / ScoreStride;
    assert total / ScoreStride == before + step / ScoreStride;
  }

  /** With steps no longer than 50 pixels, every multiple of 50 passed earns exactly one award. */
  lemma {:induction false} EarnedCountsStrides(n: nat, step: real)
    requires 0.0 < step <= ScoreStride
    ensures Earned(n, step) == ScoreBonus * Strides(Travelled(n, step))
  {
    if n > 0 {
      EarnedCountsStrides(n - 1, step);
      StridesAdvanceByAtMostOne(Travelled(n, step), step);
    }
  }

  /** Each tick adds the same step, so the total is the product. */
  lemma {:induction false} TravelledIsProduct(n: nat, step: real)
    ensures Travelled(n, step) == n as real * step
  {
    if n > 0 {
      TravelledIsProduct(n - 1, step);
    }
  }

  /** At the default speed of 5, the first award comes on the tenth tick. */
  lemma FirstAwardAtDefaultSpeed()
    ensures Earned(9, 5.0) == 0 && Earned(10, 5.0) == ScoreBonus
  {
    EarnedCountsStrides(9, 5.0);
    EarnedCountsStrides(10, 5.0);
    TravelledIsProduct(9, 5.0);
    TravelledIsProduct(10, 5.0);
    assert Strides(45.0) == 0 && Strides(50.0) == 1;
  }

  class Player {
    var position: Point
    var direction: Direction
    var speed: real
    var trail: seq<Point>
    var lastPosition: Point
    var distanceTraveled: real

    /** Between ticks the position recorded for scoring is the current one. */
    ghost predicate Valid()
      reads this
    {
      lastPosition == position
    }

    constructor (x: real, y: real, speed: real, heading: Direction)
      ensures Valid()
      ensures position == Point(x, y) && direction == heading && this.speed == speed
      ensures trail == [Point(x, y)] && distanceTraveled == 0.0
    {
      position := Point(x, y);
      direction := heading;
      this.speed := speed;
      trail := [Point(x, y)];
      lastPosition := Point(x, y);
      distanceTraveled := 0.0;
    }

    /** A settings change of the player speed reaches every vehicle. */
    method ApplySettings(playerSpeed: real)
      modifies this`speed
      ensures speed == playerSpeed
    {
      speed := playerSpeed;
    }

    method SetDirection(requested: Direction)
      modifies this`direction
      ensures direction == Steer(old(direction), requested)
    {
      if !IsOpposite(direction, requested) {
        direction := requested;
      }
    }

    method CheckCollisionWithPoint(point: Point) returns (hit: bool)
      ensures hit == TrailHit(trail, point)
    {
      hit := ScanTrail(trail, point);
    }

    /**
     * One tick: move `speed` pixels along the heading, append the new position to the trail when it
     * changed, in single-player scoring mode add the distance moved and award 5 points on passing a
     * multiple of 50, then report whether the new position hits the trail.
     */
    method Update(singlePlayer: bool, score: int) returns (collided: bool, newScore: int)
      requires Valid()
      modifies this`position, this`trail, this`lastPosition, this`distanceTraveled
      ensures Valid()
      ensures position == Displace(old(position), direction, speed)
      ensures trail == if position != old(position) then old(trail) + [position] else old(trail)
      ensures distanceTraveled == old(distanceTraveled) + (if singlePlayer then Abs(speed) else 0.0)
      ensures lastPosition == position
      ensures newScore
           == if singlePlayer && Milestone(distanceTraveled, Abs(speed)) then score + ScoreBonus else score
      ensures collided == TrailHit(trail, position)
    {
      var oldPosition := position;
      position := Displace(position, direction, speed);
      if position != oldPosition {
        trail := trail + [position];
      }
      newScore := score;
      if singlePlayer {
        var distance := AxisDistance(lastPosition, position);
        distanceTraveled := distanceTraveled + distance;
        if Milestone(distanceTraveled, distance) {
          newScore := score + ScoreBonus;
        }
      }
      lastPosition := position;
      collided := CheckCollisionWithPoint(position);
    }
  }
}
