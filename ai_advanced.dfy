/**
 * The "advanced" computer opponent: a score that keeps going after a look-ahead hit (penalised by
 * how close it is) or rewards a clear path, a centre term relative to the shorter half-side, and a
 * pick that takes the best heading 95% of the time and the runner-up otherwise.
 */
module AiAdvanced {
  import opened Geometry
  import opened Steering
  import opened Vehicle

  /** The score of a heading whose next position is blocked. */
  const Blocked: real := -10000.0

  /** Ticks of look-ahead. */
  const Horizon: nat := 5

  /** Ticks an open-space ray may run (`step < 50`). */
  const RayCap: nat := 50

  const WallBand: Band := Band(50.0, 20.0, 50.0, 0.0, 0.1)
  const OwnBand: Band := Band(30.0, 50.0, 30.0, 0.0, 0.5)
  const RivalBand: Band := Band(30.0, 30.0, 30.0, 0.0, 0.3)

  /** Decisions every 150, 80 or 40 milliseconds. */
  const Speeds: Pace := Pace(150.0, 80.0, 40.0)

  /** The random draw below which the best heading is taken rather than the runner-up. */
  const Faithful: real := 0.95

  /** A hit at tick k costs (6 - k) * 1000; a clear path earns 1000. */
  function AheadTerm(s: Scene, p: Point, d: Direction, speed: real): (r: real)
    ensures -5000.0 <= r <= 1000.0
  {
    match FirstBlocked(s, p, d, speed, 1, Horizon)
    case Some(k) => -(6 - k) as real * 1000.0
    case None => 1000.0
  }

  /** Half the shorter side of the arena. */
  function HalfSide(b: Bounds): real {
    Min(b.width, b.height) / 2.0
  }

  /** `(m - distance to the centre) / m * 10`, with `m` half the shorter side. */
  function CentreScore(b: Bounds, next: Point, dist: Metric): real
    requires 0.0 < HalfSide(b)
  {
    (HalfSide(b) - dist(next, Point(b.width / 2.0, b.height / 2.0))) / HalfSide(b) * 10.0
  }

  /** The view with the given heading's next position, and the terms of a free heading. */
  function FreeScore(v: View, next: Point, d: Direction, draw: real, dist: Metric): real
    requires !OffArena(next, v.bounds)
  {
    AheadTerm(SelfScene(v), v.pos, d, v.speed)
    + BandTerm(WallBand, DistanceToWall(next, v.bounds))
    + BandTerm(OwnBand, TrailDistance(next, v.ownTrail, dist))
    + BandTerm(RivalBand, TrailDistance(next, v.rivalTrail, dist))
    + CentreScore(v.bounds, next, dist)
    + SpaceScore(SelfScene(v), next, v.speed, RayCap) as real * 2.0
    + (draw - 0.5) * 10.0
  }

  /** `evaluateDirectionAdvanced`: -10000 when the next position is blocked, the sum of the terms otherwise. */
  function AdvancedScore(v: View, d: Direction, draw: real, dist: Metric): real {
    var next := Displace(v.pos, d, v.speed);
    if Steering.Blocked(SelfScene(v), next) then Blocked
    else FreeScore(v, next, d, draw, dist)
  }

  /** The evaluation with its look-ahead, distance and open-space loops. */
  method EvaluateAdvanced(v: View, d: Direction, draw: real, dist: Metric) returns (score: real)
    ensures score == AdvancedScore(v, d, draw, dist)
  {
    var next := Displace(v.pos, d, v.speed);
    var blocked := Probe(SelfScene(v), next);
    if blocked {
      return Blocked;
    }
    var ahead := LookAhead(SelfScene(v), v.pos, d, v.speed, Horizon);
    var aheadScore := if ahead.Some? then -(6 - ahead.value) as real * 1000.0 else 1000.0;
    var own := MeasureTrailDistance(next, v.ownTrail, dist);
    var rival := MeasureTrailDistance(next, v.rivalTrail, dist);
    var space := SpaceScan(SelfScene(v), next, v.speed, RayCap);
    score := aheadScore + BandTerm(WallBand, DistanceToWall(next, v.bounds)) + BandTerm(OwnBand, own)
             + BandTerm(RivalBand, rival) + CentreScore(v.bounds, next, dist) + space as real * 2.0
             + (draw - 0.5) * 10.0;
  }

  /** An arena whose longer side is at most twice its shorter side. */
  predicate Compact(b: Bounds) {
    b.width <= 2.0 * b.height && b.height <= 2.0 * b.width
  }

  /** A half-side at most twice `m` has a square at most four times `m`'s. */
  lemma HalfSquareBound(half: real, m: real)
    requires 0.0 <= half <= 2.0 * m
    ensures Sq(half) <= 4.0 * Sq(m)
  {
    if half < 2.0 * m {
      SquareGrows(half, 2.0 * m);
    }
  }

  /** In a compact arena no point is further from the centre than three half-sides. */
  lemma CentreDistanceBound(b: Bounds, next: Point, dist: Metric)
    requires Euclidean(dist) && Compact(b) && !OffArena(next, b)
    ensures 0.0 <= dist(next, Point(b.width / 2.0, b.height / 2.0)) <= 3.0 * HalfSide(b)
  {
    var m := HalfSide(b);
    var centre := Point(b.width / 2.0, b.height / 2.0);
    var d := dist(next, centre);
    HalfwaySquare(next.x, b.width);
    HalfwaySquare(next.y, b.height);
    HalfSquareBound(b.width / 2.0, m);
    HalfSquareBound(b.height / 2.0, m);
    assert Sq(d) <= 8.0 * Sq(m);
    if 3.0 * m < d {
      SquareGrows(3.0 * m, d);
    }
  }

  /** `(m - d) / m * 10` lies between -20 and 10 when `d` lies between 0 and `3m`. */
  lemma RatioRange(m: real, d: real)
    requires 0.0 < m && 0.0 <= d <= 3.0 * m
    ensures -20.0 <= (m - d) / m * 10.0 <= 10.0
  {
    var q := (m - d) / m;
    assert q * m == m - d;
    if q < -2.0 {
      ScaleMonotone(q, -2.0, m);
    }
    if 1.0 < q {
      ScaleMonotone(1.0, q, m);
    }
  }

  /** In a compact arena the centre term lies between -20 and 10. */
  lemma CentreScoreRange(b: Bounds, next: Point, dist: Metric)
    requires Euclidean(dist) && Compact(b) && !OffArena(next, b)
    ensures -20.0 <= CentreScore(b, next, dist) <= 10.0
  {
    CentreDistanceBound(b, next, dist);
    RatioRange(HalfSide(b), dist(next, Point(b.width / 2.0, b.height / 2.0)));
  }

  /** In a compact arena a heading with a free next position scores above -7500. */
  lemma FreeHeadingFloor(v: View, d: Direction, draw: real, dist: Metric)
    requires Euclidean(dist) && Compact(v.bounds) && 0.0 <= draw
    requires !Disqualified(v, d)
    ensures -7500.0 < AdvancedScore(v, d, draw, dist)
  {
    var next := Displace(v.pos, d, v.speed);
    InsideMeansRoom(next, v.bounds);
    TrailDistanceNonNegative(next, v.ownTrail, dist);
    TrailDistanceNonNegative(next, v.rivalTrail, dist);
    BandFloor(WallBand, DistanceToWall(next, v.bounds));
    BandFloor(OwnBand, TrailDistance(next, v.ownTrail, dist));
    BandFloor(RivalBand, TrailDistance(next, v.rivalTrail, dist));
    CentreScoreRange(v.bounds, next, dist);
  }

  function AdvancedScores(v: View, c: seq<Direction>, draws: Draws, dist: Metric): (s: seq<real>)
    ensures |s| == |c|
    ensures forall i :: 0 <= i < |c| ==> s[i] == AdvancedScore(v, c[i], draws(c[i]), dist)
  {
    if c == [] then [] else [AdvancedScore(v, c[0], draws(c[0]), dist)] + AdvancedScores(v, c[1..], draws, dist)
  }

  /**
   * The heading `calculateBestDirection` is meant to return: the head of the descending sort
   * when the draw `roll` is below 0.95, its second entry otherwise.
   */
  function Pick(v: View, current: Direction, roll: real, draws: Draws, dist: Metric): (r: Direction)
    ensures r != Reverse(current)
  {
    var c := Candidates(current);
    var s := AdvancedScores(v, c, draws, dist);
    var i := if roll < Faithful then TopIndex(s) else SecondIndex(s);
    assert c[i] in c;
    c[i]
  }

  /**
   * The pick as written: `|| currentDir` turns a picked UP (numbered 0) into the current heading.
   */
  function PickAsWritten(v: View, current: Direction, roll: real, draws: Draws, dist: Metric): (r: Direction)
    ensures Pick(v, current, roll, draws, dist) != Up ==> r == Pick(v, current, roll, draws, dist)
    ensures Pick(v, current, roll, draws, dist) == Up ==> r == current
  {
    var picked := Pick(v, current, roll, draws, dist);
    if Code(picked) == 0 then current else picked
  }

  /**
   * Below 0.95 the pick scores at least as well as every candidate; otherwise at most one
   * candidate scores better than the pick.
   */
  lemma PickIsTopOrRunnerUp(v: View, current: Direction, roll: real, draws: Draws, dist: Metric)
    ensures var r := Pick(v, current, roll, draws, dist);
            roll < Faithful ==>
              forall d :: d != Reverse(current) ==>
                AdvancedScore(v, d, draws(d), dist) <= AdvancedScore(v, r, draws(r), dist)
    ensures var r := Pick(v, current, roll, draws, dist);
            forall d, e :: d != Reverse(current) && e != Reverse(current)
                           && AdvancedScore(v, r, draws(r), dist) < AdvancedScore(v, d, draws(d), dist)
                           && AdvancedScore(v, r, draws(r), dist) < AdvancedScore(v, e, draws(e), dist)
                           ==> d == e
  {
    var c := Candidates(current);
    var s := AdvancedScores(v, c, draws, dist);
    var top := TopIndex(s);
    var r := Pick(v, current, roll, draws, dist);
    var ri := if roll < Faithful then top else SecondIndex(s);
    assert r == c[ri];
    forall d, e | d != Reverse(current) && e != Reverse(current)
                  && s[ri] < AdvancedScore(v, d, draws(d), dist) && s[ri] < AdvancedScore(v, e, draws(e), dist)
      ensures d == e
    {
      var i := IndexOf(c, d);
      var j := IndexOf(c, e);
      assert i == top && j == top;
    }
    if roll < Faithful {
      forall d | d != Reverse(current)
        ensures AdvancedScore(v, d, draws(d), dist) <= s[top]
      {
        var i := IndexOf(c, d);
      }
    }
  }

  /**
   * In a compact arena, when the draw is below 0.95 and some candidate's next position is free,
   * the pick's next position is free too.
   */
  lemma EscapeIsTaken(v: View, current: Direction, roll: real, draws: Draws, dist: Metric, escape: Direction)
    requires Euclidean(dist) && Compact(v.bounds) && roll < Faithful
    requires forall d :: 0.0 <= draws(d)
    requires escape != Reverse(current) && !Disqualified(v, escape)
    ensures !Disqualified(v, Pick(v, current, roll, draws, dist))
  {
    PickIsTopOrRunnerUp(v, current, roll, draws, dist);
    FreeHeadingFloor(v, escape, draws(escape), dist);
  }

  /** The pick as written keeps the escape promise unless the pick is UP and the cycle is not. */
  lemma AsWrittenEscapesUnlessUp(v: View, current: Direction, roll: real, draws: Draws, dist: Metric, escape: Direction)
    requires Euclidean(dist) && Compact(v.bounds) && roll < Faithful
    requires forall d :: 0.0 <= draws(d)
    requires escape != Reverse(current) && !Disqualified(v, escape)
    ensures Pick(v, current, roll, draws, dist) != Up || current == Up
            ==> !Disqualified(v, PickAsWritten(v, current, roll, draws, dist))
  {
    EscapeIsTaken(v, current, roll, draws, dist, escape);
  }

  /**
   * The corrected `calculateBestDirection`: score every candidate, sort, and take the head or the
   * runner-up, with no fallback for the falsy UP.
   */
  method ChoosePick(v: View, current: Direction, roll: real, draws: Draws, dist: Metric) returns (r: Direction)
    ensures r == Pick(v, current, roll, draws, dist)
  {
    var c := Candidates(current);
    var scores: seq<real> := [];
    for i := 0 to |c|
      invariant |scores| == i
      invariant forall j :: 0 <= j < i ==> scores[j] == AdvancedScore(v, c[j], draws(c[j]), dist)
    {
      var score := EvaluateAdvanced(v, c[i], draws(c[i]), dist);
      scores := scores + [score];
    }
    assert scores == AdvancedScores(v, c, draws, dist);
    var index := if roll < Faithful then TopIndex(scores) else SecondIndex(scores);
    r := c[index];
  }

  /** `calculateBestDirection` as written: the pick, or the current heading when it is UP. */
  method ChoosePickAsWritten(v: View, current: Direction, roll: real, draws: Draws, dist: Metric) returns (r: Direction)
    ensures r == PickAsWritten(v, current, roll, draws, dist)
  {
    r := ChoosePick(v, current, roll, draws, dist);
    if Code(r) == 0 {
      r := current;
    }
  }

  /** The heading and last decision when a decision is `due`: the damped pick; otherwise both are kept. */
  function Decided(v: View, current: Direction, last: Option<Direction>, due: bool, roll: real, draws: Draws, dist: Metric)
    : (Direction, Option<Direction>)
  {
    if due then Damped(PickAsWritten(v, current, roll, draws, dist), current, last) else (current, last)
  }

  class AdvancedAI {
    const body: Player
    var decisionTimer: real
    var decisionInterval: real
    var lastDecision: Option<Direction>
    var safetyMargin: real
    var aggressionLevel: real
    var lookAheadDistance: real
    var opponentPosition: Point
    var opponentTrail: seq<Point>
    var gameBounds: Bounds

    ghost predicate Valid()
      reads this, body
    {
      0.0 < decisionInterval && body.Valid()
    }

    /** A vehicle at (x, y) in an arena the size of the window, deciding every 30 ms. */
    constructor (x: real, y: real, speed: real, heading: Direction, window: Bounds)
      ensures Valid() && fresh(body)
      ensures body.position == Point(x, y) && body.direction == heading && body.speed == speed
      ensures body.trail == [Point(x, y)]
      ensures decisionTimer == 0.0 && decisionInterval == 30.0 && lastDecision == None
      ensures safetyMargin == 50.0 && aggressionLevel == 0.6 && lookAheadDistance == 200.0
      ensures opponentPosition == Point(0.0, 0.0) && opponentTrail == [] && gameBounds == window
    {
      body := new Player(x, y, speed, heading);
      decisionTimer := 0.0;
      decisionInterval := 30.0;
      lastDecision := None;
      safetyMargin := 50.0;
      aggressionLevel := 0.6;
      lookAheadDistance := 200.0;
      opponentPosition := Point(0.0, 0.0);
      opponentTrail := [];
      gameBounds := window;
    }

    /** `getCurrentGameState` as the evaluation sees it: its own trail, the recorded opponent. */
    function Seen(): View
      reads this, body
    {
      View(body.position, body.speed, gameBounds, body.trail, body.trail, opponentPosition, opponentTrail)
    }

    /**
     * Pick a heading (see `Pick`) and take it under the damping rule; a pick of UP falls back to
     * the current heading.
     */
    method MakeDecision(roll: real, draws: Draws, dist: Metric)
      modifies body`direction, this`lastDecision
      ensures var best := PickAsWritten(Seen(), old(body.direction), roll, draws, dist);
              if Adopts(best, old(body.direction), old(lastDecision))
              then body.direction == best && lastDecision == Some(best)
              else body.direction == old(body.direction) && lastDecision == old(lastDecision)
      ensures (body.direction, lastDecision)
           == Damped(PickAsWritten(Seen(), old(body.direction), roll, draws, dist), old(body.direction), old(lastDecision))
    {
      var best := ChoosePickAsWritten(Seen(), body.direction, roll, draws, dist);
      if best != body.direction && lastDecision != Some(best) {
        body.SetDirection(best);
        lastDecision := Some(best);
      }
    }

    /** Decide, and reset the timer, once the timer has reached the interval. */
    method DecideWhenDue(roll: real, draws: Draws, dist: Metric)
      modifies this`decisionTimer, body`direction, this`lastDecision
      ensures decisionTimer == if old(decisionTimer) >= decisionInterval then 0.0 else old(decisionTimer)
      ensures (body.direction, lastDecision)
           == if old(decisionTimer) >= decisionInterval
              then Damped(PickAsWritten(Seen(), old(body.direction), roll, draws, dist), old(body.direction), old(lastDecision))
              else (old(body.direction), old(lastDecision))
    {
      if decisionTimer >= decisionInterval {
        MakeDecision(roll, draws, dist);
        decisionTimer := 0.0;
      }
    }

    /** The timer and, when due, the decision; the vehicle does not move. */
    method Decide(delta: real, roll: real, draws: Draws, dist: Metric)
      requires Valid()
      modifies this`decisionTimer, body`direction, this`lastDecision
      ensures Valid() && decisionTimer < decisionInterval
      ensures decisionTimer == if old(decisionTimer) + delta >= decisionInterval then 0.0 else old(decisionTimer) + delta
      ensures (body.direction, lastDecision)
           == Decided(old(Seen()), old(body.direction), old(lastDecision), old(decisionTimer) + delta >= decisionInterval,
                      roll, draws, dist)
    {
      ghost var seen := Seen();
      decisionTimer := decisionTimer + delta;
      DecideWhenDue(roll, draws, dist);
      assert Seen() == seen;
    }

    /** One frame: the timer and decision, then the vehicle's own tick, whose collision report it returns. */
    method Update(delta: real, singlePlayer: bool, score: int, roll: real, draws: Draws, dist: Metric)
      returns (collided: bool, newScore: int)
      requires Valid()
      modifies this`decisionTimer, this`lastDecision
      modifies body`position, body`trail, body`direction, body`distanceTraveled, body`lastPosition
      ensures Valid() && decisionTimer < decisionInterval
      ensures body.position == Displace(old(body.position), body.direction, body.speed)
      ensures body.trail
           == if body.position != old(body.position) then old(body.trail) + [body.position] else old(body.trail)
      ensures collided == TrailHit(body.trail, body.position)
      ensures decisionTimer == if old(decisionTimer) + delta >= decisionInterval then 0.0 else old(decisionTimer) + delta
      ensures body.distanceTraveled == old(body.distanceTraveled) + (if singlePlayer then Abs(body.speed) else 0.0)
      ensures newScore
           == if singlePlayer && Milestone(body.distanceTraveled, Abs(body.speed)) then score + ScoreBonus else score
      ensures (body.direction, lastDecision)
           == Decided(old(Seen()), old(body.direction), old(lastDecision), old(decisionTimer) + delta >= decisionInterval,
                      roll, draws, dist)
    {
      Decide(delta, roll, draws, dist);
      collided, newScore := body.Update(singlePlayer, score);
    }

    method UpdateOpponentInfo(position: Point, trail: seq<Point>)
      modifies this`opponentPosition, this`opponentTrail
      ensures opponentPosition == position && opponentTrail == trail
    {
      opponentPosition := position;
      opponentTrail := trail;
    }

    method UpdateGameBounds(bounds: Bounds)
      modifies this`gameBounds
      ensures gameBounds == bounds
    {
      gameBounds := bounds;
    }

    /**
     * The interval of the level, with the aggression, safety margin and look-ahead distance that
     * go with it (none of which the scoring reads).
     */
    method SetDifficulty(level: Difficulty)
      requires Valid()
      modifies this`decisionInterval, this`aggressionLevel, this`safetyMargin, this`lookAheadDistance
      ensures Valid() && decisionInterval == Interval(Speeds, level)
      ensures aggressionLevel == Interval(Pace(0.3, 0.6, 0.8), level)
      ensures safetyMargin == Interval(Pace(60.0, 30.0, 20.0), level)
      ensures lookAheadDistance == Interval(Pace(150.0, 200.0, 300.0), level)
    {
      IntervalInRange(Speeds, level);
      decisionInterval := Interval(Speeds, level);
      match level
      case Easy =>
        aggressionLevel, safetyMargin, lookAheadDistance := 0.3, 60.0, 150.0;
      case Medium =>
        aggressionLevel, safetyMargin, lookAheadDistance := 0.6, 30.0, 200.0;
      case Hard =>
        aggressionLevel, safetyMargin, lookAheadDistance := 0.8, 20.0, 300.0;
    }
  }
}
