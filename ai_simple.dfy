/**
 * The "simple" computer opponent: a 5-tick look-ahead with a flat penalty, distance bands and a
 * centre preference, no open-space or aggression terms; closer than 80 pixels to a wall it takes
 * the best heading at once, without the damping rule.
 */
module AiSimple {
  import opened Geometry
  import opened Steering
  import opened Vehicle

  /**
   * Its weights: sentinel -10000, a flat -2000 for any hit within 5 ticks, a single wall band, no
   * open-space rays and no aggression.
   */
  const Weights: Tuning := Tuning(
    -10000.0, 5, -2000.0, 0.0,
    Band(100.0, 50.0, 150.0, 10.0, 0.1),
    Band(100.0, 50.0, 150.0, 10.0, 0.1),
    Band(50.0, 30.0, 50.0, 0.0, 0.5),
    Band(50.0, 20.0, 50.0, 0.0, 0.3),
    0.5, 0.0, 0, 0.0, 0.0, 0.0, 0.0, 2.0)

  /** Decisions every 100, 50 or 30 milliseconds. */
  const Speeds: Pace := Pace(100.0, 50.0, 30.0)

  /** Wall distance below which the damping rule is skipped. */
  const Emergency: real := 80.0

  lemma WeightsAreSound()
    ensures Sound(Weights)
  {
  }

  /** Any hit within the look-ahead costs the same 2000, however close; a clear path is scored. */
  lemma LookAheadIsFlat(v: View, d: Direction, alarm: bool, draw: real, dist: Metric)
    ensures !Disqualified(v, d) && FirstBlocked(SelfScene(v), v.pos, d, v.speed, 1, 5).Some? ==>
              Evaluate(Weights, v, d, alarm, draw, dist) == -2000.0
    ensures !Disqualified(v, d) && FirstBlocked(SelfScene(v), v.pos, d, v.speed, 1, 5).None? ==>
              Evaluate(Weights, v, d, alarm, draw, dist)
              == BandTerm(Weights.wall, DistanceToWall(Displace(v.pos, d, v.speed), v.bounds))
                 + BandTerm(Weights.ownTrail, TrailDistance(Displace(v.pos, d, v.speed), v.ownTrail, dist))
                 + BandTerm(Weights.rivalTrail, TrailDistance(Displace(v.pos, d, v.speed), v.rivalTrail, dist))
                 + CentreTerm(v.bounds, Displace(v.pos, d, v.speed), dist, 0.5)
                 + (draw - 0.5) * 2.0
  {
  }

  /**
   * The falsy UP within 80 pixels of a wall: heading LEFT at (2, 998) in a 1000 by 1000 arena, with
   * no trails, UP is the only heading whose next position is inside the arena, so it is the best
   * heading for any draws; written with `|| currentDir`, the urgent choice falls back to LEFT,
   * which equals the current heading, so nothing turns and the cycle keeps a heading whose next
   * position is past the left wall.
   */
  lemma FalsyUpKeepsDoomedHeading(urgent: Draws, calm: Draws, dist: Metric)
    requires Euclidean(dist) && (forall d :: 0.0 <= urgent(d)) && (forall d :: 0.0 <= calm(d))
    ensures var v := View(Point(2.0, 998.0), 5.0, Bounds(1000.0, 1000.0), [], [], Point(0.0, 0.0), []);
            DistanceToWall(v.pos, v.bounds) < Emergency
            && BestHeading(Weights, v, Left, false, urgent, dist) == Up
            && BestHeadingAsWritten(Weights, v, Left, false, urgent, dist) == Left
            && BestHeadingAsWritten(Weights, v, Left, false, calm, dist) == Left
            && Disqualified(v, Left) && !Disqualified(v, Up)
  {
    var v := View(Point(2.0, 998.0), 5.0, Bounds(1000.0, 1000.0), [], [], Point(0.0, 0.0), []);
    WeightsAreSound();
    assert !Disqualified(v, Up);
    EscapeIsTaken(Weights, v, Left, false, urgent, dist, Up);
    EscapeIsTaken(Weights, v, Left, false, calm, dist, Up);
    assert Disqualified(v, Down) && Disqualified(v, Left);
  }

  /**
   * The heading and last decision a decision leaves: the undamped urgent choice closer than 80
   * pixels to a wall if it turns, otherwise the damped calm choice.
   */
  function Chosen(v: View, current: Direction, last: Option<Direction>, urgent: Draws, calm: Draws, dist: Metric)
    : (Direction, Option<Direction>)
  {
    var first := BestHeadingAsWritten(Weights, v, current, false, urgent, dist);
    var second := BestHeadingAsWritten(Weights, v, current, false, calm, dist);
    if DistanceToWall(v.pos, v.bounds) < Emergency && first != current then (first, Some(first))
    else Damped(second, current, last)
  }

  /** The heading and last decision after a frame's decision step: `Chosen` when one is `due`. */
  function Decided(v: View, current: Direction, last: Option<Direction>, due: bool, urgent: Draws, calm: Draws, dist: Metric)
    : (Direction, Option<Direction>)
  {
    if due then Chosen(v, current, last, urgent, calm, dist) else (current, last)
  }

  class SimpleAI {
    const body: Player
    var decisionTimer: real
    var decisionInterval: real
    var lastDecision: Option<Direction>
    var opponentPosition: Point
    var opponentTrail: seq<Point>
    var gameBounds: Bounds

    ghost predicate Valid()
      reads this, body
    {
      0.0 < decisionInterval && body.Valid()
    }

    /** A vehicle at (x, y) in an arena the size of the window, deciding every 30 ms. */
    constructor (x: real, y: real, speed: real, heading: Direction, window: Bounds)
      ensures Valid() && fresh(body)
      ensures body.position == Point(x, y) && body.direction == heading && body.speed == speed
      ensures body.trail == [Point(x, y)]
      ensures decisionTimer == 0.0 && decisionInterval == 30.0 && lastDecision == None
      ensures opponentPosition == Point(0.0, 0.0) && opponentTrail == [] && gameBounds == window
    {
      body := new Player(x, y, speed, heading);
      decisionTimer := 0.0;
      decisionInterval := 30.0;
      lastDecision := None;
      opponentPosition := Point(0.0, 0.0);
      opponentTrail := [];
      gameBounds := window;
    }

    /** `getCurrentGameState` as the evaluation sees it: its own trail, the recorded opponent. */
    function Seen(): View
      reads this, body
    {
      View(body.position, body.speed, gameBounds, body.trail, body.trail, opponentPosition, opponentTrail)
    }

    /**
     * The decision. Closer than 80 pixels to a wall, a best heading (from the draws `urgent`) that
     * differs from the current one is taken at once; otherwise a fresh best heading (from the draws
     * `calm`) is taken under the damping rule. Either best falls back to the current heading when
     * it is UP.
     */
    method MakeDecision(urgent: Draws, calm: Draws, dist: Metric)
      modifies body`direction, this`lastDecision
      ensures var first := BestHeadingAsWritten(Weights, Seen(), old(body.direction), false, urgent, dist);
              var second := BestHeadingAsWritten(Weights, Seen(), old(body.direction), false, calm, dist);
              if DistanceToWall(body.position, gameBounds) < Emergency && first != old(body.direction) then
                body.direction == first && lastDecision == Some(first)
              else if Adopts(second, old(body.direction), old(lastDecision)) then
                body.direction == second && lastDecision == Some(second)
              else
                body.direction == old(body.direction) && lastDecision == old(lastDecision)
      ensures (body.direction, lastDecision) == Chosen(Seen(), old(body.direction), old(lastDecision), urgent, calm, dist)
      ensures DistanceToWall(body.position, gameBounds) < Emergency && Euclidean(dist)
              && (forall d :: 0.0 <= urgent(d)) && (forall d :: 0.0 <= calm(d))
              && (exists e :: e != Reverse(old(body.direction)) && !Disqualified(Seen(), e))
              && UpDoesNotBite(old(body.direction), urgent, dist) && UpDoesNotBite(old(body.direction), calm, dist)
              ==> !Disqualified(Seen(), body.direction)
    {
      var current := body.direction;
      var wallDistance := DistanceToWall(body.position, gameBounds);
      if wallDistance < Emergency {
        var first := ChooseHeadingAsWritten(Weights, Seen(), current, false, urgent, dist);
        if first != current {
          body.SetDirection(first);
          lastDecision := Some(first);
          EscapeWhenPossible(current, urgent, dist);
          return;
        }
      }
      var second := ChooseHeadingAsWritten(Weights, Seen(), current, false, calm, dist);
      if second != current && lastDecision != Some(second) {
        body.SetDirection(second);
        lastDecision := Some(second);
      }
      EscapeWhenPossible(current, urgent, dist);
      EscapeWhenPossible(current, calm, dist);
    }

    /** The falsy UP cannot bite: the best heading for these draws is not UP, or the cycle heads UP. */
    ghost predicate UpDoesNotBite(current: Direction, draws: Draws, dist: Metric)
      reads this, body
    {
      BestHeading(Weights, Seen(), current, false, draws, dist) != Up || current == Up
    }

    /** The survival argument of the decision as written, for one set of draws. */
    lemma EscapeWhenPossible(current: Direction, draws: Draws, dist: Metric)
      ensures Euclidean(dist) && (forall d :: 0.0 <= draws(d))
              && (exists e :: e != Reverse(current) && !Disqualified(Seen(), e))
              && UpDoesNotBite(current, draws, dist)
              ==> !Disqualified(Seen(), BestHeadingAsWritten(Weights, Seen(), current, false, draws, dist))
    {
      if Euclidean(dist) && (forall d :: 0.0 <= draws(d))
         && (exists e :: e != Reverse(current) && !Disqualified(Seen(), e)) {
        var e :| e != Reverse(current) && !Disqualified(Seen(), e);
        WeightsAreSound();
        AsWrittenEscapesUnlessUp(Weights, Seen(), current, false, draws, dist, e);
      }
    }

    /** Decide, and reset the timer, once the timer has reached the interval. */
    method DecideWhenDue(urgent: Draws, calm: Draws, dist: Metric)
      modifies this`decisionTimer, body`direction, this`lastDecision
      ensures decisionTimer == if old(decisionTimer) >= decisionInterval then 0.0 else old(decisionTimer)
      ensures (body.direction, lastDecision)
           == if old(decisionTimer) >= decisionInterval
              then Chosen(Seen(), old(body.direction), old(lastDecision), urgent, calm, dist)
              else (old(body.direction), old(lastDecision))
    {
      if decisionTimer >= decisionInterval {
        MakeDecision(urgent, calm, dist);
        decisionTimer := 0.0;
      }
    }

    /** The timer and, when due, the decision; the vehicle does not move. */
    method Decide(delta: real, urgent: Draws, calm: Draws, dist: Metric)
      requires Valid()
      modifies this`decisionTimer, body`direction, this`lastDecision
      ensures Valid() && decisionTimer < decisionInterval
      ensures decisionTimer == if old(decisionTimer) + delta >= decisionInterval then 0.0 else old(decisionTimer) + delta
      ensures (body.direction, lastDecision)
           == Decided(old(Seen()), old(body.direction), old(lastDecision), old(decisionTimer) + delta >= decisionInterval,
                      urgent, calm, dist)
    {
      ghost var seen := Seen();
      decisionTimer := decisionTimer + delta;
      DecideWhenDue(urgent, calm, dist);
      assert Seen() == seen;
    }

    /** One frame: the timer and decision, then the vehicle's own tick, whose collision report it returns. */
    method Update(delta: real, singlePlayer: bool, score: int, urgent: Draws, calm: Draws, dist: Metric)
      returns (collided: bool, newScore: int)
      requires Valid()
      modifies this`decisionTimer, this`lastDecision
      modifies body`position, body`trail, body`direction, body`distanceTraveled, body`lastPosition
      ensures Valid() && decisionTimer < decisionInterval
      ensures body.position == Displace(old(body.position), body.direction, body.speed)
      ensures body.trail
           == if body.position != old(body.position) then old(body.trail) + [body.position] else old(body.trail)
      ensures collided == TrailHit(body.trail, body.position)
      ensures decisionTimer == if old(decisionTimer) + delta >= decisionInterval then 0.0 else old(decisionTimer) + delta
      ensures body.distanceTraveled == old(body.distanceTraveled) + (if singlePlayer then Abs(body.speed) else 0.0)
      ensures newScore
           == if singlePlayer && Milestone(body.distanceTraveled, Abs(body.speed)) then score + ScoreBonus else score
      ensures (body.direction, lastDecision)
           == Decided(old(Seen()), old(body.direction), old(lastDecision), old(decisionTimer) + delta >= decisionInterval,
                      urgent, calm, dist)
    {
      Decide(delta, urgent, calm, dist);
      collided, newScore := body.Update(singlePlayer, score);
    }

    method UpdateOpponentInfo(position: Point, trail: seq<Point>)
      modifies this`opponentPosition, this`opponentTrail
      ensures opponentPosition == position && opponentTrail == trail
    {
      opponentPosition := position;
      opponentTrail := trail;
    }

    method UpdateGameBounds(bounds: Bounds)
      modifies this`gameBounds
      ensures gameBounds == bounds
    {
      gameBounds := bounds;
    }

    method SetDifficulty(level: Difficulty)
      requires Valid()
      modifies this`decisionInterval
      ensures Valid() && decisionInterval == Interval(Speeds, level)
    {
      IntervalInRange(Speeds, level);
      decisionInterval := Interval(Speeds, level);
    }
  }
}
