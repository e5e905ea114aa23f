/**
 * The "ultra" computer opponent: at every decision it enters emergency mode when closer than 150
 * pixels to a wall, which switches its evaluation to a harsher wall band; it then moves as an
 * ordinary vehicle.
 */
module AiUltra {
  import opened Geometry
  import opened Steering
  import opened Vehicle

  /** Its weights: sentinel -50000, an 8-tick look-ahead, the emergency wall band below 200. */
  const Weights: Tuning := Tuning(
    -50000.0, 8, -10000.0, 1000.0,
    Band(150.0, 50.0, 250.0, 10.0, 0.0),
    Band(200.0, 100.0, 200.0, 0.0, 0.0),
    Band(80.0, 50.0, 150.0, 10.0, 0.1),
    Band(80.0, 30.0, 150.0, 5.0, 0.05),
    2.0, 5.0, 100, 200.0, 150.0, 20.0, 10.0, 1.0)

  /** Decisions every 50, 30 or 20 milliseconds. */
  const Speeds: Pace := Pace(50.0, 30.0, 20.0)

  /** Wall distance below which a decision is taken in emergency mode. */
  const Emergency: real := 150.0

  lemma WeightsAreSound()
    ensures Sound(Weights)
  {
  }

  /**
   * Under its weights a decision picks a heading whose next position is free whenever one of the
   * candidates offers one, in emergency mode or not.
   */
  lemma DecisionEscapes(v: View, current: Direction, emergency: bool, draws: Draws, dist: Metric, escape: Direction)
    requires Euclidean(dist) && forall d :: 0.0 <= draws(d)
    requires escape != Reverse(current) && !Disqualified(v, escape)
    ensures !Disqualified(v, BestHeading(Weights, v, current, emergency, draws, dist))
  {
    WeightsAreSound();
    EscapeIsTaken(Weights, v, current, emergency, draws, dist, escape);
  }

  /**
   * The heading and last decision when a decision is `due`: the damped decision, scored in
   * emergency mode closer than 150 pixels to a wall; otherwise both are kept.
   */
  function Decided(v: View, current: Direction, last: Option<Direction>, due: bool, draws: Draws, dist: Metric)
    : (Direction, Option<Direction>)
  {
    if due
    then Damped(BestHeadingAsWritten(Weights, v, current, DistanceToWall(v.pos, v.bounds) < Emergency, draws, dist),
                current, last)
    else (current, last)
  }

  class UltraAI {
    const body: Player
    var decisionTimer: real
    var decisionInterval: real
    var lastDecision: Option<Direction>
    var opponentPosition: Point
    var opponentTrail: seq<Point>
    var gameBounds: Bounds
    var emergencyMode: bool

    ghost predicate Valid()
      reads this, body
    {
      0.0 < decisionInterval && body.Valid()
    }

    /** A vehicle at (x, y) in an arena the size of the window, deciding every 20 ms. */
    constructor (x: real, y: real, speed: real, heading: Direction, window: Bounds)
      ensures Valid() && fresh(body)
      ensures body.position == Point(x, y) && body.direction == heading && body.speed == speed
      ensures body.trail == [Point(x, y)]
      ensures decisionTimer == 0.0 && decisionInterval == 20.0 && lastDecision == None
      ensures opponentPosition == Point(0.0, 0.0) && opponentTrail == [] && gameBounds == window
      ensures !emergencyMode
    {
      body := new Player(x, y, speed, heading);
      decisionTimer := 0.0;
      decisionInterval := 20.0;
      lastDecision := None;
      opponentPosition := Point(0.0, 0.0);
      opponentTrail := [];
      gameBounds := window;
      emergencyMode := false;
    }

    /** `getCurrentGameState` as the evaluation sees it: its own trail, the recorded opponent. */
    function Seen(): View
      reads this, body
    {
      View(body.position, body.speed, gameBounds, body.trail, body.trail, opponentPosition, opponentTrail)
    }

    /**
     * Set emergency mode from the current wall distance, score the candidates (with the emergency
     * wall band in emergency mode) and take the best, damped; a best of UP falls back to the
     * current heading.
     */
    method MakeDecision(draws: Draws, dist: Metric)
      modifies this`emergencyMode, body`direction, this`lastDecision
      ensures emergencyMode <==> DistanceToWall(body.position, gameBounds) < Emergency
      ensures var best := BestHeadingAsWritten(Weights, Seen(), old(body.direction), emergencyMode, draws, dist);
              if Adopts(best, old(body.direction), old(lastDecision))
              then body.direction == best && lastDecision == Some(best)
              else body.direction == old(body.direction) && lastDecision == old(lastDecision)
      ensures (body.direction, lastDecision)
           == Damped(BestHeadingAsWritten(Weights, Seen(), old(body.direction), emergencyMode, draws, dist),
                     old(body.direction), old(lastDecision))
    {
      var wallDistance := DistanceToWall(body.position, gameBounds);
      if wallDistance < Emergency {
        emergencyMode := true;
      } else {
        emergencyMode := false;
      }
      var best := ChooseHeadingAsWritten(Weights, Seen(), body.direction, emergencyMode, draws, dist);
      if best != body.direction && lastDecision != Some(best) {
        body.SetDirection(best);
        lastDecision := Some(best);
      }
    }

    /** Decide, and reset the timer, once the timer has reached the interval. */
    method DecideWhenDue(draws: Draws, dist: Metric)
      modifies this`decisionTimer, this`emergencyMode, body`direction, this`lastDecision
      ensures decisionTimer == if old(decisionTimer) >= decisionInterval then 0.0 else old(decisionTimer)
      ensures emergencyMode
           == if old(decisionTimer) >= decisionInterval then DistanceToWall(body.position, gameBounds) < Emergency
              else old(emergencyMode)
      ensures (body.direction, lastDecision)
           == if old(decisionTimer) >= decisionInterval
              then Damped(BestHeadingAsWritten(Weights, Seen(), old(body.direction), emergencyMode, draws, dist),
                          old(body.direction), old(lastDecision))
              else (old(body.direction), old(lastDecision))
    {
      if decisionTimer >= decisionInterval {
        MakeDecision(draws, dist);
        decisionTimer := 0.0;
      }
    }

    /** The timer and, when due, the decision; the vehicle does not move. */
    method Decide(delta: real, draws: Draws, dist: Metric)
      requires Valid()
      modifies this`decisionTimer, this`emergencyMode, body`direction, this`lastDecision
      ensures Valid() && decisionTimer < decisionInterval
      ensures decisionTimer == if old(decisionTimer) + delta >= decisionInterval then 0.0 else old(decisionTimer) + delta
      ensures emergencyMode
           == if old(decisionTimer) + delta >= decisionInterval then DistanceToWall(body.position, gameBounds) < Emergency
              else old(emergencyMode)
      ensures (body.direction, lastDecision)
           == Decided(old(Seen()), old(body.direction), old(lastDecision), old(decisionTimer) + delta >= decisionInterval, draws, dist)
    {
      ghost var seen := Seen();
      decisionTimer := decisionTimer + delta;
      DecideWhenDue(draws, dist);
      assert Seen() == seen;
    }

    /** One frame: the timer and decision, then the vehicle's own tick, whose collision report it returns. */
    method Update(delta: real, singlePlayer: bool, score: int, draws: Draws, dist: Metric)
      returns (collided: bool, newScore: int)
      requires Valid()
      modifies this`decisionTimer, this`emergencyMode, this`lastDecision
      modifies body`position, body`trail, body`direction, body`distanceTraveled, body`lastPosition
      ensures Valid() && decisionTimer < decisionInterval
      ensures body.position == Displace(old(body.position), body.direction, body.speed)
      ensures body.trail
           == if body.position != old(body.position) then old(body.trail) + [body.position] else old(body.trail)
      ensures collided == TrailHit(body.trail, body.position)
      ensures decisionTimer == if old(decisionTimer) + delta >= decisionInterval then 0.0 else old(decisionTimer) + delta
      ensures body.distanceTraveled == old(body.distanceTraveled) + (if singlePlayer then Abs(body.speed) else 0.0)
      ensures newScore
           == if singlePlayer && Milestone(body.distanceTraveled, Abs(body.speed)) then score + ScoreBonus else score
      ensures (body.direction, lastDecision)
           == Decided(old(Seen()), old(body.direction), old(lastDecision), old(decisionTimer) + delta >= decisionInterval, draws, dist)
    {
      Decide(delta, draws, dist);
      collided, newScore := body.Update(singlePlayer, score);
    }

    method UpdateOpponentInfo(position: Point, trail: seq<Point>)
      modifies this`opponentPosition, this`opponentTrail
      ensures opponentPosition == position && opponentTrail == trail
    {
      opponentPosition := position;
      opponentTrail := trail;
    }

    method UpdateGameBounds(bounds: Bounds)
      modifies this`gameBounds
      ensures gameBounds == bounds
    {
      gameBounds := bounds;
    }

    method SetDifficulty(level: Difficulty)
      requires Valid()
      modifies this`decisionInterval
      ensures Valid() && decisionInterval == Interval(Speeds, level)
    {
      IntervalInRange(Speeds, level);
      decisionInterval := Interval(Speeds, level);
    }
  }
}
