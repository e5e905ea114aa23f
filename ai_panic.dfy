/**
 * The "panic" computer opponent: a wall check on every frame that enters panic mode below 200
 * pixels and turns away below 100, a scored decision whenever its timer reaches the interval
 * (with a harsher wall band in panic mode), and the ordinary vehicle move.
 */
module AiPanic {
  import opened Geometry
  import opened Steering
  import opened Vehicle

  /** Its weights: sentinel -100000, a 10-tick look-ahead, the panic wall band below 300. */
  const Weights: Tuning := Tuning(
    -100000.0, 10, -50000.0, 5000.0,
    Band(200.0, 100.0, 400.0, 20.0, 0.0),
    Band(300.0, 200.0, 300.0, 0.0, 0.0),
    Band(100.0, 100.0, 200.0, 20.0, 0.1),
    Band(100.0, 50.0, 200.0, 10.0, 0.05),
    5.0, 10.0, 200, 300.0, 200.0, 50.0, 20.0, 1.0)

  /** Decisions every 30, 20 or 10 milliseconds. */
  const Speeds: Pace := Pace(30.0, 20.0, 10.0)

  lemma WeightsAreSound()
    ensures Sound(Weights)
  {
  }

  /**
   * Under its weights a decision picks a heading whose next position is free whenever one of the
   * candidates offers one.
   */
  lemma DecisionEscapes(v: View, current: Direction, panic: bool, draws: Draws, dist: Metric, escape: Direction)
    requires Euclidean(dist) && forall d :: 0.0 <= draws(d)
    requires escape != Reverse(current) && !Disqualified(v, escape)
    ensures !Disqualified(v, BestHeading(Weights, v, current, panic, draws, dist))
  {
    WeightsAreSound();
    EscapeIsTaken(Weights, v, current, panic, draws, dist, escape);
  }

  /**
   * The heading and last decision the panic check leaves: the emergency turn, remembered, closer
   * than 100 pixels to a wall.
   */
  function Checked(v: View, current: Direction, last: Option<Direction>): (Direction, Option<Direction>) {
    if DistanceToWall(v.pos, v.bounds) < 100.0
    then var turn := EmergencyTurn(v.pos, current, v.speed, v.bounds); (turn, Some(turn))
    else (current, last)
  }

  /**
   * The heading and last decision after the panic check and, when a decision is `due`, the damped
   * decision, scored in panic mode closer than 200 pixels to a wall.
   */
  function Decided(v: View, current: Direction, last: Option<Direction>, due: bool, draws: Draws, dist: Metric)
    : (Direction, Option<Direction>)
  {
    var checked := Checked(v, current, last);
    if due
    then Damped(BestHeadingAsWritten(Weights, v, checked.0, DistanceToWall(v.pos, v.bounds) < 200.0, draws, dist),
                checked.0, checked.1)
    else checked
  }

  class PanicAI {
    const body: Player
    var decisionTimer: real
    var decisionInterval: real
    var lastDecision: Option<Direction>
    var opponentPosition: Point
    var opponentTrail: seq<Point>
    var gameBounds: Bounds
    var panicMode: bool
    var lastWallDistance: real

    ghost predicate Valid()
      reads this, body
    {
      0.0 < decisionInterval && body.Valid()
    }

    /** A vehicle at (x, y) in an arena the size of the window, deciding every 10 ms. */
    constructor (x: real, y: real, speed: real, heading: Direction, window: Bounds)
      ensures Valid() && fresh(body)
      ensures body.position == Point(x, y) && body.direction == heading && body.speed == speed
      ensures body.trail == [Point(x, y)]
      ensures decisionTimer == 0.0 && decisionInterval == 10.0 && lastDecision == None
      ensures opponentPosition == Point(0.0, 0.0) && opponentTrail == [] && gameBounds == window
      ensures !panicMode && lastWallDistance == 1000.0
    {
      body := new Player(x, y, speed, heading);
      decisionTimer := 0.0;
      decisionInterval := 10.0;
      lastDecision := None;
      opponentPosition := Point(0.0, 0.0);
      opponentTrail := [];
      gameBounds := window;
      panicMode := false;
      lastWallDistance := 1000.0;
    }

    /** `getCurrentGameState` as the evaluation sees it: its own trail, the recorded opponent. */
    function Seen(): View
      reads this, body
    {
      View(body.position, body.speed, gameBounds, body.trail, body.trail, opponentPosition, opponentTrail)
    }

    /** Turn to the candidate with the most room to the walls after one tick, and remember it. */
    method ForceEmergencyTurn()
      modifies body`direction, this`lastDecision
      ensures body.direction == EmergencyTurn(body.position, old(body.direction), body.speed, gameBounds)
      ensures lastDecision == Some(body.direction)
    {
      var best, room := SafestHeading(body.position, body.direction, body.speed, gameBounds);
      EmergencyTurnIsWidest(body.position, body.direction, body.speed, gameBounds);
      body.SetDirection(best);
      lastDecision := Some(best);
    }

    /** Panic below 200 pixels from a wall, turn away below 100, and record the distance. */
    method PanicCheck()
      modifies this`panicMode, this`lastWallDistance, body`direction, this`lastDecision
      ensures lastWallDistance == DistanceToWall(body.position, gameBounds)
      ensures panicMode <==> lastWallDistance < 200.0
      ensures (body.direction, lastDecision) == Checked(Seen(), old(body.direction), old(lastDecision))
    {
      var wallDistance := DistanceToWall(body.position, gameBounds);
      if wallDistance < 200.0 {
        panicMode := true;
        if wallDistance < 100.0 {
          ForceEmergencyTurn();
        }
      } else {
        panicMode := false;
      }
      lastWallDistance := wallDistance;
    }

    /**
     * Score the candidates (with the panic wall band in panic mode) and take the best, damped; a
     * best of UP falls back to the current heading.
     */
    method MakeDecision(draws: Draws, dist: Metric)
      modifies body`direction, this`lastDecision
      ensures var best := BestHeadingAsWritten(Weights, Seen(), old(body.direction), panicMode, draws, dist);
              if Adopts(best, old(body.direction), old(lastDecision))
              then body.direction == best && lastDecision == Some(best)
              else body.direction == old(body.direction) && lastDecision == old(lastDecision)
      ensures (body.direction, lastDecision)
           == Damped(BestHeadingAsWritten(Weights, Seen(), old(body.direction), panicMode, draws, dist),
                     old(body.direction), old(lastDecision))
    {
      var best := ChooseHeadingAsWritten(Weights, Seen(), body.direction, panicMode, draws, dist);
      if best != body.direction && lastDecision != Some(best) {
        body.SetDirection(best);
        lastDecision := Some(best);
      }
    }

    /** Decide, and reset the timer, once the timer has reached the interval. */
    method DecideWhenDue(draws: Draws, dist: Metric)
      modifies this`decisionTimer, body`direction, this`lastDecision
      ensures decisionTimer == if old(decisionTimer) >= decisionInterval then 0.0 else old(decisionTimer)
      ensures (body.direction, lastDecision)
           == if old(decisionTimer) >= decisionInterval
              then Damped(BestHeadingAsWritten(Weights, Seen(), old(body.direction), panicMode, draws, dist),
                          old(body.direction), old(lastDecision))
              else (old(body.direction), old(lastDecision))
    {
      if decisionTimer >= decisionInterval {
        MakeDecision(draws, dist);
        decisionTimer := 0.0;
      }
    }

    /** The timer, the panic check and, when due, the decision; the vehicle does not move. */
    method Decide(delta: real, draws: Draws, dist: Metric)
      requires Valid()
      modifies this`decisionTimer, this`panicMode, this`lastWallDistance, body`direction, this`lastDecision
      ensures Valid() && decisionTimer < decisionInterval
      ensures decisionTimer == if old(decisionTimer) + delta >= decisionInterval then 0.0 else old(decisionTimer) + delta
      ensures lastWallDistance == DistanceToWall(body.position, gameBounds)
      ensures panicMode <==> lastWallDistance < 200.0
      ensures (body.direction, lastDecision)
           == Decided(old(Seen()), old(body.direction), old(lastDecision), old(decisionTimer) + delta >= decisionInterval, draws, dist)
    {
      ghost var seen := Seen();
      decisionTimer := decisionTimer + delta;
      PanicCheck();
      DecideWhenDue(draws, dist);
      assert Seen() == seen;
    }

    /**
     * One frame: the timer, panic check and decision, then the vehicle's own tick, whose
     * collision report it returns.
     */
    method Update(delta: real, singlePlayer: bool, score: int, draws: Draws, dist: Metric)
      returns (collided: bool, newScore: int)
      requires Valid()
      modifies this`decisionTimer, this`panicMode, this`lastWallDistance, this`lastDecision
      modifies body`position, body`trail, body`direction, body`distanceTraveled, body`lastPosition
      ensures Valid() && decisionTimer < decisionInterval
      ensures lastWallDistance == DistanceToWall(old(body.position), gameBounds)
      ensures panicMode <==> lastWallDistance < 200.0
      ensures body.position == Displace(old(body.position), body.direction, body.speed)
      ensures body.trail
           == if body.position != old(body.position) then old(body.trail) + [body.position] else old(body.trail)
      ensures collided == TrailHit(body.trail, body.position)
      ensures decisionTimer == if old(decisionTimer) + delta >= decisionInterval then 0.0 else old(decisionTimer) + delta
      ensures body.distanceTraveled == old(body.distanceTraveled) + (if singlePlayer then Abs(body.speed) else 0.0)
      ensures newScore
           == if singlePlayer && Milestone(body.distanceTraveled, Abs(body.speed)) then score + ScoreBonus else score
      ensures (body.direction, lastDecision)
           == Decided(old(Seen()), old(body.direction), old(lastDecision), old(decisionTimer) + delta >= decisionInterval, draws, dist)
    {
      Decide(delta, draws, dist);
      collided, newScore := body.Update(singlePlayer, score);
    }

    method UpdateOpponentInfo(position: Point, trail: seq<Point>)
      modifies this`opponentPosition, this`opponentTrail
      ensures opponentPosition == position && opponentTrail == trail
    {
      opponentPosition := position;
      opponentTrail := trail;
    }

    method UpdateGameBounds(bounds: Bounds)
      modifies this`gameBounds
      ensures gameBounds == bounds
    {
      gameBounds := bounds;
    }

    method SetDifficulty(level: Difficulty)
      requires Valid()
      modifies this`decisionInterval
      ensures Valid() && decisionInterval == Interval(Speeds, level)
    {
      IntervalInRange(Speeds, level);
      decisionInterval := Interval(Speeds, level);
    }
  }
}
