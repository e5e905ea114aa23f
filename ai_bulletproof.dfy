/**
 * The "bulletproof" computer opponent: a wall check on every frame that can force an emergency
 * turn, a scored decision whenever its timer reaches the interval, and a move of its own that is
 * undone when it would end on or past a wall.
 */
module AiBulletproof {
  import opened Geometry
  import opened Steering
  import opened Vehicle

  /** Its weights: sentinel -1000000, a 15-tick look-ahead, the panic wall band below 400. */
  const Weights: Tuning := Tuning(
    -1000000.0, 15, -100000.0, 10000.0,
    Band(300.0, 200.0, 500.0, 50.0, 0.0),
    Band(400.0, 500.0, 400.0, 0.0, 0.0),
    Band(150.0, 200.0, 300.0, 50.0, 0.1),
    Band(150.0, 100.0, 300.0, 20.0, 0.05),
    10.0, 20.0, 300, 400.0, 300.0, 100.0, 50.0, 1.0)

  lemma WeightsAreSound()
    ensures Sound(Weights)
  {
  }

  /** A blocked first step scores -1000000; a look-ahead hit at tick k scores -100000 - (15 - k) * 10000. */
  lemma ScoresOfBlockedHeadings(v: View, d: Direction, alarm: bool, draw: real, dist: Metric)
    ensures Disqualified(v, d) ==> Evaluate(Weights, v, d, alarm, draw, dist) == -1000000.0
    ensures !Disqualified(v, d) ==>
              match FirstBlocked(SelfScene(v), v.pos, d, v.speed, 1, 15)
              case Some(k) => Evaluate(Weights, v, d, alarm, draw, dist) == -100000.0 - (15 - k) as real * 10000.0
              case None => true
  {
  }

  /** Each open-space ray counts at most 299 ticks, so the measure stays within 0..1196. */
  lemma SpaceIsCapped(s: Scene, p: Point, speed: real)
    ensures SpaceScore(s, p, speed, Weights.rayCap) <= 1196
  {
    SpaceIsFourRays(s, p, speed, Weights.rayCap);
  }

  /** Decisions every 20, 10 or 5 milliseconds. */
  const Speeds: Pace := Pace(20.0, 10.0, 5.0)

  /** The heading the guarded move starts with: an emergency turn closer than 150 pixels to a wall. */
  function Heading(start: Point, current: Direction, speed: real, b: Bounds): Direction {
    if DistanceToWall(start, b) < 150.0 then EmergencyTurn(start, current, speed, b) else current
  }

  /**
   * The guarded move from `start`: the position, the heading and whether it moved. A tick that
   * ends on or past a wall is undone, with one more emergency turn.
   */
  function Guarded(start: Point, current: Direction, speed: real, b: Bounds): (Point, Direction, bool) {
    var heading := Heading(start, current, speed, b);
    var next := Displace(start, heading, speed);
    if 0.0 < DistanceToWall(next, b) then (next, heading, true)
    else (start, EmergencyTurn(start, heading, speed, b), false)
  }

  /**
   * The heading and last decision the panic check leaves: the emergency turn, remembered, closer
   * than 100 pixels to a wall.
   */
  function Checked(v: View, current: Direction, last: Option<Direction>): (Direction, Option<Direction>) {
    if DistanceToWall(v.pos, v.bounds) < 100.0
    then var turn := EmergencyTurn(v.pos, current, v.speed, v.bounds); (turn, Some(turn))
    else (current, last)
  }

  /**
   * The heading and last decision after the panic check and, when a decision is `due`, the damped
   * decision, scored in panic mode closer than 200 pixels to a wall.
   */
  function Decided(v: View, current: Direction, last: Option<Direction>, due: bool, draws: Draws, dist: Metric)
    : (Direction, Option<Direction>)
  {
    var checked := Checked(v, current, last);
    if due
    then Damped(BestHeadingAsWritten(Weights, v, checked.0, DistanceToWall(v.pos, v.bounds) < 200.0, draws, dist),
                checked.0, checked.1)
    else checked
  }

  class BulletproofAI {
    const body: Player
    var decisionTimer: real
    var decisionInterval: real
    var lastDecision: Option<Direction>
    var opponentPosition: Point
    var opponentTrail: seq<Point>
    var gameBounds: Bounds
    var panicMode: bool
    var lastWallDistance: real
    var forcedDirection: Option<Direction>

    ghost predicate Valid()
      reads this
    {
      0.0 < decisionInterval
    }

    /** A vehicle at (x, y) in an arena the size of the window, deciding every 5 ms. */
    constructor (x: real, y: real, speed: real, heading: Direction, window: Bounds)
      ensures Valid() && fresh(body)
      ensures body.position == Point(x, y) && body.direction == heading && body.speed == speed
      ensures body.trail == [Point(x, y)]
      ensures decisionTimer == 0.0 && decisionInterval == 5.0 && lastDecision == None
      ensures opponentPosition == Point(0.0, 0.0) && opponentTrail == [] && gameBounds == window
      ensures !panicMode && lastWallDistance == 1000.0 && forcedDirection == None
    {
      body := new Player(x, y, speed, heading);
      decisionTimer := 0.0;
      decisionInterval := 5.0;
      lastDecision := None;
      opponentPosition := Point(0.0, 0.0);
      opponentTrail := [];
      gameBounds := window;
      panicMode := false;
      lastWallDistance := 1000.0;
      forcedDirection := None;
    }

    /** What its evaluation sees: its own trail for collisions and distances, the recorded opponent. */
    function Seen(): View
      reads this, body
    {
      View(body.position, body.speed, gameBounds, body.trail, body.trail, opponentPosition, opponentTrail)
    }

    /** Turn to the candidate with the most room to the walls after one tick, and remember it. */
    method ForceSafeDirection()
      modifies body`direction, this`lastDecision, this`forcedDirection
      ensures body.direction == EmergencyTurn(body.position, old(body.direction), body.speed, gameBounds)
      ensures lastDecision == Some(body.direction) && forcedDirection == Some(body.direction)
    {
      var best, room := SafestHeading(body.position, body.direction, body.speed, gameBounds);
      EmergencyTurnIsWidest(body.position, body.direction, body.speed, gameBounds);
      body.SetDirection(best);
      lastDecision := Some(best);
      forcedDirection := Some(best);
    }

    /** Panic below 200 pixels from a wall, turn away below 100, and record the distance. */
    method PanicCheck()
      modifies this`panicMode, this`lastWallDistance, body`direction, this`lastDecision, this`forcedDirection
      ensures lastWallDistance == DistanceToWall(body.position, gameBounds)
      ensures panicMode <==> lastWallDistance < 200.0
      ensures (body.direction, lastDecision) == Checked(Seen(), old(body.direction), old(lastDecision))
      ensures forcedDirection == if lastWallDistance < 100.0 then Some(body.direction) else old(forcedDirection)
    {
      var wallDistance := DistanceToWall(body.position, gameBounds);
      if wallDistance < 200.0 {
        panicMode := true;
        if wallDistance < 100.0 {
          ForceSafeDirection();
        }
      } else {
        panicMode := false;
      }
      lastWallDistance := wallDistance;
    }

    /**
     * Score the candidates (with the panic wall band in panic mode) and take the best, damped; a
     * best of UP falls back to the current heading.
     */
    method MakeDecision(draws: Draws, dist: Metric)
      modifies body`direction, this`lastDecision
      ensures var best := BestHeadingAsWritten(Weights, Seen(), old(body.direction), panicMode, draws, dist);
              if Adopts(best, old(body.direction), old(lastDecision))
              then body.direction == best && lastDecision == Some(best)
              else body.direction == old(body.direction) && lastDecision == old(lastDecision)
      ensures (body.direction, lastDecision)
           == Damped(BestHeadingAsWritten(Weights, Seen(), old(body.direction), panicMode, draws, dist),
                     old(body.direction), old(lastDecision))
    {
      var best := ChooseHeadingAsWritten(Weights, Seen(), body.direction, panicMode, draws, dist);
      if best != body.direction && lastDecision != Some(best) {
        body.SetDirection(best);
        lastDecision := Some(best);
      }
    }

    /**
     * Keep a move from `from`: append the position when it changed and, in single-player mode,
     * count the distance since the last counted position.
     */
    method Record(from: Point, singlePlayer: bool, dist: Metric)
      modifies body`trail, body`distanceTraveled, body`lastPosition
      ensures body.trail == if body.position != from then old(body.trail) + [body.position] else old(body.trail)
      ensures singlePlayer ==>
                body.distanceTraveled == old(body.distanceTraveled) + dist(old(body.lastPosition), body.position)
                && body.lastPosition == body.position
      ensures !singlePlayer ==>
                body.distanceTraveled == old(body.distanceTraveled) && body.lastPosition == old(body.lastPosition)
    {
      if body.position != from {
        body.trail := body.trail + [body.position];
      }
      if singlePlayer {
        body.distanceTraveled := body.distanceTraveled + dist(body.lastPosition, body.position);
        body.lastPosition := body.position;
      }
    }

    /**
     * The guarded move's last step, once the vehicle has moved from `from`: undo the move and turn
     * away when it ended on or past a wall, and otherwise keep it.
     */
    method KeepOrUndo(from: Point, singlePlayer: bool, dist: Metric) returns (moved: bool)
      modifies body`position, body`trail, body`direction, body`distanceTraveled, body`lastPosition
      modifies this`lastDecision, this`forcedDirection
      ensures moved == (0.0 < DistanceToWall(old(body.position), gameBounds))
      ensures (body.position, body.direction)
           == if moved then (old(body.position), old(body.direction))
              else (from, EmergencyTurn(from, old(body.direction), body.speed, gameBounds))
      ensures (lastDecision, forcedDirection)
           == if moved then (old(lastDecision), old(forcedDirection)) else (Some(body.direction), Some(body.direction))
      ensures body.trail == if moved && body.position != from then old(body.trail) + [body.position] else old(body.trail)
      ensures moved && singlePlayer ==>
                body.distanceTraveled == old(body.distanceTraveled) + dist(old(body.lastPosition), body.position)
                && body.lastPosition == body.position
      ensures !(moved && singlePlayer) ==>
                body.distanceTraveled == old(body.distanceTraveled) && body.lastPosition == old(body.lastPosition)
    {
      if DistanceToWall(body.position, gameBounds) <= 0.0 {
        body.position := from;
        ForceSafeDirection();
        moved := false;
      } else {
        Record(from, singlePlayer, dist);
        moved := true;
      }
    }

    /** The guarded move's first step: the emergency turn closer than 150 pixels to a wall. */
    method SteerClear()
      modifies body`direction, this`lastDecision, this`forcedDirection
      ensures body.direction == Heading(body.position, old(body.direction), body.speed, gameBounds)
      ensures (lastDecision, forcedDirection)
           == if DistanceToWall(body.position, gameBounds) < 150.0 then (Some(body.direction), Some(body.direction))
              else (old(lastDecision), old(forcedDirection))
    {
      if DistanceToWall(body.position, gameBounds) < 150.0 {
        ForceSafeDirection();
      }
    }

    /**
     * The guarded move: turn away first when closer than 150 pixels to a wall, move one tick, and
     * undo the move (turning away once more) when it ends on or past a wall; otherwise append the
     * new position when it changed. Reports whether it moved.
     */
    method AiUpdate(singlePlayer: bool, dist: Metric) returns (moved: bool)
      modifies body`position, body`trail, body`direction, body`distanceTraveled, body`lastPosition
      modifies this`lastDecision, this`forcedDirection
      ensures body.trail == if moved && body.position != old(body.position) then old(body.trail) + [body.position] else old(body.trail)
      ensures moved && singlePlayer ==>
                body.distanceTraveled == old(body.distanceTraveled) + dist(old(body.lastPosition), body.position)
                && body.lastPosition == body.position
      ensures !(moved && singlePlayer) ==>
                body.distanceTraveled == old(body.distanceTraveled) && body.lastPosition == old(body.lastPosition)
      ensures (lastDecision, forcedDirection)
           == if moved && 150.0 <= DistanceToWall(old(body.position), gameBounds) then (old(lastDecision), old(forcedDirection))
              else (Some(body.direction), Some(body.direction))
      ensures (body.position, body.direction, moved) == Guarded(old(body.position), old(body.direction), body.speed, gameBounds)
      ensures moved ==> 0.0 < DistanceToWall(body.position, gameBounds)
    {
      var oldPosition := body.position;
      SteerClear();
      body.position := Displace(body.position, body.direction, body.speed);
      moved := KeepOrUndo(oldPosition, singlePlayer, dist);
    }

    /** Decide, and reset the timer, once the timer has reached the interval. */
    method DecideWhenDue(draws: Draws, dist: Metric)
      modifies this`decisionTimer, body`direction, this`lastDecision
      ensures decisionTimer == if old(decisionTimer) >= decisionInterval then 0.0 else old(decisionTimer)
      ensures (body.direction, lastDecision)
           == if old(decisionTimer) >= decisionInterval
              then Damped(BestHeadingAsWritten(Weights, Seen(), old(body.direction), panicMode, draws, dist),
                          old(body.direction), old(lastDecision))
              else (old(body.direction), old(lastDecision))
    {
      if decisionTimer >= decisionInterval {
        MakeDecision(draws, dist);
        decisionTimer := 0.0;
      }
    }

    /**
     * The first half of a frame: advance the timer, run the panic check, and decide once the timer
     * reaches the interval (resetting it). The vehicle does not move.
     */
    method Decide(delta: real, draws: Draws, dist: Metric)
      requires Valid()
      modifies this`decisionTimer, this`panicMode, this`lastWallDistance
      modifies body`direction, this`lastDecision, this`forcedDirection
      ensures Valid() && decisionTimer < decisionInterval
      ensures decisionTimer == if old(decisionTimer) + delta >= decisionInterval then 0.0 else old(decisionTimer) + delta
      ensures lastWallDistance == DistanceToWall(body.position, gameBounds)
      ensures panicMode <==> lastWallDistance < 200.0
      ensures (body.direction, lastDecision)
           == Decided(old(Seen()), old(body.direction), old(lastDecision), old(decisionTimer) + delta >= decisionInterval, draws, dist)
      ensures forcedDirection
           == if lastWallDistance < 100.0 then Some(Checked(old(Seen()), old(body.direction), old(lastDecision)).0)
              else old(forcedDirection)
    {
      ghost var seen := Seen();
      decisionTimer := decisionTimer + delta;
      PanicCheck();
      DecideWhenDue(draws, dist);
      assert Seen() == seen;
    }

    /**
     * One frame: the timer, panic check and decision, then the guarded move; reports whether it moved.
     */
    method Update(delta: real, singlePlayer: bool, draws: Draws, dist: Metric) returns (moved: bool)
      requires Valid()
      modifies this`decisionTimer, this`panicMode, this`lastWallDistance, this`lastDecision, this`forcedDirection
      modifies body`position, body`trail, body`direction, body`distanceTraveled, body`lastPosition
      ensures Valid() && decisionTimer < decisionInterval
      ensures decisionTimer == if old(decisionTimer) + delta >= decisionInterval then 0.0 else old(decisionTimer) + delta
      ensures lastWallDistance == DistanceToWall(old(body.position), gameBounds)
      ensures panicMode <==> lastWallDistance < 200.0
      ensures body.trail == if moved && body.position != old(body.position) then old(body.trail) + [body.position] else old(body.trail)
      ensures moved && singlePlayer ==>
                body.distanceTraveled == old(body.distanceTraveled) + dist(old(body.lastPosition), body.position)
                && body.lastPosition == body.position
      ensures !(moved && singlePlayer) ==>
                body.distanceTraveled == old(body.distanceTraveled) && body.lastPosition == old(body.lastPosition)
      ensures var decided := Decided(old(Seen()), old(body.direction), old(lastDecision), old(decisionTimer) + delta >= decisionInterval, draws, dist);
              (body.position, body.direction, moved) == Guarded(old(body.position), decided.0, body.speed, gameBounds)
              && lastDecision == if moved && 150.0 <= lastWallDistance then decided.1 else Some(body.direction)
      ensures moved ==> 0.0 < DistanceToWall(body.position, gameBounds)
    {
      Decide(delta, draws, dist);
      moved := AiUpdate(singlePlayer, dist);
    }

    method UpdateOpponentInfo(position: Point, trail: seq<Point>)
      modifies this`opponentPosition, this`opponentTrail
      ensures opponentPosition == position && opponentTrail == trail
    {
      opponentPosition := position;
      opponentTrail := trail;
    }

    method UpdateGameBounds(bounds: Bounds)
      modifies this`gameBounds
      ensures gameBounds == bounds
    {
      gameBounds := bounds;
    }

    method SetDifficulty(level: Difficulty)
      requires Valid()
      modifies this`decisionInterval
      ensures Valid() && decisionInterval == Interval(Speeds, level)
    {
      IntervalInRange(Speeds, level);
      decisionInterval := Interval(Speeds, level);
    }
  }
}
