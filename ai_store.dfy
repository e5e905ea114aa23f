/**
 * The store-backed computer opponent: it reads the arena, the opponent and its own published trail
 * from the shared match record, publishes its own snapshot there every frame, and refuses any move
 * that would end closer than 200 pixels to a wall, turning away instead.
 */
module AiStore {
  import opened Geometry
  import opened Steering
  import opened Vehicle
  import GameStore

  /** Its weights: sentinel -1000000, a 20-tick look-ahead, one wall band, rays of up to 499 ticks. */
  const Weights: Tuning := Tuning(
    -1000000.0, 20, -100000.0, 10000.0,
    Band(300.0, 500.0, 500.0, 100.0, 0.1),
    Band(300.0, 500.0, 500.0, 100.0, 0.1),
    Band(200.0, 300.0, 400.0, 100.0, 0.1),
    Band(200.0, 200.0, 400.0, 50.0, 0.05),
    10.0, 20.0, 500, 400.0, 300.0, 100.0, 50.0, 1.0)

  /** Decisions every 20, 10 or 5 milliseconds. */
  const Speeds: Pace := Pace(20.0, 10.0, 5.0)

  /** Room a move must leave to the walls. */
  const Margin: real := 200.0

  /** Room below which a heading kept by the emergency loop is abandoned anyway. */
  const Comfort: real := 300.0

  lemma WeightsAreSound()
    ensures Sound(Weights)
  {
  }

  /** A blocked first step scores -1000000; a look-ahead hit at tick k scores -100000 - (20 - k) * 10000. */
  lemma ScoresOfBlockedHeadings(v: View, d: Direction, alarm: bool, draw: real, dist: Metric)
    ensures Disqualified(v, d) ==> Evaluate(Weights, v, d, alarm, draw, dist) == -1000000.0
    ensures !Disqualified(v, d) ==>
              match FirstBlocked(SelfScene(v), v.pos, d, v.speed, 1, 20)
              case Some(k) => Evaluate(Weights, v, d, alarm, draw, dist) == -100000.0 - (20 - k) as real * 10000.0
              case None => true
  {
  }

  /**
   * What `evaluateDirection` sees: the record's arena when its width is set (its own otherwise),
   * its own live trail for collisions, its published trail for distances, and player 1 as the
   * opponent.
   */
  function StoreView(s: GameStore.GameState, pos: Point, speed: real, trail: seq<Point>, gameBounds: Bounds)
    : (v: View)
    ensures v.bounds == if s.bounds.width > 0.0 then s.bounds else gameBounds
    ensures v.selfTrail == trail && v.ownTrail == s.player2.trail
    ensures v.rivalPos == s.player1.position && v.rivalTrail == s.player1.trail
  {
    View(pos, speed, if s.bounds.width > 0.0 then s.bounds else gameBounds, trail,
         s.player2.trail, s.player1.position, s.player1.trail)
  }

  /**
   * The arena `aiUpdate` adopts: the record's, unless its width or height is still 0, in which
   * case the window's.
   */
  function ArenaFrom(s: GameStore.GameState, window: Bounds): (b: Bounds)
    ensures s.bounds.width != 0.0 && s.bounds.height != 0.0 ==> b == s.bounds
    ensures s.bounds.width == 0.0 || s.bounds.height == 0.0 ==> b == window
  {
    if s.bounds.width == 0.0 || s.bounds.height == 0.0 then window else s.bounds
  }

  /** The candidates other than the current heading, in order. */
  function Without(c: seq<Direction>, x: Direction): (r: seq<Direction>)
    ensures forall d :: d in r <==> d in c && d != x
    ensures |r| <= |c|
  {
    if c == [] then [] else (if c[0] == x then [] else [c[0]]) + Without(c[1..], x)
  }

  /**
   * The store's emergency turn: the widest candidate, except that when the loop kept the current
   * heading with less than 300 pixels of room, the first other candidate.
   */
  function ForcedTurn(p: Point, current: Direction, speed: real, b: Bounds): Direction {
    var w := Widest(p, speed, b, Candidates(current), current);
    if w.0 == current && w.1 < Comfort then
      var others := Without(Candidates(current), current);
      if |others| > 0 then others[0] else w.0
    else w.0
  }

  /**
   * Where the guarded move from `start` along `heading` ends, and the heading it leaves: the
   * forced turn in place when the next position would be closer than 200 pixels to a wall.
   */
  function GuardedStep(start: Point, heading: Direction, speed: real, b: Bounds): (Point, Direction) {
    var next := Displace(start, heading, speed);
    if DistanceToWall(next, b) < Margin then (start, ForcedTurn(start, heading, speed, b)) else (next, heading)
  }

  /** The heading and last decision when a decision is `due`: the damped decision; otherwise both are kept. */
  function Decided(v: View, current: Direction, last: Option<Direction>, due: bool, draws: Draws, dist: Metric)
    : (Direction, Option<Direction>)
  {
    if due then Damped(BestHeadingAsWritten(Weights, v, current, false, draws, dist), current, last) else (current, last)
  }

  /** The first other candidate is a quarter turn, the lowest-numbered one. */
  lemma FirstOtherIsQuarterTurn(current: Direction)
    ensures var others := Without(Candidates(current), current);
            |others| == 2
            && others[0] != current && others[0] != Reverse(current)
            && forall d :: d != current && d != Reverse(current) ==> Code(others[0]) <= Code(d)
  {
    var c := Candidates(current);
    assert c[1..][1..][1..] == [];
    assert Without(c[1..][1..], current) == (if c[2] == current then [] else [c[2]]);
    assert Without(c[1..], current) == (if c[1] == current then [] else [c[1]]) + Without(c[1..][1..], current);
  }

  /**
   * The forced turn never reverses; it keeps the current heading only when that heading leaves
   * at least 300 pixels of room after one tick, and otherwise either takes the candidate with the
   * most room or, when no candidate beats the current heading, the lowest-numbered quarter turn.
   */
  lemma ForcedTurnIsSafe(p: Point, current: Direction, speed: real, b: Bounds)
    ensures ForcedTurn(p, current, speed, b) != Reverse(current)
    ensures ForcedTurn(p, current, speed, b) == current ==> Comfort <= WallAfter(p, current, speed, b)
    ensures var r := ForcedTurn(p, current, speed, b);
            r != current ==>
              (forall d :: d != Reverse(current) ==> WallAfter(p, d, speed, b) <= WallAfter(p, r, speed, b))
              || (r != Reverse(current) && forall d :: d != current && d != Reverse(current) ==> Code(r) <= Code(d))
  {
    var c := Candidates(current);
    var w := Widest(p, speed, b, c, current);
    EmergencyTurnIsWidest(p, current, speed, b);
    FirstOtherIsQuarterTurn(current);
    if w.0 == current && w.1 < Comfort {
    } else if w.0 == current {
      assert w.1 != 0.0;
      assert w.1 == WallAfter(p, current, speed, b);
    } else {
      assert w.1 == WallAfter(p, w.0, speed, b);
    }
  }

  /**
   * The falsy UP: heading LEFT at (2, 998) in a 1000 by 1000 arena, with no trails, UP is the only
   * heading whose next position is inside the arena, so it is the best heading; written with
   * `|| currentDir`, the choice falls back to LEFT, whose next position is past the left wall.
   */
  lemma FalsyUpKeepsDoomedHeading(draws: Draws, dist: Metric)
    requires Euclidean(dist) && forall d :: 0.0 <= draws(d)
    ensures var v := View(Point(2.0, 998.0), 5.0, Bounds(1000.0, 1000.0), [], [], Point(0.0, 0.0), []);
            BestHeading(Weights, v, Left, false, draws, dist) == Up
            && BestHeadingAsWritten(Weights, v, Left, false, draws, dist) == Left
            && Disqualified(v, Left) && !Disqualified(v, Up)
  {
    var v := View(Point(2.0, 998.0), 5.0, Bounds(1000.0, 1000.0), [], [], Point(0.0, 0.0), []);
    WeightsAreSound();
    assert !Disqualified(v, Up);
    EscapeIsTaken(Weights, v, Left, false, draws, dist, Up);
    assert Disqualified(v, Down) && Disqualified(v, Left);
  }

  class StoreAI {
    const body: Player
    const store: GameStore.Store
    var decisionTimer: real
    var decisionInterval: real
    var lastDecision: Option<Direction>
    var gameBounds: Bounds

    ghost predicate Valid()
      reads this
    {
      0.0 < decisionInterval
    }

    /** A vehicle at (x, y) deciding every 5 ms; the window size becomes its arena and the record's. */
    constructor (x: real, y: real, speed: real, heading: Direction, store: GameStore.Store, window: Bounds, now: int)
      modifies store`state
      ensures Valid() && fresh(body) && this.store == store
      ensures body.position == Point(x, y) && body.direction == heading && body.speed == speed
      ensures body.trail == [Point(x, y)]
      ensures decisionTimer == 0.0 && decisionInterval == 5.0 && lastDecision == None && gameBounds == window
      ensures store.state == GameStore.UpdateGameBounds(old(store.state), window.width, window.height, now)
    {
      body := new Player(x, y, speed, heading);
      this.store := store;
      decisionTimer := 0.0;
      decisionInterval := 5.0;
      lastDecision := None;
      gameBounds := window;
      new;
      store.state := GameStore.UpdateGameBounds(store.state, window.width, window.height, now);
    }

    /** What the evaluation sees of the record and of the vehicle. */
    function Seen(): View
      reads this, body, store
    {
      StoreView(store.state, body.position, body.speed, body.trail, gameBounds)
    }

    /** The heading and last decision once the timer has advanced by `delta` (see `Decided`). */
    ghost function Decision(delta: real, draws: Draws, dist: Metric): (Direction, Option<Direction>)
      reads this, body, store
    {
      Decided(Seen(), body.direction, lastDecision, decisionTimer + delta >= decisionInterval, draws, dist)
    }

    /** Publish the vehicle's position, heading and trail as player 2's snapshot, marked alive. */
    method UpdateGameState(now: int)
      modifies store`state
      ensures store.state
           == GameStore.UpdatePlayer2Info(old(store.state), body.position, body.direction, body.trail, true, now)
    {
      store.state := GameStore.UpdatePlayer2Info(store.state, body.position, body.direction, body.trail, true, now);
    }

    /** Turn away from the walls by the store's rule (see `ForcedTurn`) and remember the turn. */
    method ForceSafeDirection()
      modifies body`direction, this`lastDecision
      ensures body.direction == ForcedTurn(body.position, old(body.direction), body.speed, gameBounds)
      ensures lastDecision == Some(body.direction)
    {
      var current := body.direction;
      var best, room := SafestHeading(body.position, current, body.speed, gameBounds);
      if best == current && room < Comfort {
        var others := Without(Candidates(current), current);
        if |others| > 0 {
          best := others[0];
        }
      }
      ForcedTurnIsSafe(body.position, current, body.speed, gameBounds);
      body.SetDirection(best);
      lastDecision := Some(best);
    }

    /**
     * Score the candidates against the record and take the best, damped; a best of UP falls back
     * to the current heading.
     */
    method MakeDecision(draws: Draws, dist: Metric)
      modifies body`direction, this`lastDecision
      ensures var best := BestHeadingAsWritten(Weights, old(Seen()), old(body.direction), false, draws, dist);
              if Adopts(best, old(body.direction), old(lastDecision))
              then body.direction == best && lastDecision == Some(best)
              else body.direction == old(body.direction) && lastDecision == old(lastDecision)
      ensures (body.direction, lastDecision)
           == Damped(BestHeadingAsWritten(Weights, Seen(), old(body.direction), false, draws, dist),
                     old(body.direction), old(lastDecision))
    {
      var best := ChooseHeadingAsWritten(Weights, Seen(), body.direction, false, draws, dist);
      if best != body.direction && lastDecision != Some(best) {
        body.SetDirection(best);
        lastDecision := Some(best);
      }
    }

    /**
     * The guarded move: adopt the record's arena (the window's while it is unset), and when the
     * next position would leave less than 200 pixels to a wall, turn away instead of moving;
     * otherwise move, append the new position when it changed, and in single-player mode without
     * an opponent add the distance moved. It never reports a collision.
     */
    method AiUpdate(singleMode: bool, window: Bounds, dist: Metric) returns (collided: bool)
      modifies body`position, body`trail, body`direction, body`distanceTraveled, body`lastPosition
      modifies this`lastDecision, this`gameBounds
      ensures !collided
      ensures gameBounds == ArenaFrom(store.state, window)
      ensures body.trail == if body.position != old(body.position) then old(body.trail) + [body.position] else old(body.trail)
      ensures var kept := Margin <= DistanceToWall(Displace(old(body.position), old(body.direction), body.speed), gameBounds);
              (lastDecision == if kept then old(lastDecision) else Some(body.direction))
              && if kept && singleMode && store.state.opponent.None?
                 then body.distanceTraveled == old(body.distanceTraveled) + dist(old(body.lastPosition), body.position)
                      && body.lastPosition == body.position
                 else body.distanceTraveled == old(body.distanceTraveled) && body.lastPosition == old(body.lastPosition)
      ensures (body.position, body.direction) == GuardedStep(old(body.position), old(body.direction), body.speed, gameBounds)
    {
      var oldPosition := body.position;
      gameBounds := ArenaFrom(store.state, window);
      var nextPos := Displace(body.position, body.direction, body.speed);
      var nextWallDistance := DistanceToWall(nextPos, gameBounds);
      if nextWallDistance < 0.0 {
        ForceSafeDirection();
        return false;
      }
      if nextWallDistance < Margin {
        ForceSafeDirection();
        return false;
      }
      body.position := nextPos;
      if body.position != oldPosition {
        body.trail := body.trail + [body.position];
      }
      if singleMode && store.state.opponent.None? {
        body.distanceTraveled := body.distanceTraveled + dist(body.lastPosition, body.position);
        body.lastPosition := body.position;
      }
      return false;
    }

    /** Decide, and reset the timer, once the timer has reached the interval. */
    method DecideWhenDue(draws: Draws, dist: Metric)
      modifies this`decisionTimer, body`direction, this`lastDecision
      ensures decisionTimer == if old(decisionTimer) >= decisionInterval then 0.0 else old(decisionTimer)
      ensures (body.direction, lastDecision)
           == if old(decisionTimer) >= decisionInterval
              then Damped(BestHeadingAsWritten(Weights, Seen(), old(body.direction), false, draws, dist),
                          old(body.direction), old(lastDecision))
              else (old(body.direction), old(lastDecision))
    {
      if decisionTimer >= decisionInterval {
        MakeDecision(draws, dist);
        decisionTimer := 0.0;
      }
    }

    /** The timer and the decision; the vehicle does not move. */
    method Decide(delta: real, draws: Draws, dist: Metric)
      requires Valid()
      modifies this`decisionTimer, body`direction, this`lastDecision
      ensures Valid() && decisionTimer < decisionInterval
      ensures decisionTimer == if old(decisionTimer) + delta >= decisionInterval then 0.0 else old(decisionTimer) + delta
      ensures (body.direction, lastDecision) == old(Decision(delta, draws, dist))
    {
      ghost var seen := Seen();
      decisionTimer := decisionTimer + delta;
      DecideWhenDue(draws, dist);
      assert Seen() == seen;
    }

    /**
     * One frame: decide when the timer is due, publish the snapshot, then make the guarded move.
     * The frame never reports a collision, and the vehicle either stays where it was or ends at
     * least 200 pixels from every wall of the arena it adopted.
     */
    method Update(delta: real, singleMode: bool, window: Bounds, draws: Draws, dist: Metric, now: int)
      returns (collided: bool)
      requires Valid()
      modifies this`decisionTimer, this`lastDecision, this`gameBounds, store`state
      modifies body`position, body`trail, body`direction, body`distanceTraveled, body`lastPosition
      ensures Valid() && decisionTimer < decisionInterval
      ensures !collided
      ensures body.position == old(body.position) || Margin <= DistanceToWall(body.position, gameBounds)
      ensures body.position == old(body.position) ==> body.trail == old(body.trail)
      ensures body.position != old(body.position) ==> body.trail == old(body.trail) + [body.position]
      ensures store.state.player2.isAlive && store.state.lastUpdate == now
      ensures store.state.player2.position == old(body.position) && store.state.player2.trail == old(body.trail)
      ensures store.state.(player2 := old(store.state).player2, lastUpdate := old(store.state).lastUpdate)
           == old(store.state)
      ensures decisionTimer == if old(decisionTimer) + delta >= decisionInterval then 0.0 else old(decisionTimer) + delta
      ensures gameBounds == ArenaFrom(store.state, window)
      ensures var decided := old(Decision(delta, draws, dist));
              var kept := Margin <= DistanceToWall(Displace(old(body.position), decided.0, body.speed), gameBounds);
              (lastDecision == if kept then decided.1 else Some(body.direction))
              && if kept && singleMode && store.state.opponent.None?
                 then body.distanceTraveled == old(body.distanceTraveled) + dist(old(body.lastPosition), body.position)
                      && body.lastPosition == body.position
                 else body.distanceTraveled == old(body.distanceTraveled) && body.lastPosition == old(body.lastPosition)
      ensures store.state
           == GameStore.UpdatePlayer2Info(old(store.state), old(body.position), old(Decision(delta, draws, dist)).0,
                                          old(body.trail), true, now)
      ensures (body.position, body.direction)
           == GuardedStep(old(body.position), old(Decision(delta, draws, dist)).0, body.speed, gameBounds)
    {
      Decide(delta, draws, dist);
      UpdateGameState(now);
      collided := AiUpdate(singleMode, window, dist);
    }

    /** Adopt a new arena, here and in the record. */
    method UpdateGameBounds(bounds: Bounds, now: int)
      modifies this`gameBounds, store`state
      ensures gameBounds == bounds
      ensures store.state == GameStore.UpdateGameBounds(old(store.state), bounds.width, bounds.height, now)
    {
      gameBounds := bounds;
      store.state := GameStore.UpdateGameBounds(store.state, bounds.width, bounds.height, now);
    }

    method SetDifficulty(level: Difficulty)
      requires Valid()
      modifies this`decisionInterval
      ensures Valid() && decisionInterval == Interval(Speeds, level)
    {
      IntervalInRange(Speeds, level);
      decisionInterval := Interval(Speeds, level);
    }
  }
}
